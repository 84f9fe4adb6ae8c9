/** The printer settings screen of `src/screens/PrinterConfig.tsx`: the three
    settings are edited as text, checked field by field, printed with as a
    test, saved to AsyncStorage, loaded from it and reset to the defaults.
    Numbers are shown with `show`, the JavaScript `toString` of a number.
    The printer's outcome, AsyncStorage failures, the receipt number and the
    date are inputs of each handler. */
module PrinterConfigScreen {
  import opened Text
  import opened Numbers
  import opened Wrappers
  import opened Utils
  import opened LocalStorage
  import opened TestPrint

  const InvalidDpi := Alert("Invalid", "Dpi is invalid")
  const InvalidWidth := Alert("Invalid", "Width MM is invalid")
  const InvalidCharsPerLine := Alert("Invalid", "Nbr Characters Per Line is invalid")
  const SettingsSaved := Toast("Printer settings saved")
  const ConfigReset := Toast("Printer config reset")

  /** A setting passes when, trimmed, it is not empty, is a float string,
      and does not parse to 0 (NaN is not `=== 0`). */
  predicate FieldValid(s: string) {
    var t := Trim(s);
    t != "" && IsValidFloatNumber(t) && !StrictEquals(ParseFloat(t), Finite(0.0))
  }

  /** The checks shared by the print and the save buttons: the first invalid
      setting's alert, or the parsed configuration. */
  function ValidateConfig(dpi: string, widthMM: string, charsPerLine: string): Result<PrinterConfig, Notice> {
    if !FieldValid(dpi) then Failure(InvalidDpi)
    else if !FieldValid(widthMM) then Failure(InvalidWidth)
    else if !FieldValid(charsPerLine) then Failure(InvalidCharsPerLine)
    else Success(PrinterConfig(ParseFloat(Trim(dpi)), ParseFloat(Trim(widthMM)), ParseFloat(Trim(charsPerLine))))
  }

  /** The settings are checked in order, each alert names the first invalid
      one, and a configuration that passes holds the parsed trimmed inputs:
      each a nonzero number or NaN, never an infinity. */
  lemma ValidateConfigCases(dpi: string, widthMM: string, charsPerLine: string)
    ensures var r := ValidateConfig(dpi, widthMM, charsPerLine);
      && (r == Failure(InvalidDpi) <==> !FieldValid(dpi))
      && (r == Failure(InvalidWidth) <==> FieldValid(dpi) && !FieldValid(widthMM))
      && (r == Failure(InvalidCharsPerLine) <==> FieldValid(dpi) && FieldValid(widthMM) && !FieldValid(charsPerLine))
      && (r.Success? <==> FieldValid(dpi) && FieldValid(widthMM) && FieldValid(charsPerLine))
      && (r.Success? ==>
        && r.value == PrinterConfig(ParseFloat(Trim(dpi)), ParseFloat(Trim(widthMM)), ParseFloat(Trim(charsPerLine)))
        && SettingParsed(r.value.printerDpi) && SettingParsed(r.value.printerWidthMM)
        && SettingParsed(r.value.printerNbrCharactersPerLine))
  {
    if FieldValid(dpi) && FieldValid(widthMM) && FieldValid(charsPerLine) {
      ValidFieldParse(dpi);
      ValidFieldParse(widthMM);
      ValidFieldParse(charsPerLine);
    }
  }

  /** What a setting that passed can be. */
  predicate SettingParsed(n: Num) {
    n.NaN? || (n.Finite? && n.value != 0.0)
  }

  lemma ValidFieldParse(s: string)
    requires FieldValid(s)
    ensures SettingParsed(ParseFloat(Trim(s)))
  {
    ValidFloatParse(Trim(s));
  }

  /** A setting that is a character other than a digit, sign, dot or
      white space followed by digits (`x5`) passes as NaN. */
  lemma NaNSettingAccepted(c: char, d: string)
    requires !IsNumberStart(c) && !IsSpace(c) && IsDigits(d)
    ensures FieldValid([c] + d) && ParseFloat(Trim([c] + d)) == NaN
  {
    var s := [c] + d;
    assert s[1..] == d;
    assert AnyCharThenDigitsShape(s);
    assert !IsSpace(s[0]) && !IsSpace(s[|s| - 1]);
    assert TrimStart(s) == s;
    assert TrimEnd(s) == s;
    ParseFloatNoNumber(c, d);
  }

  /** A negative setting (`-5`) passes. */
  lemma NegativeSettingAccepted(d: string)
    requires IsDigits(d) && DigitsValue(d) > 0
    ensures FieldValid("-" + d) && ParseFloat(Trim("-" + d)) == Finite(-(DigitsValue(d) as real))
  {
    var s := "-" + d;
    assert s[1..] == d && s == ['-'] + d;
    assert AnyCharThenDigitsShape(s);
    assert !IsSpace(s[0]) && !IsSpace(s[|s| - 1]);
    assert TrimStart(s) == s;
    assert TrimEnd(s) == s;
    ParseFloatSigned('-', d);
  }

  /** `config.x.toString()` for each setting in order, up to the first that
      came back from storage as `null`, where `toString` throws. */
  function ShownSettings(l: LoadedConfig, show: Num -> string): (r: seq<string>)
    ensures |r| <= 3
    ensures |r| == 3 <==> DecodeConfig(l).Some?
    ensures |r| > 0 <==> l.printerDpi.JsonNum?
  {
    if l.printerDpi.JsonNull? then []
    else if l.printerWidthMM.JsonNull? then [show(Finite(l.printerDpi.v))]
    else if l.printerNbrCharactersPerLine.JsonNull? then [show(Finite(l.printerDpi.v)), show(Finite(l.printerWidthMM.v))]
    else [show(Finite(l.printerDpi.v)), show(Finite(l.printerWidthMM.v)), show(Finite(l.printerNbrCharactersPerLine.v))]
  }

  /** A configuration saved from settings that parsed to numbers loads back
      completely, each setting shown as its number. */
  lemma SaveThenLoad(s: Store, c: PrinterConfig, show: Num -> string)
    requires WellFormed(s)
    requires c.printerDpi.Finite? && c.printerWidthMM.Finite? && c.printerNbrCharactersPerLine.Finite?
    ensures var loaded := ReadPrinterConfig(s[PrinterDefaultConfigKey := ConfigJson(EncodeConfig(c))], false);
      ShownSettings(loaded, show) == [show(c.printerDpi), show(c.printerWidthMM), show(c.printerNbrCharactersPerLine)]
  {
    SetThenGetPrinterConfig(s, c);
  }

  /** A NaN setting is stored as `null`: the next load throws on it before
      showing it, and so on every later setting. */
  lemma SavedNaNBreaksLoad(s: Store, c: PrinterConfig, show: Num -> string)
    requires WellFormed(s) && c.printerDpi.NaN?
    ensures var loaded := ReadPrinterConfig(s[PrinterDefaultConfigKey := ConfigJson(EncodeConfig(c))], false);
      ShownSettings(loaded, show) == []
  {
    SetThenGetPrinterConfig(s, c);
  }

  class ConfigScreen {
    const storage: AsyncStorage
    const show: Num -> string

    var loading: bool
    var printerDpi: string
    var printerWidthMM: string
    var printerNbrCharactersPerLine: string
    var expenseAmount: string

    /** Alerts and toasts shown, and calls made to the printer. */
    var notices: seq<Notice>
    var jobs: seq<PrintJob>

    ghost predicate Valid()
      reads this, storage
    {
      storage.Valid()
    }

    constructor(storage: AsyncStorage, show: Num -> string)
      requires storage.Valid()
      ensures Valid()
      ensures this.storage == storage && this.show == show
      ensures loading && printerDpi == "" && printerWidthMM == "" && printerNbrCharactersPerLine == ""
      ensures expenseAmount == "" && notices == [] && jobs == []
    {
      this.storage, this.show := storage, show;
      loading := true;
      printerDpi, printerWidthMM, printerNbrCharactersPerLine, expenseAmount := "", "", "", "";
      notices, jobs := [], [];
    }

    /** `setConfig`: the settings are shown one after the other; a `null`
        setting throws, leaving it and the ones after it as they were. */
    method SetConfig(config: LoadedConfig) returns (threw: bool)
      modifies this
      ensures var shown := ShownSettings(config, show);
        && threw == (|shown| < 3)
        && printerDpi == (if |shown| > 0 then shown[0] else old(printerDpi))
        && printerWidthMM == (if |shown| > 1 then shown[1] else old(printerWidthMM))
        && printerNbrCharactersPerLine == (if |shown| > 2 then shown[2] else old(printerNbrCharactersPerLine))
      ensures loading == old(loading) && expenseAmount == old(expenseAmount)
      ensures notices == old(notices) && jobs == old(jobs)
    {
      threw := true;
      if config.printerDpi.JsonNull? {
        return;
      }
      printerDpi := show(Finite(config.printerDpi.v));
      if config.printerWidthMM.JsonNull? {
        return;
      }
      printerWidthMM := show(Finite(config.printerWidthMM.v));
      if config.printerNbrCharactersPerLine.JsonNull? {
        return;
      }
      printerNbrCharactersPerLine := show(Finite(config.printerNbrCharactersPerLine.v));
      threw := false;
    }

    /** The effect run when the screen mounts: the stored configuration is
        shown, and the loader is hidden unless `setConfig` threw. */
    method Load(readFails: bool) returns (threw: bool)
      requires Valid()
      modifies this
      ensures Valid()
      ensures var shown := ShownSettings(ReadPrinterConfig(storage.store, readFails), show);
        && threw == (|shown| < 3)
        && printerDpi == (if |shown| > 0 then shown[0] else old(printerDpi))
        && printerWidthMM == (if |shown| > 1 then shown[1] else old(printerWidthMM))
        && printerNbrCharactersPerLine == (if |shown| > 2 then shown[2] else old(printerNbrCharactersPerLine))
        && (!threw ==> [printerDpi, printerWidthMM, printerNbrCharactersPerLine] == shown && !loading)
        && (threw ==> loading == old(loading))
      ensures expenseAmount == old(expenseAmount) && notices == old(notices) && jobs == old(jobs)
    {
      var config := ReadPrinterConfig(storage.store, readFails);
      threw := SetConfig(config);
      if !threw {
        loading := false;
      }
    }

    method OnPrinterDpiChanged(text: string)
      modifies this
      ensures printerDpi == text
      ensures printerWidthMM == old(printerWidthMM) && printerNbrCharactersPerLine == old(printerNbrCharactersPerLine)
      ensures expenseAmount == old(expenseAmount) && loading == old(loading)
      ensures notices == old(notices) && jobs == old(jobs)
    {
      printerDpi := text;
    }

    method OnPrinterWidthMMChanged(text: string)
      modifies this
      ensures printerWidthMM == text
      ensures printerDpi == old(printerDpi) && printerNbrCharactersPerLine == old(printerNbrCharactersPerLine)
      ensures expenseAmount == old(expenseAmount) && loading == old(loading)
      ensures notices == old(notices) && jobs == old(jobs)
    {
      printerWidthMM := text;
    }

    method OnPrinterNbrCharactersPerLineChanged(text: string)
      modifies this
      ensures printerNbrCharactersPerLine == text
      ensures printerDpi == old(printerDpi) && printerWidthMM == old(printerWidthMM)
      ensures expenseAmount == old(expenseAmount) && loading == old(loading)
      ensures notices == old(notices) && jobs == old(jobs)
    {
      printerNbrCharactersPerLine := text;
    }

    method OnExpenseAmountChanged(text: string)
      modifies this
      ensures expenseAmount == text
      ensures printerDpi == old(printerDpi) && printerWidthMM == old(printerWidthMM)
      ensures printerNbrCharactersPerLine == old(printerNbrCharactersPerLine) && loading == old(loading)
      ensures notices == old(notices) && jobs == old(jobs)
    {
      expenseAmount := text;
    }

    /** `onPrintPressed`: after the checks, the test text is printed with the
        parsed configuration; a printer error is alerted with its message. */
    method OnPrintPressed(receiptNo: string, date: string, printer: PrintOutcome)
      returns (checked: Result<PrinterConfig, Notice>)
      modifies this
      ensures checked == ValidateConfig(printerDpi, printerWidthMM, printerNbrCharactersPerLine)
      ensures printerDpi == old(printerDpi) && printerWidthMM == old(printerWidthMM)
      ensures printerNbrCharactersPerLine == old(printerNbrCharactersPerLine)
      ensures expenseAmount == old(expenseAmount) && loading == old(loading)
      ensures checked.Failure? ==> notices == old(notices) + [checked.error] && jobs == old(jobs)
      ensures checked.Success? ==>
        && jobs == old(jobs) + [PrintJob(ConfigTestText(receiptNo, date, AmountText(expenseAmount)), checked.value)]
        && notices == old(notices) + (if printer.PrintThrew? then [Alert("Error", printer.message)] else [])
    {
      checked := ValidateConfig(printerDpi, printerWidthMM, printerNbrCharactersPerLine);
      PrintChecked(checked, ConfigTestText(receiptNo, date, AmountText(expenseAmount)), printer);
    }

    method PrintChecked(checked: Result<PrinterConfig, Notice>, text: string, printer: PrintOutcome)
      modifies this
      ensures printerDpi == old(printerDpi) && printerWidthMM == old(printerWidthMM)
      ensures printerNbrCharactersPerLine == old(printerNbrCharactersPerLine)
      ensures expenseAmount == old(expenseAmount) && loading == old(loading)
      ensures checked.Failure? ==> notices == old(notices) + [checked.error] && jobs == old(jobs)
      ensures checked.Success? ==>
        && jobs == old(jobs) + [PrintJob(text, checked.value)]
        && notices == old(notices) + (if printer.PrintThrew? then [Alert("Error", printer.message)] else [])
    {
      if checked.Failure? {
        notices := notices + [checked.error];
        return;
      }
      jobs := jobs + [PrintJob(text, checked.value)];
      if printer.PrintThrew? {
        notices := notices + [Alert("Error", printer.message)];
      }
    }

    /** `onSaveConfigPressed`: after the checks, the parsed configuration is
        written and the toast shown, whether or not the write failed. */
    method OnSaveConfigPressed(writeFails: bool) returns (checked: Result<PrinterConfig, Notice>)
      requires Valid()
      modifies this, storage
      ensures Valid()
      ensures checked == ValidateConfig(printerDpi, printerWidthMM, printerNbrCharactersPerLine)
      ensures printerDpi == old(printerDpi) && printerWidthMM == old(printerWidthMM)
      ensures printerNbrCharactersPerLine == old(printerNbrCharactersPerLine)
      ensures expenseAmount == old(expenseAmount) && jobs == old(jobs)
      ensures checked.Failure? ==>
        && notices == old(notices) + [checked.error] && storage.store == old(storage.store) && loading == old(loading)
      ensures checked.Success? ==>
        && storage.store == (if writeFails then old(storage.store)
                             else old(storage.store)[PrinterDefaultConfigKey := ConfigJson(EncodeConfig(checked.value))])
        && notices == old(notices) + [SettingsSaved] && !loading
    {
      checked := ValidateConfig(printerDpi, printerWidthMM, printerNbrCharactersPerLine);
      SaveChecked(checked, writeFails);
    }

    method SaveChecked(checked: Result<PrinterConfig, Notice>, writeFails: bool)
      requires Valid()
      modifies this, storage
      ensures Valid()
      ensures printerDpi == old(printerDpi) && printerWidthMM == old(printerWidthMM)
      ensures printerNbrCharactersPerLine == old(printerNbrCharactersPerLine)
      ensures expenseAmount == old(expenseAmount) && jobs == old(jobs)
      ensures checked.Failure? ==>
        && notices == old(notices) + [checked.error] && storage.store == old(storage.store) && loading == old(loading)
      ensures checked.Success? ==>
        && storage.store == (if writeFails then old(storage.store)
                             else old(storage.store)[PrinterDefaultConfigKey := ConfigJson(EncodeConfig(checked.value))])
        && notices == old(notices) + [SettingsSaved] && !loading
    {
      if checked.Failure? {
        notices := notices + [checked.error];
        return;
      }
      loading := true;
      storage.SetPrinterDefaultConfig(checked.value, writeFails);
      notices := notices + [SettingsSaved];
      loading := false;
    }

    /** `onResetButtonPressed`: the defaults are shown and written, the test
        amount is cleared. */
    method OnResetButtonPressed(writeFails: bool)
      requires Valid()
      modifies this, storage
      ensures Valid()
      ensures [printerDpi, printerWidthMM, printerNbrCharactersPerLine] == ShownSettings(DefaultLoaded, show)
      ensures expenseAmount == "" && !loading && jobs == old(jobs)
      ensures notices == old(notices) + [ConfigReset]
      ensures storage.store == (if writeFails then old(storage.store)
                                else old(storage.store)[PrinterDefaultConfigKey := ConfigJson(DefaultLoaded)])
    {
      loading := true;
      var threw := SetConfig(DefaultLoaded);
      expenseAmount := "";
      storage.SetPrinterDefaultConfig(PrinterDefaultConfig, writeFails);
      notices := notices + [ConfigReset];
      loading := false;
    }
  }

  /** Resetting shows the default settings as numbers: nothing throws. */
  lemma ResetShowsDefaults(show: Num -> string)
    ensures ShownSettings(DefaultLoaded, show) == [show(Finite(150.0)), show(Finite(48.0)), show(Finite(30.0))]
  {
    DefaultLoadedValues();
  }
}
