/** `src/core/LocalStorageService.ts`: the app's four persisted entries in
    AsyncStorage. The store is a map from key to the value last written;
    values written with `JSON.stringify` are kept as the record
    `JSON.parse` gives back. AsyncStorage failures are inputs: a read that
    fails, a write that fails. */
module LocalStorage {
  import opened Numbers
  import opened Wrappers
  import opened Utils

  /** The four keys, assumed distinct. */
  datatype Key = PrinterDefaultConfigKey | LoginDataKey | DailyReportPrintedDateKey | PreviousPrintedReceiptKey

  /** A number after a JSON round trip: `JSON.stringify` writes `null` for
      NaN and the infinities. */
  datatype JsonNumber = JsonNull | JsonNum(v: real)

  function ToJson(n: Num): (j: JsonNumber)
    ensures j.JsonNum? <==> n.Finite?
    ensures j.JsonNum? ==> j.v == n.value
  {
    if n.Finite? then JsonNum(n.value) else JsonNull
  }

  /** A printer configuration as `getPrinterDefaultConfig` returns it. */
  datatype LoadedConfig = LoadedConfig(printerDpi: JsonNumber, printerWidthMM: JsonNumber, printerNbrCharactersPerLine: JsonNumber)

  /** The configuration `JSON.parse(JSON.stringify(config))` gives back. */
  function EncodeConfig(c: PrinterConfig): LoadedConfig {
    LoadedConfig(ToJson(c.printerDpi), ToJson(c.printerWidthMM), ToJson(c.printerNbrCharactersPerLine))
  }

  /** The numbers of a loaded configuration; None when a field is `null`. */
  function DecodeConfig(l: LoadedConfig): (r: Option<PrinterConfig>)
    ensures r.Some? <==> l.printerDpi.JsonNum? && l.printerWidthMM.JsonNum? && l.printerNbrCharactersPerLine.JsonNum?
  {
    if l.printerDpi.JsonNum? && l.printerWidthMM.JsonNum? && l.printerNbrCharactersPerLine.JsonNum? then
      Some(PrinterConfig(Finite(l.printerDpi.v), Finite(l.printerWidthMM.v), Finite(l.printerNbrCharactersPerLine.v)))
    else None
  }

  /** The default configuration, returned as it is when nothing is stored. */
  const DefaultLoaded := EncodeConfig(PrinterDefaultConfig)

  /** The login record as the backend sends it; the token may be missing. */
  datatype LoginData = LoginData(id: string, name: string, accessToken: Option<string>)

  datatype Value = ConfigJson(config: LoadedConfig) | LoginJson(login: LoginData) | Text(text: string)

  type Store = map<Key, Value>

  /** Each key holds what its setter writes. */
  predicate WellFormed(s: Store) {
    && (PrinterDefaultConfigKey in s ==> s[PrinterDefaultConfigKey].ConfigJson?)
    && (LoginDataKey in s ==> s[LoginDataKey].LoginJson?)
    && (DailyReportPrintedDateKey in s ==> s[DailyReportPrintedDateKey].Text?)
    && (PreviousPrintedReceiptKey in s ==> s[PreviousPrintedReceiptKey].Text?)
  }

  /** `getPrinterDefaultConfig`: the stored configuration, or the default when
      the key is absent or the read fails. */
  function ReadPrinterConfig(s: Store, readFails: bool): (c: LoadedConfig)
    requires WellFormed(s)
    ensures !readFails && PrinterDefaultConfigKey in s ==> c == s[PrinterDefaultConfigKey].config
    ensures readFails || PrinterDefaultConfigKey !in s ==> c == DefaultLoaded
  {
    if !readFails && PrinterDefaultConfigKey in s then s[PrinterDefaultConfigKey].config else DefaultLoaded
  }

  /** `getLoginData`: the stored record, or null when absent or unreadable. */
  function ReadLoginData(s: Store, readFails: bool): (r: Option<LoginData>)
    requires WellFormed(s)
    ensures r.Some? <==> !readFails && LoginDataKey in s
    ensures r.Some? ==> s[LoginDataKey] == LoginJson(r.value)
  {
    if !readFails && LoginDataKey in s then Some(s[LoginDataKey].login) else None
  }

  /** `getAuthToken`: the stored token, `''` when the record has none; None
      when there is no record, where `loginData.accessToken` throws. */
  function ReadAuthToken(s: Store, readFails: bool): (r: Option<string>)
    requires WellFormed(s)
    ensures r.Some? <==> ReadLoginData(s, readFails).Some?
    ensures r.Some? ==> r.value == ReadLoginData(s, readFails).value.accessToken.GetOr("")
  {
    match ReadLoginData(s, readFails)
    case None => None
    case Some(d) => Some(d.accessToken.GetOr(""))
  }

  /** The raw string under one of the two text keys, or null. */
  function ReadText(s: Store, k: Key, readFails: bool): (r: Option<string>)
    requires WellFormed(s) && (k == DailyReportPrintedDateKey || k == PreviousPrintedReceiptKey)
    ensures r.Some? <==> !readFails && k in s
    ensures r.Some? ==> s[k] == Text(r.value)
  {
    if !readFails && k in s then Some(s[k].text) else None
  }

  /** `getDailyReportPrintedDate` */
  function ReadDailyReportPrintedDate(s: Store, readFails: bool): Option<string>
    requires WellFormed(s)
  {
    ReadText(s, DailyReportPrintedDateKey, readFails)
  }

  /** `getPreviousPrintedReceipt` */
  function ReadPreviousPrintedReceipt(s: Store, readFails: bool): Option<string>
    requires WellFormed(s)
  {
    ReadText(s, PreviousPrintedReceiptKey, readFails)
  }

  /** AsyncStorage, holding the app's entries. Every setter swallows a failed
      write and then leaves the store as it was. */
  class AsyncStorage {
    var store: Store

    ghost predicate Valid()
      reads this
    {
      WellFormed(store)
    }

    constructor(initial: Store)
      requires WellFormed(initial)
      ensures Valid() && store == initial
    {
      store := initial;
    }

    /** `setPrinterDefaultConfig` */
    method SetPrinterDefaultConfig(config: PrinterConfig, writeFails: bool)
      requires Valid()
      modifies this
      ensures Valid()
      ensures store == if writeFails then old(store) else old(store)[PrinterDefaultConfigKey := ConfigJson(EncodeConfig(config))]
    {
      if !writeFails {
        store := store[PrinterDefaultConfigKey := ConfigJson(EncodeConfig(config))];
      }
    }

    /** `setLoginData` */
    method SetLoginData(loginData: LoginData, writeFails: bool)
      requires Valid()
      modifies this
      ensures Valid()
      ensures store == if writeFails then old(store) else old(store)[LoginDataKey := LoginJson(loginData)]
    {
      if !writeFails {
        store := store[LoginDataKey := LoginJson(loginData)];
      }
    }

    /** `setDailyReportPrintedDate`: the raw string. */
    method SetDailyReportPrintedDate(date: string, writeFails: bool)
      requires Valid()
      modifies this
      ensures Valid()
      ensures store == if writeFails then old(store) else old(store)[DailyReportPrintedDateKey := Text(date)]
    {
      if !writeFails {
        store := store[DailyReportPrintedDateKey := Text(date)];
      }
    }

    /** `setPreviousPrintedReceipt`: the raw string. */
    method SetPreviousPrintedReceipt(receipt: string, writeFails: bool)
      requires Valid()
      modifies this
      ensures Valid()
      ensures store == if writeFails then old(store) else old(store)[PreviousPrintedReceiptKey := Text(receipt)]
    {
      if !writeFails {
        store := store[PreviousPrintedReceiptKey := Text(receipt)];
      }
    }

    /** `clearLoginData`: removes every key, not only the login record. */
    method ClearLoginData(removeFails: bool)
      requires Valid()
      modifies this
      ensures Valid()
      ensures store == if removeFails then old(store) else map[]
    {
      if !removeFails {
        store := map[];
      }
    }
  }

  // ---------------------------------------------------------------------
  // Properties

  /** A configuration of finite numbers comes back identical; a field that is
      not finite comes back as `null`. */
  lemma ConfigRoundTrip(c: PrinterConfig)
    ensures DecodeConfig(EncodeConfig(c)).Some?
            <==> c.printerDpi.Finite? && c.printerWidthMM.Finite? && c.printerNbrCharactersPerLine.Finite?
    ensures DecodeConfig(EncodeConfig(c)).Some? ==> DecodeConfig(EncodeConfig(c)).value == c
  {
  }

  /** Writing the configuration and reading it back gives what was written. */
  lemma SetThenGetPrinterConfig(s: Store, c: PrinterConfig)
    requires WellFormed(s)
    ensures WellFormed(s[PrinterDefaultConfigKey := ConfigJson(EncodeConfig(c))])
    ensures ReadPrinterConfig(s[PrinterDefaultConfigKey := ConfigJson(EncodeConfig(c))], false) == EncodeConfig(c)
  {
  }

  lemma SetThenGetLoginData(s: Store, d: LoginData)
    requires WellFormed(s)
    ensures WellFormed(s[LoginDataKey := LoginJson(d)])
    ensures ReadLoginData(s[LoginDataKey := LoginJson(d)], false) == Some(d)
    ensures ReadAuthToken(s[LoginDataKey := LoginJson(d)], false) == Some(d.accessToken.GetOr(""))
  {
  }

  lemma SetThenGetTexts(s: Store, date: string, receipt: string)
    requires WellFormed(s)
    ensures WellFormed(s[DailyReportPrintedDateKey := Text(date)])
    ensures ReadDailyReportPrintedDate(s[DailyReportPrintedDateKey := Text(date)], false) == Some(date)
    ensures WellFormed(s[PreviousPrintedReceiptKey := Text(receipt)])
    ensures ReadPreviousPrintedReceipt(s[PreviousPrintedReceiptKey := Text(receipt)], false) == Some(receipt)
  {
  }

  /** After clearing, nothing is stored: no login record, so no token, and
      the default configuration. */
  lemma AfterClear()
    ensures WellFormed(map[])
    ensures ReadLoginData(map[], false) == None && ReadAuthToken(map[], false) == None
    ensures ReadPrinterConfig(map[], false) == DefaultLoaded
    ensures ReadDailyReportPrintedDate(map[], false) == None && ReadPreviousPrintedReceipt(map[], false) == None
  {
  }

  /** The default configuration as loaded: dpi 150, 48 mm, 30 characters. */
  lemma DefaultLoadedValues()
    ensures DefaultLoaded == LoadedConfig(JsonNum(150.0), JsonNum(48.0), JsonNum(30.0))
    ensures DecodeConfig(DefaultLoaded) == Some(PrinterDefaultConfig)
  {
  }

  /** A write to one key leaves what every getter of another key returns. */
  lemma SetterIsolation(s: Store, k: Key, v: Value, readFails: bool)
    requires WellFormed(s) && WellFormed(s[k := v])
    ensures k != PrinterDefaultConfigKey ==> ReadPrinterConfig(s[k := v], readFails) == ReadPrinterConfig(s, readFails)
    ensures k != LoginDataKey ==> ReadLoginData(s[k := v], readFails) == ReadLoginData(s, readFails)
    ensures k != LoginDataKey ==> ReadAuthToken(s[k := v], readFails) == ReadAuthToken(s, readFails)
    ensures k != DailyReportPrintedDateKey
            ==> ReadDailyReportPrintedDate(s[k := v], readFails) == ReadDailyReportPrintedDate(s, readFails)
    ensures k != PreviousPrintedReceiptKey
            ==> ReadPreviousPrintedReceipt(s[k := v], readFails) == ReadPreviousPrintedReceipt(s, readFails)
  {
  }
}
