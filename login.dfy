/** The login screen of `src/screens/Login.tsx`: the ordered checks on the
    credentials before `login` is called, the handling of its response, and
    the printer test with settings that override a default configuration
    field by field. The response of `login`, the printer's outcome, the
    receipt number, the date and the default configuration are inputs. */
module Login {
  import opened Text
  import opened Numbers
  import opened Wrappers
  import opened Utils
  import opened LocalStorage
  import opened TestPrint

  const EmailEmpty := Alert("Email Empty", "Please enter an email.")
  const InvalidEmail := Alert("Invalid Email", "The email entered is invalid.")
  const PasswordEmpty := Alert("Password Empty", "Please enter a password.")
  const InvalidPassword := Alert("Invalid Password", "The password must be 8 characters long.")

  /** The credentials `login` is called with. */
  datatype Credentials = Credentials(email: string, password: string)

  /** The checks of `onLoginPressed`, in their order, on the trimmed email
      and password; the trimmed pair when all pass. */
  function CheckLogin(email: string, password: string): Result<Credentials, Notice> {
    var e, p := Trim(email), Trim(password);
    if e == "" then Failure(EmailEmpty)
    else if !IsEmailValid(e) then Failure(InvalidEmail)
    else if p == "" then Failure(PasswordEmpty)
    else if |p| < 8 then Failure(InvalidPassword)
    else Success(Credentials(e, p))
  }

  /** Each check fails with its alert only when the earlier ones passed; the
      credentials that pass are the trimmed inputs, with a valid email and a
      password of at least 8 characters. */
  lemma CheckLoginCases(email: string, password: string)
    ensures var r, e, p := CheckLogin(email, password), Trim(email), Trim(password);
      && (r == Failure(EmailEmpty) <==> e == "")
      && (r == Failure(InvalidEmail) <==> e != "" && !IsEmailValid(e))
      && (r == Failure(PasswordEmpty) <==> e != "" && IsEmailValid(e) && p == "")
      && (r == Failure(InvalidPassword) <==> e != "" && IsEmailValid(e) && p != "" && |p| < 8)
      && (r.Success? <==> IsEmailValid(e) && |p| >= 8)
      && (r.Success? ==> r.value == Credentials(e, p))
  {
  }

  /** A password of exactly 8 characters is long enough. */
  lemma EightCharacterPassword(email: string, password: string)
    requires IsEmailValid(Trim(email)) && |Trim(password)| == 8
    ensures CheckLogin(email, password) == Success(Credentials(Trim(email), Trim(password)))
  {
    CheckLoginCases(email, password);
  }

  /** What `login` resolves with: the merchant's record, or a message. */
  datatype LoginResponse = LoginSucceeded(data: LoginData) | LoginFailed(message: string)

  /** `numRegex`, `^[+-]?((\.\d+)|(\d+(\.\d+)?))$`, without its sign. */
  predicate UnsignedLiteral(u: string) {
    DecimalShape(u) || (|u| >= 2 && u[0] == '.' && IsDigits(u[1..]))
  }

  /** `numRegex`: an optional sign, then digits with an optional fraction or
      a fraction alone. */
  predicate NumLiteral(s: string) {
    UnsignedLiteral(s) || (|s| > 0 && (s[0] == '+' || s[0] == '-') && UnsignedLiteral(s[1..]))
  }

  lemma UnsignedLiteralParse(u: string)
    requires UnsignedLiteral(u)
    ensures |u| > 0 && (IsDigit(u[0]) || u[0] == '.')
    ensures ParseUnsignedPrefix(u).Some? && ParseUnsignedPrefix(u).value.Finite?
    ensures ParseUnsignedPrefix(u).value.value >= 0.0
  {
    if IsDigits(u) {
      UnsignedOfDigits(u);
    } else if i :| 0 < i < |u| - 1 && u[i] == '.' && IsDigits(u[..i]) && IsDigits(u[i + 1..]) {
      assert u == u[..i] + "." + u[i + 1..];
      UnsignedOfDecimal(u[..i], u[i + 1..]);
    } else {
      assert u == "" + "." + u[1..];
      UnsignedOfDecimal("", u[1..]);
    }
  }

  /** What `numRegex` accepts `parseFloat` reads as a number, negative only
      after a `-`. Unlike the float check, it refuses `x5`. */
  lemma NumLiteralParse(s: string)
    requires NumLiteral(s)
    ensures |s| > 0 && ParseFloat(s).Finite?
    ensures !(|s| > 0 && s[0] == '-') ==> ParseFloat(s).value >= 0.0
  {
    if UnsignedLiteral(s) {
      UnsignedLiteralFloat(s);
    } else {
      SignedLiteralFloat(s);
    }
  }

  lemma UnsignedLiteralFloat(u: string)
    requires UnsignedLiteral(u)
    ensures |u| > 0 && ParseFloat(u).Finite? && ParseFloat(u).value >= 0.0
  {
    UnsignedLiteralParse(u);
    ParseFloatUnsigned(u);
  }

  lemma SignedLiteralFloat(s: string)
    requires |s| > 0 && (s[0] == '+' || s[0] == '-') && UnsignedLiteral(s[1..])
    ensures ParseFloat(s).Finite? && (s[0] == '+' ==> ParseFloat(s).value >= 0.0)
  {
    UnsignedLiteralParse(s[1..]);
    ParseFloatNoLeadingSpace(s);
  }

  lemma NumLiteralRefusesLetter()
    ensures !NumLiteral("x5") && NumLiteral("-.5") && NumLiteral("1.25")
  {
    assert "-.5"[1..] == ".5" && ".5"[1..] == "5";
    assert "1.25"[..1] == "1" && "1.25"[2..] == "25";
    assert !IsDigits("x5") by { assert !IsDigit("x5"[0]); }
  }

  /** One setting of the printer test: the parsed input when, trimmed, it is
      not empty and matches `numRegex`; the default otherwise. */
  function Override(input: string, default: Num): Num {
    var t := Trim(input);
    if t != "" && NumLiteral(t) then ParseFloat(t) else default
  }

  /** An input that overrides gives a number; one that does not keeps the
      default. */
  lemma OverrideCases(input: string, default: Num)
    ensures var t := Trim(input);
      && (t != "" && NumLiteral(t) ==> Override(input, default) == ParseFloat(t) && ParseFloat(t).Finite?)
      && (!(t != "" && NumLiteral(t)) ==> Override(input, default) == default)
  {
    var t := Trim(input);
    if t != "" && NumLiteral(t) {
      NumLiteralParse(t);
    }
  }

  /** A blank input keeps the default. */
  lemma BlankKeepsDefault(input: string, default: Num)
    requires AllSpace(input)
    ensures Override(input, default) == default
  {
    TrimEmptyIffAllSpace(input);
  }

  class LoginScreen {
    var loading: bool
    var email: string
    var password: string
    var printerDpi: string
    var printerWidthMM: string
    var printerNbrCharactersPerLine: string
    var expenseAmount: string

    /** Alerts shown, the calls of `login` and of `onLoginSuccess`, and the
        calls made to the printer. */
    var notices: seq<Notice>
    var loginCalls: seq<Credentials>
    var loggedIn: seq<LoginData>
    var jobs: seq<PrintJob>

    /** The four settings inputs are as before. */
    twostate predicate SettingsUnchanged()
      reads this
    {
      && printerDpi == old(printerDpi) && printerWidthMM == old(printerWidthMM)
      && printerNbrCharactersPerLine == old(printerNbrCharactersPerLine) && expenseAmount == old(expenseAmount)
    }

    constructor()
      ensures !loading && email == "" && password == ""
      ensures printerDpi == "" && printerWidthMM == "" && printerNbrCharactersPerLine == "" && expenseAmount == ""
      ensures notices == [] && loginCalls == [] && loggedIn == [] && jobs == []
    {
      loading, email, password := false, "", "";
      printerDpi, printerWidthMM, printerNbrCharactersPerLine, expenseAmount := "", "", "", "";
      notices, loginCalls, loggedIn, jobs := [], [], [], [];
    }

    method OnEmailTextChange(text: string)
      modifies this
      ensures email == text && password == old(password) && loading == old(loading)
      ensures SettingsUnchanged()
      ensures notices == old(notices) && loginCalls == old(loginCalls) && loggedIn == old(loggedIn) && jobs == old(jobs)
    {
      email := text;
    }

    method OnPasswordTextChange(text: string)
      modifies this
      ensures password == text && email == old(email) && loading == old(loading)
      ensures SettingsUnchanged()
      ensures notices == old(notices) && loginCalls == old(loginCalls) && loggedIn == old(loggedIn) && jobs == old(jobs)
    {
      password := text;
    }

    /** The four settings inputs, which set their fields directly. */
    method OnPrinterDpiChanged(text: string)
      modifies this
      ensures printerDpi == text && email == old(email) && password == old(password) && loading == old(loading)
      ensures printerWidthMM == old(printerWidthMM) && printerNbrCharactersPerLine == old(printerNbrCharactersPerLine)
      ensures expenseAmount == old(expenseAmount)
      ensures notices == old(notices) && loginCalls == old(loginCalls) && loggedIn == old(loggedIn) && jobs == old(jobs)
    {
      printerDpi := text;
    }

    method OnPrinterWidthMMChanged(text: string)
      modifies this
      ensures printerWidthMM == text && email == old(email) && password == old(password) && loading == old(loading)
      ensures printerDpi == old(printerDpi) && printerNbrCharactersPerLine == old(printerNbrCharactersPerLine)
      ensures expenseAmount == old(expenseAmount)
      ensures notices == old(notices) && loginCalls == old(loginCalls) && loggedIn == old(loggedIn) && jobs == old(jobs)
    {
      printerWidthMM := text;
    }

    method OnPrinterNbrCharactersPerLineChanged(text: string)
      modifies this
      ensures printerNbrCharactersPerLine == text && email == old(email) && password == old(password)
      ensures printerDpi == old(printerDpi) && printerWidthMM == old(printerWidthMM)
      ensures expenseAmount == old(expenseAmount) && loading == old(loading)
      ensures notices == old(notices) && loginCalls == old(loginCalls) && loggedIn == old(loggedIn) && jobs == old(jobs)
    {
      printerNbrCharactersPerLine := text;
    }

    method OnExpenseAmountChanged(text: string)
      modifies this
      ensures expenseAmount == text && email == old(email) && password == old(password) && loading == old(loading)
      ensures printerDpi == old(printerDpi) && printerWidthMM == old(printerWidthMM)
      ensures printerNbrCharactersPerLine == old(printerNbrCharactersPerLine)
      ensures notices == old(notices) && loginCalls == old(loginCalls) && loggedIn == old(loggedIn) && jobs == old(jobs)
    {
      expenseAmount := text;
    }

    /** `onLoginPressed`: after the checks, `login` is called once with the
        trimmed credentials; the record it gives is handed to
        `onLoginSuccess` (the loader stays), a failure is alerted. */
    method OnLoginPressed(response: LoginResponse) returns (checked: Result<Credentials, Notice>)
      modifies this
      ensures checked == CheckLogin(email, password)
      ensures email == old(email) && password == old(password) && jobs == old(jobs) && SettingsUnchanged()
      ensures checked.Failure? ==>
        && notices == old(notices) + [checked.error] && loginCalls == old(loginCalls)
        && loggedIn == old(loggedIn) && loading == old(loading)
      ensures checked.Success? ==> loginCalls == old(loginCalls) + [checked.value]
      ensures checked.Success? && response.LoginSucceeded? ==>
        loggedIn == old(loggedIn) + [response.data] && notices == old(notices) && loading
      ensures checked.Success? && response.LoginFailed? ==>
        && loggedIn == old(loggedIn) && notices == old(notices) + [Alert("Error", response.message)]
        && !loading
    {
      checked := CheckLogin(email, password);
      LoginChecked(checked, response);
    }

    method LoginChecked(checked: Result<Credentials, Notice>, response: LoginResponse)
      modifies this
      ensures email == old(email) && password == old(password) && jobs == old(jobs) && SettingsUnchanged()
      ensures checked.Failure? ==>
        && notices == old(notices) + [checked.error] && loginCalls == old(loginCalls)
        && loggedIn == old(loggedIn) && loading == old(loading)
      ensures checked.Success? ==> loginCalls == old(loginCalls) + [checked.value]
      ensures checked.Success? && response.LoginSucceeded? ==>
        loggedIn == old(loggedIn) + [response.data] && notices == old(notices) && loading
      ensures checked.Success? && response.LoginFailed? ==>
        && loggedIn == old(loggedIn) && notices == old(notices) + [Alert("Error", response.message)]
        && !loading
    {
      if checked.Failure? {
        notices := notices + [checked.error];
        return;
      }
      loading := true;
      loginCalls := loginCalls + [checked.value];
      match response
      case LoginSucceeded(data) =>
        loggedIn := loggedIn + [data];
      case LoginFailed(message) =>
        loading := false;
        notices := notices + [Alert("Error", message)];
    }

    /** `onPrintPressed`: a copy of the default configuration, each setting
        replaced in turn when its input overrides it, is printed with the
        test text; a printer error is alerted with its message. */
    method OnPrintPressed(defaultConfig: PrinterConfig, receiptNo: string, date: string, printer: PrintOutcome)
      returns (config: PrinterConfig)
      modifies this
      ensures config == PrinterConfig(
        Override(printerDpi, defaultConfig.printerDpi),
        Override(printerWidthMM, defaultConfig.printerWidthMM),
        Override(printerNbrCharactersPerLine, defaultConfig.printerNbrCharactersPerLine))
      ensures SettingsUnchanged() && email == old(email) && password == old(password)
      ensures jobs == old(jobs) + [PrintJob(LoginTestText(receiptNo, date, AmountText(expenseAmount)), config)]
      ensures notices == old(notices) + (if printer.PrintThrew? then [Alert("Error", printer.message)] else [])
      ensures loading == old(loading) && loginCalls == old(loginCalls) && loggedIn == old(loggedIn)
    {
      config := OverriddenConfig(defaultConfig);
      PrintTest(LoginTestText(receiptNo, date, AmountText(expenseAmount)), config, printer);
    }

    /** The configuration of `onPrintPressed`: the default, copied, then
        each setting overwritten in turn when its input overrides it. */
    method OverriddenConfig(defaultConfig: PrinterConfig) returns (config: PrinterConfig)
      ensures config == PrinterConfig(
        Override(printerDpi, defaultConfig.printerDpi),
        Override(printerWidthMM, defaultConfig.printerWidthMM),
        Override(printerNbrCharactersPerLine, defaultConfig.printerNbrCharactersPerLine))
    {
      var dpi, widthMM, charactersPerLine := Trim(printerDpi), Trim(printerWidthMM), Trim(printerNbrCharactersPerLine);
      config := defaultConfig;
      if dpi != "" && NumLiteral(dpi) {
        config := config.(printerDpi := ParseFloat(dpi));
      }
      if widthMM != "" && NumLiteral(widthMM) {
        config := config.(printerWidthMM := ParseFloat(widthMM));
      }
      if charactersPerLine != "" && NumLiteral(charactersPerLine) {
        config := config.(printerNbrCharactersPerLine := ParseFloat(charactersPerLine));
      }
    }

    method PrintTest(text: string, config: PrinterConfig, printer: PrintOutcome)
      modifies this
      ensures SettingsUnchanged() && email == old(email) && password == old(password)
      ensures jobs == old(jobs) + [PrintJob(text, config)]
      ensures notices == old(notices) + (if printer.PrintThrew? then [Alert("Error", printer.message)] else [])
      ensures loading == old(loading) && loginCalls == old(loginCalls) && loggedIn == old(loggedIn)
    {
      jobs := jobs + [PrintJob(text, config)];
      if printer.PrintThrew? {
        notices := notices + [Alert("Error", printer.message)];
      }
    }

    /** `onClearAllPressed`: the four printer inputs are emptied. */
    method OnClearAllPressed()
      modifies this
      ensures printerDpi == "" && printerWidthMM == "" && printerNbrCharactersPerLine == "" && expenseAmount == ""
      ensures email == old(email) && password == old(password) && loading == old(loading)
      ensures notices == old(notices) && loginCalls == old(loginCalls) && loggedIn == old(loggedIn) && jobs == old(jobs)
    {
      printerDpi, printerWidthMM, printerNbrCharactersPerLine, expenseAmount := "", "", "", "";
    }
  }

  /** After Clear All the printer test uses the default configuration and
      the amount 100. */
  lemma ClearedPrintUsesDefaults(defaultConfig: PrinterConfig)
    ensures PrinterConfig(Override("", defaultConfig.printerDpi), Override("", defaultConfig.printerWidthMM),
                          Override("", defaultConfig.printerNbrCharactersPerLine)) == defaultConfig
    ensures AmountText("") == "100"
  {
    BlankKeepsDefault("", defaultConfig.printerDpi);
    BlankKeepsDefault("", defaultConfig.printerWidthMM);
    BlankKeepsDefault("", defaultConfig.printerNbrCharactersPerLine);
    TrimEmptyIffAllSpace("");
  }
}
