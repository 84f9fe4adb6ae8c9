/** The hard-coded test receipt that `src/screens/PrinterConfig.tsx` and
    `src/screens/Login.tsx` both print to try the printer: a fixed merchant
    and customer, 32-character dividers, and the entered amount (100 when
    blank). The two screens differ only in the amount's caption and the
    lines around the signature. */
module TestPrint {
  import opened Text
  import opened Utils
  import opened ReceiptPrinter

  /** `expenseAmount.trim() || 100` as it appears in the text. */
  function AmountText(expenseAmount: string): (r: string)
    ensures Trim(expenseAmount) == "" ==> r == "100"
    ensures Trim(expenseAmount) != "" ==> r == Trim(expenseAmount)
  {
    var t := Trim(expenseAmount);
    if t == "" then "100" else t
  }

  /** The dividers of the test print are 32 characters wide. */
  const WideDivider := Center(Repeat('=', 32))
  const WideDashedDivider := Left(Repeat('-', 32))
  const ServiceLine := Left("For questions or inquiries " + "call customer service : +5999 767-1563")

  function TestHeaderLines(receiptNo: string, date: string): seq<string> {
    [Title, Blank, Center("Receipt N.O: " + receiptNo), Center(date), Blank, WideDivider, Blank]
  }

  /** `Sale Amount :[R]NAFL …` or `Expense Amount :[R]NAFL …` */
  function TestAmountLine(caption: string, amount: string): string {
    Left(caption + " Amount :" + Right("NAFL " + amount))
  }

  /** The fixed merchant and customer. */
  function TestPartyLines(): seq<string> {
    [MerchantTitle, Left("Jake Gill"), CustomerTitle, Left("Max" + " " + "Norton"), Left("123")]
  }

  /** The signature box of the printer settings screen, with a dashed line. */
  function ConfigClosingLines(): seq<string> {
    [Blank, Blank, SignatureTitle, Blank, Blank, WideDashedDivider, Blank, ThankYou, ServiceLine]
  }

  /** The signature box of the login screen, with four blank lines. */
  function LoginClosingLines(): seq<string> {
    [Blank, SignatureTitle, Blank, Blank, Blank, Blank, ThankYou, ServiceLine]
  }

  function TestLines(receiptNo: string, date: string, caption: string, amount: string, closing: seq<string>): seq<string> {
    TestHeaderLines(receiptNo, date)
    + [TestAmountLine(caption, amount), Blank, WideDivider, Blank]
    + TestPartyLines()
    + closing
  }

  /** The test text of the printer settings screen. */
  function ConfigTestText(receiptNo: string, date: string, amount: string): string {
    JoinLines(TestLines(receiptNo, date, "Sale", amount, ConfigClosingLines()))
  }

  /** The test text of the login screen. */
  function LoginTestText(receiptNo: string, date: string, amount: string): string {
    JoinLines(TestLines(receiptNo, date, "Expense", amount, LoginClosingLines()))
  }

  /** One call to the printer with a text and a configuration. */
  datatype PrintJob = PrintJob(text: string, config: PrinterConfig)

  lemma DividersSingleLine()
    ensures NoNewline(WideDivider) && NoNewline(WideDashedDivider)
  {
    TagSingleLine(Repeat('=', 32));
    TagSingleLine(Repeat('-', 32));
  }

  lemma TestConstantsSingleLine()
    ensures NoNewline(ServiceLine)
    ensures AllNoNewline(TestPartyLines()) && AllNoNewline(ConfigClosingLines()) && AllNoNewline(LoginClosingLines())
  {
    DividerSingleLine();
    TitlesSingleLine();
    ClosingSingleLine();
    DividersSingleLine();
    TagSingleLine("For questions or inquiries " + "call customer service : +5999 767-1563");
    TagSingleLine("Jake Gill");
    TagSingleLine("Max" + " " + "Norton");
    TagSingleLine("123");
  }

  lemma TestHeaderSingleLine(receiptNo: string, date: string)
    requires NoNewline(receiptNo) && NoNewline(date)
    ensures AllNoNewline(TestHeaderLines(receiptNo, date))
  {
    DividersSingleLine();
    TitleSingleLine();
    TagSingleLine("");
    NoNewlineConcat("Receipt N.O: ", receiptNo);
    TagSingleLine("Receipt N.O: " + receiptNo);
    TagSingleLine(date);
  }

  lemma TestMiddleSingleLine(caption: string, amount: string)
    requires NoNewline(caption) && NoNewline(amount)
    ensures AllNoNewline([TestAmountLine(caption, amount), Blank, WideDivider, Blank])
  {
    DividersSingleLine();
    TagSingleLine("");
    NoNewlineConcat(caption, " Amount :");
    LabelledAmountSingleLine(caption + " Amount :", amount);
  }

  lemma TestLinesSplit(receiptNo: string, date: string, caption: string, amount: string, closing: seq<string>)
    requires NoNewline(receiptNo) && NoNewline(date) && NoNewline(caption) && NoNewline(amount)
    requires AllNoNewline(closing)
    ensures var lines := TestLines(receiptNo, date, caption, amount, closing);
      && SplitLines(JoinLines(lines)) == lines
      && |lines| == 16 + |closing|
      && lines[..7] == TestHeaderLines(receiptNo, date)
      && lines[7] == TestAmountLine(caption, amount)
      && lines[11..16] == TestPartyLines()
      && lines[16..] == closing
  {
    var head, mid := TestHeaderLines(receiptNo, date), [TestAmountLine(caption, amount), Blank, WideDivider, Blank];
    var party := TestPartyLines();
    TestConstantsSingleLine();
    TestHeaderSingleLine(receiptNo, date);
    TestMiddleSingleLine(caption, amount);
    BlocksSingleLine(head, mid, party, closing);
    SplitJoinLines(head + mid + party + closing);
    BlocksLayout(head, mid, party, closing);
  }

  /** The settings screen's test print splits back into its 25 lines; the
      eighth is the `Sale` amount line. A blank amount prints as 100. */
  lemma ConfigTestTextLines(receiptNo: string, date: string, expenseAmount: string)
    requires NoNewline(receiptNo) && NoNewline(date) && NoNewline(expenseAmount)
    ensures var lines := SplitLines(ConfigTestText(receiptNo, date, AmountText(expenseAmount)));
      && |lines| == 25
      && lines[7] == TestAmountLine("Sale", AmountText(expenseAmount))
      && (Trim(expenseAmount) == "" ==> lines[7] == TestAmountLine("Sale", "100"))
      && lines[16..] == ConfigClosingLines()
  {
    AmountSingleLine(expenseAmount);
    TestConstantsSingleLine();
    TestLinesSplit(receiptNo, date, "Sale", AmountText(expenseAmount), ConfigClosingLines());
  }

  /** The login screen's test print splits back into its 24 lines; the
      eighth is the `Expense` amount line. A blank amount prints as 100. */
  lemma LoginTestTextLines(receiptNo: string, date: string, expenseAmount: string)
    requires NoNewline(receiptNo) && NoNewline(date) && NoNewline(expenseAmount)
    ensures var lines := SplitLines(LoginTestText(receiptNo, date, AmountText(expenseAmount)));
      && |lines| == 24
      && lines[7] == TestAmountLine("Expense", AmountText(expenseAmount))
      && (Trim(expenseAmount) == "" ==> lines[7] == TestAmountLine("Expense", "100"))
      && lines[16..] == LoginClosingLines()
  {
    AmountSingleLine(expenseAmount);
    TestConstantsSingleLine();
    TestLinesSplit(receiptNo, date, "Expense", AmountText(expenseAmount), LoginClosingLines());
  }

  /** The amount shown is part of the input, or `100`. */
  lemma AmountSingleLine(expenseAmount: string)
    requires NoNewline(expenseAmount)
    ensures NoNewline(AmountText(expenseAmount))
  {
    TrimNoNewline(expenseAmount);
  }
}
