/** The receipt texts of `src/core/ReceiptPrinter.ts`: the sale/return
    receipt, the daily report and the balance receipt, in the printer's
    bracket-tag markup (`[L]`, `[C]`, `[R]` align a line). A text is its lines
    joined by `\n`. The receipt number (`Math.random`), the date (`moment`)
    and the rendering of numbers (`${x}`) are parameters. */
module ReceiptPrinter {
  import opened Text
  import opened Numbers
  import opened Wrappers

  datatype TransactionType = Expense | Retour | Other

  datatype Client = Client(id: string, name: string, code: string)

  /** A transaction of the day as the backend reports it: amounts are JSON
      numbers, hence finite; the time is the instant `new Date(dateTime)`
      denotes, in milliseconds. */
  datatype DailyTransaction = DailyTransaction(
    clientId: string,
    dateTime: int,
    amountUser: real,
    transactionType: TransactionType)

  // ---------------------------------------------------------------------
  // The printer's markup: alignment tags open a line or a column, font tags
  // enclose text.

  function Left(t: string): string { "[L]" + t }

  function Center(t: string): string { "[C]" + t }

  function Right(t: string): string { "[R]" + t }

  function Font(size: string, t: string): string { "<font size='" + size + "'>" + t + "</font>" }

  function Underline(t: string): string { "<u>" + t + "</u>" }

  function Bold(t: string): string { "<b>" + t + "</b>" }

  /** `n` copies of `c`. */
  function Repeat(c: char, n: nat): (r: string)
    ensures |r| == n && forall i | 0 <= i < n :: r[i] == c
  {
    seq(n, _ => c)
  }

  const Title := Center(Underline(Font("big", "Norsa N.V.")))
  const Blank := Left("")
  const Divider := Center(Repeat('=', 30))
  const DashedDivider := Center(Repeat('-', 30))
  const MerchantTitle := Left(Font("tall", "Merchant :"))
  const CustomerTitle := Left(Font("tall", "Customer :"))
  const SignatureTitle := Left(Font("tall", "Signature :"))
  const ThankYou := Left("Thank you for your purchase")
  const Inquiries := Left("For questions or inquiries " + "call customer service:")
  const Phone := Left("+5999 767-1563")

  /** The seven lines every receipt starts with. */
  function HeaderLines(receiptNo: string, date: string): seq<string> {
    [Title, Blank, Center("Receipt N.O: " + receiptNo), Center(date), Blank, Divider, Blank]
  }

  /** Signature box and closing lines, shared by all three receipts. */
  function SignatureLines(): seq<string> {
    [Blank, Blank, SignatureTitle, Blank, Blank, DashedDivider, Blank, ThankYou, Inquiries, Phone]
  }

  /** Merchant name, customer name and customer code, each on its own line. */
  function PartyLines(merchantName: string, customer: Client): seq<string> {
    [MerchantTitle, Left(merchantName), CustomerTitle, Left(customer.name), Left(customer.code)]
  }

  /** `Sale` for an expense, `Retour` for anything else, including a missing
      payment type. */
  function AmountLabel(paymentType: Option<TransactionType>): string {
    if paymentType == Some(Expense) then "Sale" else "Retour"
  }

  function AmountLine(price: Num, paymentType: Option<TransactionType>, show: Num -> string): string {
    Left(AmountLabel(paymentType) + " Amount :" + Right("NAFL " + show(price)))
  }

  function ReceiptLines(
    price: Num, customer: Client, merchantName: string, paymentType: Option<TransactionType>,
    receiptNo: string, date: string, show: Num -> string): seq<string>
  {
    HeaderLines(receiptNo, date)
    + [AmountLine(price, paymentType, show), Blank, Divider, Blank]
    + PartyLines(merchantName, customer)
    + SignatureLines()
  }

  /** `printReceipt`: the text sent to the printer. */
  function ReceiptText(
    price: Num, customer: Client, merchantName: string, paymentType: Option<TransactionType>,
    receiptNo: string, date: string, show: Num -> string): string
  {
    JoinLines(ReceiptLines(price, customer, merchantName, paymentType, receiptNo, date, show))
  }

  function BalanceLine(balance: Num, show: Num -> string): string {
    Left("Balance :" + Right("NAFL " + show(balance)))
  }

  function BalanceLines(
    customer: Client, merchantName: string, balance: Num,
    receiptNo: string, date: string, show: Num -> string): seq<string>
  {
    HeaderLines(receiptNo, date)
    + [BalanceLine(balance, show), Blank, Divider, Blank]
    + PartyLines(merchantName, customer)
    + SignatureLines()
  }

  /** `printBalance`: the text sent to the printer. */
  function BalanceText(
    customer: Client, merchantName: string, balance: Num,
    receiptNo: string, date: string, show: Num -> string): string
  {
    JoinLines(BalanceLines(customer, merchantName, balance, receiptNo, date, show))
  }

  // ---------------------------------------------------------------------
  // The daily report

  /** `-` before a return's amount, a space before anything else. */
  function Sign(t: TransactionType): string {
    if t == Retour then "-" else " "
  }

  function ExpenseLine(tx: DailyTransaction, show: Num -> string): string {
    Left(tx.clientId + ": " + Right("NAFL " + Sign(tx.transactionType) + show(Finite(tx.amountUser))))
  }

  /** One line per transaction, in the given order. */
  function ExpenseLines(txs: seq<DailyTransaction>, show: Num -> string): (r: seq<string>)
    ensures |r| == |txs|
  {
    if txs == [] then [] else ExpenseLines(txs[..|txs| - 1], show) + [ExpenseLine(txs[|txs| - 1], show)]
  }

  /** The first `reduce`: every transaction's line followed by a newline,
      accumulated from the left. */
  function ListOfExpenses(txs: seq<DailyTransaction>, show: Num -> string): string {
    if txs == [] then ""
    else ListOfExpenses(txs[..|txs| - 1], show) + ExpenseLine(txs[|txs| - 1], show) + "\n"
  }

  /** What a transaction does to the total: expenses add, everything else
      subtracts. */
  function Signed(tx: DailyTransaction): real {
    if tx.transactionType == Expense then tx.amountUser else -tx.amountUser
  }

  /** The second `reduce`, from 0, left to right. */
  function DailyTotal(txs: seq<DailyTransaction>): real {
    if txs == [] then 0.0 else DailyTotal(txs[..|txs| - 1]) + Signed(txs[|txs| - 1])
  }

  function ExpenseSum(txs: seq<DailyTransaction>): real {
    if txs == [] then 0.0
    else (if txs[0].transactionType == Expense then txs[0].amountUser else 0.0) + ExpenseSum(txs[1..])
  }

  function NonExpenseSum(txs: seq<DailyTransaction>): real {
    if txs == [] then 0.0
    else (if txs[0].transactionType == Expense then 0.0 else txs[0].amountUser) + NonExpenseSum(txs[1..])
  }

  function TotalLine(total: real, show: Num -> string): string {
    Right(Bold("Daily sales total :") + Right("NAFL " + show(Finite(total))))
  }

  function DailyTailLines(total: real, merchantName: string, show: Num -> string): seq<string> {
    [Blank, Divider, Blank, TotalLine(total, show), MerchantTitle, Left(merchantName)]
    + SignatureLines()
  }

  /** `printDailyReceipt`'s text for transactions already in the order the
      sort left them: head, list of expenses, tail. */
  function DailyReceiptText(
    txs: seq<DailyTransaction>, merchantName: string, receiptNo: string, date: string,
    show: Num -> string): string
  {
    JoinLines(HeaderLines(receiptNo, date)) + "\n"
    + ListOfExpenses(txs, show)
    + JoinLines(DailyTailLines(DailyTotal(txs), merchantName, show))
  }

  // ---------------------------------------------------------------------
  // Sorting by time

  predicate SortedByTime(txs: seq<DailyTransaction>) {
    forall i, j | 0 <= i < j < |txs| :: txs[i].dateTime <= txs[j].dateTime
  }

  /** `x` placed after every element of `t` that is not later than it. */
  function InsertByTime(t: seq<DailyTransaction>, x: DailyTransaction): seq<DailyTransaction> {
    if t == [] || t[|t| - 1].dateTime <= x.dateTime then t + [x]
    else InsertByTime(t[..|t| - 1], x) + [t[|t| - 1]]
  }

  /** Transactions in ascending time, equal times in their original order, as
      `Array.prototype.sort` with the comparator `a.dateTime - b.dateTime`
      leaves them. */
  function SortByTime(txs: seq<DailyTransaction>): seq<DailyTransaction> {
    if txs == [] then []
    else InsertByTime(SortByTime(txs[..|txs| - 1]), txs[|txs| - 1])
  }

  /** The sort in place, as the receipt builder applies it to the caller's
      array. */
  method SortByTimeInPlace(a: array<DailyTransaction>)
    modifies a
    ensures a[..] == SortByTime(old(a[..]))
  {
    ghost var s := a[..];
    var i := 0;
    while i < a.Length
      invariant 0 <= i <= a.Length
      invariant a[..i] == SortByTime(s[..i])
      invariant a[i..] == s[i..]
    {
      assert a[i] == s[i];
      InsertInPlace(a, i);
      assert s[..i + 1][..i] == s[..i];
      i := i + 1;
    }
    assert a[..] == a[..a.Length] && s == s[..a.Length];
  }

  /** Moves `a[i]` left past every later element of the prefix `a[..i]`. */
  method InsertInPlace(a: array<DailyTransaction>, i: int)
    requires 0 <= i < a.Length
    modifies a
    ensures a[..i + 1] == InsertByTime(old(a[..i]), old(a[i]))
    ensures a[i + 1..] == old(a[i + 1..])
  {
    ghost var t := a[..i];
    var x := a[i];
    var j := i;
    while j > 0 && a[j - 1].dateTime > x.dateTime
      invariant 0 <= j <= i
      invariant forall k | 0 <= k < j :: a[k] == t[k]
      invariant a[j] == x
      invariant forall k | j < k <= i :: a[k] == t[k - 1]
      invariant forall k | i < k < a.Length :: a[k] == old(a[k])
      invariant forall k | j <= k < i :: t[k].dateTime > x.dateTime
    {
      a[j - 1], a[j] := a[j], a[j - 1];
      j := j - 1;
    }
    InsertAt(t, j, x);
    InsertedLayout(a[..i + 1], t, j, x);
  }

  /** A sequence that holds `t[..j]`, then `x`, then the rest of `t`. */
  lemma InsertedLayout<T>(u: seq<T>, t: seq<T>, j: int, x: T)
    requires 0 <= j <= |t| && |u| == |t| + 1
    requires forall k | 0 <= k < j :: u[k] == t[k]
    requires u[j] == x
    requires forall k | j < k < |u| :: u[k] == t[k - 1]
    ensures u == t[..j] + [x] + t[j..]
  {
    var r := t[..j] + [x] + t[j..];
    forall k | 0 <= k < |u| ensures u[k] == r[k] {
      if k < j { assert r[k] == t[k]; }
      else if k > j { assert r[k] == t[k - 1]; }
    }
  }

  /** Inserting `x` puts it right after the last element not later than it. */
  lemma {:induction false} InsertAt(t: seq<DailyTransaction>, j: int, x: DailyTransaction)
    requires 0 <= j <= |t|
    requires j == 0 || t[j - 1].dateTime <= x.dateTime
    requires forall k | j <= k < |t| :: t[k].dateTime > x.dateTime
    ensures InsertByTime(t, x) == t[..j] + [x] + t[j..]
    decreases |t|
  {
    if j < |t| {
      var init, last := t[..|t| - 1], t[|t| - 1];
      InsertAt(init, j, x);
      assert init[..j] == t[..j];
      assert t[j..] == init[j..] + [last];
    } else {
      if j > 0 { assert t[j - 1] == t[|t| - 1]; }
      assert t[..j] == t && t[j..] == [];
    }
  }

  /** `printDailyReceipt`: sorts the caller's array in place, then builds the
      text from the sorted transactions. */
  method PrintDailyReceipt(
    dailyTransactions: array<DailyTransaction>, merchantName: string,
    receiptNo: string, date: string, show: Num -> string)
    returns (text: string)
    modifies dailyTransactions
    ensures dailyTransactions[..] == SortByTime(old(dailyTransactions[..]))
    ensures SortedByTime(dailyTransactions[..])
    ensures multiset(dailyTransactions[..]) == multiset(old(dailyTransactions[..]))
    ensures text == DailyReceiptText(dailyTransactions[..], merchantName, receiptNo, date, show)
  {
    SortByTimeInPlace(dailyTransactions);
    SortByTimeSorted(old(dailyTransactions[..]));
    SortByTimePermutes(old(dailyTransactions[..]));
    text := DailyReceiptText(dailyTransactions[..], merchantName, receiptNo, date, show);
  }

  // ---------------------------------------------------------------------
  // Properties of the sort

  lemma {:induction false} InsertPermutes(t: seq<DailyTransaction>, x: DailyTransaction)
    ensures multiset(InsertByTime(t, x)) == multiset(t) + multiset{x}
  {
    if t != [] && t[|t| - 1].dateTime > x.dateTime {
      InsertPermutes(t[..|t| - 1], x);
      assert t == t[..|t| - 1] + [t[|t| - 1]];
    }
  }

  lemma {:induction false} InsertSorted(t: seq<DailyTransaction>, x: DailyTransaction)
    requires SortedByTime(t)
    ensures SortedByTime(InsertByTime(t, x))
  {
    if t != [] && t[|t| - 1].dateTime > x.dateTime {
      var init, last := t[..|t| - 1], t[|t| - 1];
      InsertSorted(init, x);
      InsertPermutes(init, x);
      var r := InsertByTime(init, x);
      forall k | 0 <= k < |r| ensures r[k].dateTime <= last.dateTime {
        assert r[k] in multiset(r);
        if r[k] != x {
          assert r[k] in multiset(init);
          var m :| 0 <= m < |init| && init[m] == r[k];
          assert t[m] == init[m];
        }
      }
    }
  }

  /** The sort's result is in ascending time. */
  lemma {:induction false} SortByTimeSorted(txs: seq<DailyTransaction>)
    ensures SortedByTime(SortByTime(txs))
  {
    if txs != [] {
      SortByTimeSorted(txs[..|txs| - 1]);
      InsertSorted(SortByTime(txs[..|txs| - 1]), txs[|txs| - 1]);
    }
  }

  /** The sort's result holds the same transactions, as often as the input. */
  lemma {:induction false} SortByTimePermutes(txs: seq<DailyTransaction>)
    ensures multiset(SortByTime(txs)) == multiset(txs)
  {
    if txs != [] {
      SortByTimePermutes(txs[..|txs| - 1]);
      InsertPermutes(SortByTime(txs[..|txs| - 1]), txs[|txs| - 1]);
      assert txs == txs[..|txs| - 1] + [txs[|txs| - 1]];
    }
  }

  // ---------------------------------------------------------------------
  // Properties of the total

  /** The total is the sum of the expenses minus the sum of everything else. */
  lemma {:induction false} DailyTotalIsDifference(txs: seq<DailyTransaction>)
    ensures DailyTotal(txs) == ExpenseSum(txs) - NonExpenseSum(txs)
  {
    if txs != [] {
      var init := txs[..|txs| - 1];
      DailyTotalIsDifference(init);
      SumsOfAppend(init, txs[|txs| - 1]);
      assert txs == init + [txs[|txs| - 1]];
    }
  }

  lemma {:induction false} SumsOfAppend(txs: seq<DailyTransaction>, x: DailyTransaction)
    ensures ExpenseSum(txs + [x]) == ExpenseSum(txs) + (if x.transactionType == Expense then x.amountUser else 0.0)
    ensures NonExpenseSum(txs + [x]) == NonExpenseSum(txs) + (if x.transactionType == Expense then 0.0 else x.amountUser)
  {
    if txs != [] {
      assert (txs + [x])[1..] == txs[1..] + [x];
      SumsOfAppend(txs[1..], x);
    }
  }

  /** Taking one transaction out of the list takes its signed amount out of
      the total. */
  lemma {:induction false} DailyTotalRemove(txs: seq<DailyTransaction>, k: int)
    requires 0 <= k < |txs|
    ensures DailyTotal(txs) == Signed(txs[k]) + DailyTotal(txs[..k] + txs[k + 1..])
  {
    var n := |txs|;
    if k == n - 1 {
      assert txs[..k] + txs[k + 1..] == txs[..n - 1];
    } else {
      var init := txs[..n - 1];
      DailyTotalRemove(init, k);
      var rest := init[..k] + init[k + 1..];
      assert txs[..k] + txs[k + 1..] == rest + [txs[n - 1]];
      assert (rest + [txs[n - 1]])[..|rest|] == rest;
    }
  }

  /** The total does not depend on the order of the transactions. */
  lemma {:induction false} DailyTotalPermutation(s: seq<DailyTransaction>, t: seq<DailyTransaction>)
    requires multiset(s) == multiset(t)
    ensures DailyTotal(s) == DailyTotal(t)
    decreases |s|
  {
    if s == [] {
      assert |t| == |multiset(t)| == 0;
    } else {
      var n := |s|;
      var last := s[n - 1];
      assert last in multiset(t) by { assert last in multiset(s); }
      var k :| 0 <= k < |t| && t[k] == last;
      var init, rest := s[..n - 1] + s[n..], t[..k] + t[k + 1..];
      MultisetRemoveBoth(s, n - 1, t, k);
      DailyTotalPermutation(init, rest);
      DailyTotalRemoveBoth(s, n - 1, t, k);
    }
  }

  /** Removing the same transaction from two permutations of each other
      leaves permutations of each other. */
  lemma MultisetRemoveBoth(s: seq<DailyTransaction>, i: int, t: seq<DailyTransaction>, k: int)
    requires 0 <= i < |s| && 0 <= k < |t| && s[i] == t[k] && multiset(s) == multiset(t)
    ensures multiset(s[..i] + s[i + 1..]) == multiset(t[..k] + t[k + 1..])
  {
    MultisetRemove(s, i);
    MultisetRemove(t, k);
  }

  /** Removing the same transaction from two lists with equal remaining
      totals leaves their totals equal. */
  lemma DailyTotalRemoveBoth(s: seq<DailyTransaction>, i: int, t: seq<DailyTransaction>, k: int)
    requires 0 <= i < |s| && 0 <= k < |t| && s[i] == t[k]
    requires DailyTotal(s[..i] + s[i + 1..]) == DailyTotal(t[..k] + t[k + 1..])
    ensures DailyTotal(s) == DailyTotal(t)
  {
    DailyTotalRemove(s, i);
    DailyTotalRemove(t, k);
  }

  lemma MultisetRemove<T>(t: seq<T>, k: int)
    requires 0 <= k < |t|
    ensures multiset(t[..k] + t[k + 1..]) == multiset(t) - multiset{t[k]}
  {
    assert t == t[..k] + [t[k]] + t[k + 1..];
  }

  /** Sorting first, as the report does, leaves the total as it was. */
  lemma DailyTotalOfSorted(txs: seq<DailyTransaction>)
    ensures DailyTotal(SortByTime(txs)) == DailyTotal(txs)
    ensures DailyTotal(SortByTime(txs)) == ExpenseSum(txs) - NonExpenseSum(txs)
  {
    SortByTimePermutes(txs);
    DailyTotalPermutation(SortByTime(txs), txs);
    DailyTotalIsDifference(txs);
  }

  // ---------------------------------------------------------------------
  // Line structure of the texts

  /** No rendered number spans a line. */
  ghost predicate SingleLine(show: Num -> string) {
    forall n: Num :: NoNewline(show(n))
  }

  /** An alignment tag adds no line break to single-line text. */
  lemma TagSingleLine(t: string)
    requires NoNewline(t)
    ensures NoNewline(Left(t)) && NoNewline(Center(t)) && NoNewline(Right(t))
  {
    NoNewlineConcat("[L]", t);
    NoNewlineConcat("[C]", t);
    NoNewlineConcat("[R]", t);
  }

  /** Neither do the font, underline and bold tags. */
  lemma EnclosedSingleLine(size: string, t: string)
    requires NoNewline(size) && NoNewline(t)
    ensures NoNewline(Font(size, t)) && NoNewline(Underline(t)) && NoNewline(Bold(t))
  {
    NoNewlineConcat("<font size='", size);
    NoNewlineConcat("<font size='" + size, "'>");
    NoNewlineConcat("<font size='" + size + "'>", t);
    NoNewlineConcat("<font size='" + size + "'>" + t, "</font>");
    NoNewlineConcat("<u>", t);
    NoNewlineConcat("<u>" + t, "</u>");
    NoNewlineConcat("<b>", t);
    NoNewlineConcat("<b>" + t, "</b>");
  }

  lemma TitleSingleLine()
    ensures NoNewline(Title)
  {
    EnclosedSingleLine("big", "Norsa N.V.");
    EnclosedSingleLine("", Font("big", "Norsa N.V."));
    TagSingleLine(Underline(Font("big", "Norsa N.V.")));
  }

  lemma DividerSingleLine()
    ensures NoNewline(Blank) && NoNewline(Divider) && NoNewline(DashedDivider)
  {
    TagSingleLine("");
    TagSingleLine(Repeat('=', 30));
    TagSingleLine(Repeat('-', 30));
  }

  /** A left-aligned caption in the tall font is one line. */
  lemma TallSingleLine(caption: string)
    requires NoNewline(caption)
    ensures NoNewline(Left(Font("tall", caption)))
  {
    EnclosedSingleLine("tall", caption);
    TagSingleLine(Font("tall", caption));
  }

  lemma TitlesSingleLine()
    ensures NoNewline(MerchantTitle) && NoNewline(CustomerTitle) && NoNewline(SignatureTitle)
  {
    TallSingleLine("Merchant :");
    TallSingleLine("Customer :");
    TallSingleLine("Signature :");
  }

  lemma ClosingSingleLine()
    ensures NoNewline(ThankYou) && NoNewline(Inquiries) && NoNewline(Phone)
  {
    TagSingleLine("Thank you for your purchase");
    TagSingleLine("For questions or inquiries " + "call customer service:");
    TagSingleLine("+5999 767-1563");
  }

  lemma HeaderSingleLine(receiptNo: string, date: string)
    requires NoNewline(receiptNo) && NoNewline(date)
    ensures AllNoNewline(HeaderLines(receiptNo, date))
  {
    TitleSingleLine();
    DividerSingleLine();
    NoNewlineConcat("Receipt N.O: ", receiptNo);
    TagSingleLine("Receipt N.O: " + receiptNo);
    TagSingleLine(date);
  }

  lemma SignatureSingleLine()
    ensures AllNoNewline(SignatureLines())
  {
    DividerSingleLine();
    TitlesSingleLine();
    ClosingSingleLine();
  }

  lemma PartySingleLine(merchantName: string, customer: Client)
    requires NoNewline(merchantName) && NoNewline(customer.name) && NoNewline(customer.code)
    ensures AllNoNewline(PartyLines(merchantName, customer))
  {
    TitlesSingleLine();
    TagSingleLine(merchantName);
    TagSingleLine(customer.name);
    TagSingleLine(customer.code);
  }

  /** `label :[R]NAFL amount` after a left tag is one line. */
  lemma LabelledAmountSingleLine(caption: string, amount: string)
    requires NoNewline(caption) && NoNewline(amount)
    ensures NoNewline(Left(caption + Right("NAFL " + amount)))
  {
    NoNewlineConcat("NAFL ", amount);
    TagSingleLine("NAFL " + amount);
    NoNewlineConcat(caption, Right("NAFL " + amount));
    TagSingleLine(caption + Right("NAFL " + amount));
  }

  /** The lines between the header and the party block of the receipt and of
      the balance receipt. */
  lemma MiddleSingleLine(line: string)
    requires NoNewline(line)
    ensures AllNoNewline([line, Blank, Divider, Blank])
  {
    DividerSingleLine();
  }

  /** Four blocks of single lines make single lines. */
  lemma BlocksSingleLine(a: seq<string>, b: seq<string>, c: seq<string>, d: seq<string>)
    requires AllNoNewline(a) && AllNoNewline(b) && AllNoNewline(c) && AllNoNewline(d)
    ensures AllNoNewline(a + b + c + d)
  {
    AllNoNewlineConcat(a, b);
    AllNoNewlineConcat(a + b, c);
    AllNoNewlineConcat(a + b + c, d);
  }

  /** The receipt of `printReceipt` splits back into its 26 lines: the
      amount line (`Sale` exactly for an expense) is the eighth, merchant
      name, customer name and customer code follow on lines of their own. */
  lemma ReceiptTextLines(
    price: Num, customer: Client, merchantName: string, paymentType: Option<TransactionType>,
    receiptNo: string, date: string, show: Num -> string)
    requires NoNewline(receiptNo) && NoNewline(date) && NoNewline(show(price))
    requires NoNewline(merchantName) && NoNewline(customer.name) && NoNewline(customer.code)
    ensures var lines := ReceiptLines(price, customer, merchantName, paymentType, receiptNo, date, show);
      && SplitLines(ReceiptText(price, customer, merchantName, paymentType, receiptNo, date, show)) == lines
      && |lines| == 26
      && lines[..7] == HeaderLines(receiptNo, date)
      && lines[7] == AmountLine(price, paymentType, show)
      && lines[11..16] == PartyLines(merchantName, customer)
      && lines[16..] == SignatureLines()
  {
    var head, mid := HeaderLines(receiptNo, date), [AmountLine(price, paymentType, show), Blank, Divider, Blank];
    var party, sig := PartyLines(merchantName, customer), SignatureLines();
    HeaderSingleLine(receiptNo, date);
    LabelledAmountSingleLine(AmountLabel(paymentType) + " Amount :", show(price)) by {
      NoNewlineConcat(AmountLabel(paymentType), " Amount :");
    }
    MiddleSingleLine(AmountLine(price, paymentType, show));
    PartySingleLine(merchantName, customer);
    SignatureSingleLine();
    BlocksSingleLine(head, mid, party, sig);
    SplitJoinLines(head + mid + party + sig);
    BlocksLayout(head, mid, party, sig);
  }

  lemma AppendAssoc<T>(a: seq<T>, b: seq<T>, c: seq<T>)
    ensures a + (b + c) == a + b + c
  {
  }

  /** Where each of four consecutive blocks sits. */
  lemma BlocksLayout<T>(a: seq<T>, b: seq<T>, c: seq<T>, d: seq<T>)
    ensures var u := a + b + c + d;
      && u[..|a|] == a
      && u[|a|..|a| + |b|] == b
      && u[|a| + |b|..|a| + |b| + |c|] == c
      && u[|a| + |b| + |c|..] == d
  {
  }

  /** The receipt of `printBalance` splits back into its 26 lines: the same
      header, party block and signature block around the balance line. */
  lemma BalanceTextLines(
    customer: Client, merchantName: string, balance: Num,
    receiptNo: string, date: string, show: Num -> string)
    requires NoNewline(receiptNo) && NoNewline(date) && NoNewline(show(balance))
    requires NoNewline(merchantName) && NoNewline(customer.name) && NoNewline(customer.code)
    ensures var lines := BalanceLines(customer, merchantName, balance, receiptNo, date, show);
      && SplitLines(BalanceText(customer, merchantName, balance, receiptNo, date, show)) == lines
      && |lines| == 26
      && lines[..7] == HeaderLines(receiptNo, date)
      && lines[7] == BalanceLine(balance, show)
      && lines[11..16] == PartyLines(merchantName, customer)
      && lines[16..] == SignatureLines()
  {
    var head, mid := HeaderLines(receiptNo, date), [BalanceLine(balance, show), Blank, Divider, Blank];
    var party, sig := PartyLines(merchantName, customer), SignatureLines();
    HeaderSingleLine(receiptNo, date);
    LabelledAmountSingleLine("Balance :", show(balance));
    MiddleSingleLine(BalanceLine(balance, show));
    PartySingleLine(merchantName, customer);
    SignatureSingleLine();
    BlocksSingleLine(head, mid, party, sig);
    SplitJoinLines(head + mid + party + sig);
    BlocksLayout(head, mid, party, sig);
  }

  /** The `i`-th line of the list is the `i`-th transaction's. */
  lemma {:induction false} ExpenseLinesAt(txs: seq<DailyTransaction>, show: Num -> string, i: int)
    requires 0 <= i < |txs|
    ensures ExpenseLines(txs, show)[i] == ExpenseLine(txs[i], show)
  {
    var init := txs[..|txs| - 1];
    if i < |init| {
      ExpenseLinesAt(init, show, i);
      assert ExpenseLines(txs, show)[i] == ExpenseLines(init, show)[i];
    }
  }

  /** The accumulated list followed by further lines is the list's lines
      joined with them. */
  lemma {:induction false} ListOfExpensesJoin(txs: seq<DailyTransaction>, tail: seq<string>, show: Num -> string)
    requires |tail| > 0
    ensures ListOfExpenses(txs, show) + JoinLines(tail) == JoinLines(ExpenseLines(txs, show) + tail)
  {
    if txs == [] {
      assert ExpenseLines(txs, show) + tail == tail;
    } else {
      var init, last := txs[..|txs| - 1], txs[|txs| - 1];
      var line := ExpenseLine(last, show);
      var tail' := [line] + tail;
      assert JoinLines(tail') == line + "\n" + JoinLines(tail) by {
        assert tail'[1..] == tail;
      }
      ListOfExpensesJoin(init, tail', show);
      assert ExpenseLines(init, show) + tail' == ExpenseLines(txs, show) + tail;
      calc {
        ListOfExpenses(txs, show) + JoinLines(tail);
        ListOfExpenses(init, show) + line + "\n" + JoinLines(tail);
        ListOfExpenses(init, show) + JoinLines(tail');
      }
    }
  }

  /** A head block, the accumulated list and a tail block join as one text. */
  lemma ListBetweenBlocks(head: seq<string>, txs: seq<DailyTransaction>, tail: seq<string>, show: Num -> string)
    requires |head| > 0 && |tail| > 0
    ensures JoinLines(head) + "\n" + ListOfExpenses(txs, show) + JoinLines(tail)
            == JoinLines(head + ExpenseLines(txs, show) + tail)
  {
    var body := ExpenseLines(txs, show);
    var jh, list, jt := JoinLines(head), ListOfExpenses(txs, show), JoinLines(tail);
    ListOfExpensesJoin(txs, tail, show);
    JoinLinesAppend(head, body + tail);
    AppendAssoc(head, body, tail);
    AppendAssoc(jh + "\n", list, jt);
  }

  /** The daily report is its header, one line per transaction in the given
      order, and its tail with the total. */
  lemma DailyReceiptTextIsJoin(
    txs: seq<DailyTransaction>, merchantName: string, receiptNo: string, date: string,
    show: Num -> string)
    ensures DailyReceiptText(txs, merchantName, receiptNo, date, show)
            == JoinLines(HeaderLines(receiptNo, date) + ExpenseLines(txs, show)
                         + DailyTailLines(DailyTotal(txs), merchantName, show))
  {
    ListBetweenBlocks(HeaderLines(receiptNo, date), txs, DailyTailLines(DailyTotal(txs), merchantName, show), show);
  }

  lemma TailSingleLine(total: real, merchantName: string, show: Num -> string)
    requires NoNewline(merchantName) && NoNewline(show(Finite(total)))
    ensures AllNoNewline(DailyTailLines(total, merchantName, show))
  {
    DividerSingleLine();
    TitlesSingleLine();
    EnclosedSingleLine("", "Daily sales total :");
    NoNewlineConcat("NAFL ", show(Finite(total)));
    TagSingleLine("NAFL " + show(Finite(total)));
    NoNewlineConcat(Bold("Daily sales total :"), Right("NAFL " + show(Finite(total))));
    TagSingleLine(Bold("Daily sales total :") + Right("NAFL " + show(Finite(total))));
    TagSingleLine(merchantName);
    SignatureSingleLine();
    AllNoNewlineConcat([Blank, Divider, Blank, TotalLine(total, show), MerchantTitle, Left(merchantName)],
                       SignatureLines());
  }

  /** A transaction's line is one line when its client id and the rendered
      amount are. */
  lemma ExpenseLineSingleLine(tx: DailyTransaction, show: Num -> string)
    requires NoNewline(tx.clientId) && NoNewline(show(Finite(tx.amountUser)))
    ensures NoNewline(ExpenseLine(tx, show))
  {
    var amount := Sign(tx.transactionType) + show(Finite(tx.amountUser));
    LabelledAmountSingleLine(tx.clientId + ": ", amount);
    assert "NAFL " + amount == "NAFL " + Sign(tx.transactionType) + show(Finite(tx.amountUser));
  }

  lemma {:induction false} ExpenseLinesSingleLine(txs: seq<DailyTransaction>, show: Num -> string)
    requires SingleLine(show)
    requires forall i | 0 <= i < |txs| :: NoNewline(txs[i].clientId)
    ensures AllNoNewline(ExpenseLines(txs, show))
  {
    if txs != [] {
      var init, last := txs[..|txs| - 1], txs[|txs| - 1];
      ExpenseLinesSingleLine(init, show);
      assert NoNewline(show(Finite(last.amountUser)));
      ExpenseLineSingleLine(last, show);
      AllNoNewlineConcat(ExpenseLines(init, show), [ExpenseLine(last, show)]);
    }
  }

  /** The daily report splits into its seven header lines, exactly one
      `[L]{Client_id}: [R]NAFL {sign}{AmountUser}` line per transaction in the
      given order, and the sixteen tail lines, whose fourth carries the total
      and whose sixth the merchant name. */
  lemma DailyReceiptTextLines(
    txs: seq<DailyTransaction>, merchantName: string, receiptNo: string, date: string,
    show: Num -> string)
    requires NoNewline(receiptNo) && NoNewline(date) && NoNewline(merchantName) && SingleLine(show)
    requires forall i | 0 <= i < |txs| :: NoNewline(txs[i].clientId)
    ensures var lines := SplitLines(DailyReceiptText(txs, merchantName, receiptNo, date, show));
      && |lines| == 7 + |txs| + 16
      && lines[..7] == HeaderLines(receiptNo, date)
      && lines[7..7 + |txs|] == ExpenseLines(txs, show)
      && lines[7 + |txs|..] == DailyTailLines(DailyTotal(txs), merchantName, show)
      && lines[7 + |txs| + 3] == TotalLine(DailyTotal(txs), show)
      && lines[7 + |txs| + 5] == Left(merchantName)
  {
    var head, body, tail := HeaderLines(receiptNo, date), ExpenseLines(txs, show),
                            DailyTailLines(DailyTotal(txs), merchantName, show);
    DailyReceiptTextIsJoin(txs, merchantName, receiptNo, date, show);
    HeaderSingleLine(receiptNo, date);
    ExpenseLinesSingleLine(txs, show);
    assert NoNewline(show(Finite(DailyTotal(txs))));
    TailSingleLine(DailyTotal(txs), merchantName, show);
    BlocksSingleLine(head, body, tail, []);
    assert head + body + tail + [] == head + body + tail;
    SplitJoinLines(head + body + tail);
    BlocksLayout(head, body, tail, []);
  }

  /** With no transactions the list section is empty and the total is 0. */
  lemma EmptyDailyReceipt(merchantName: string, receiptNo: string, date: string, show: Num -> string)
    ensures ListOfExpenses([], show) == "" && DailyTotal([]) == 0.0
    ensures DailyReceiptText([], merchantName, receiptNo, date, show)
            == JoinLines(HeaderLines(receiptNo, date)) + "\n" + JoinLines(DailyTailLines(0.0, merchantName, show))
  {
  }

  /** The sign printed before an amount is `-` exactly for a return. */
  lemma ExpenseLineSign(tx: DailyTransaction, show: Num -> string)
    ensures var p := |"[L]" + tx.clientId + ": [R]NAFL "|;
      && ExpenseLine(tx, show)[p] == (if tx.transactionType == Retour then '-' else ' ')
      && ExpenseLine(tx, show)[..p] == "[L]" + tx.clientId + ": [R]NAFL "
      && ExpenseLine(tx, show)[p + 1..] == show(Finite(tx.amountUser))
  {
  }

  /** A transaction whose type is neither expense nor return is printed with a
      space, like an expense, but subtracted from the total, like a return. */
  lemma OtherTypeSignMismatch(tx: DailyTransaction, show: Num -> string)
    requires tx.transactionType == Other && tx.amountUser > 0.0
    ensures Sign(tx.transactionType) == Sign(Expense)
    ensures DailyTotal([tx]) < 0.0
  {
    assert [tx][..0] == [];
  }
}
