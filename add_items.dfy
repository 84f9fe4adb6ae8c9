/** The item list of `src/screens/AddItems.tsx`: items are added under a
    fixed balance of 1000, deleted by position, and the list is sent to the
    printer as a whole. The printer's outcome is an input of the handler. */
module AddItems {
  import opened Text
  import opened Numbers
  import opened Wrappers
  import opened Utils

  /** `Item` of the app's types. Only a finite price can pass the checks, so
      the price is a real. */
  datatype Item = Item(name: string, price: real)

  /** The balance the screen starts with and returns to. */
  const InitialBalance: real := 1000.0

  const EmptyItemName := Alert("Empty Item Name", "Item name cannot be empty")
  const InvalidItemPrice := Alert("Invalid Item Price", "Please enter a valid item price")
  const BalanceExceeded := Alert("Balance Exceeded", "You cannot add this Item beacuse it exceeds the available balance")
  const NoItems := Alert("No Items", "There are no items added to be printed")

  /** The `totalPrice` the memo derives from the list: the prices summed
      from the left, starting at 0. */
  function TotalPrice(items: seq<Item>): real {
    if items == [] then 0.0 else TotalPrice(items[..|items| - 1]) + items[|items| - 1].price
  }

  /** Every item costs at least 1 and together they fit the balance. */
  predicate ItemsFit(items: seq<Item>, balance: real) {
    && (forall i | 0 <= i < |items| :: items[i].price >= 1.0)
    && TotalPrice(items) <= balance
  }

  /** The checks of `onAddItemPressed`, in their order; the item to append
      when all pass. */
  function CheckNewItem(itemName: string, itemPrice: string, total: real, balance: real): Result<Item, Notice> {
    CheckItem(Trim(itemName), ParseFloat(Trim(itemPrice)), total, balance)
  }

  /** The same checks on the trimmed name and the parsed price, by the kind
      of number: NaN fails `isNaN`, `-Infinity` fails `price < 1`, and
      `Infinity` passes it but exceeds any balance. */
  function CheckItem(name: string, price: Num, total: real, balance: real): Result<Item, Notice> {
    if name == "" then Failure(EmptyItemName)
    else match price
      case NaN => Failure(InvalidItemPrice)
      case Infinity(negative) => if negative then Failure(InvalidItemPrice) else Failure(BalanceExceeded)
      case Finite(v) =>
        if v < 1.0 then Failure(InvalidItemPrice)
        else if total + v > balance then Failure(BalanceExceeded)
        else Success(Item(name, v))
  }

  /** The name is checked first, then the price, then the balance; an item
      that passes has the given name and price, at least 1, and keeps the
      total within the balance. `Infinity` is refused by the balance check. */
  lemma CheckItemCases(name: string, price: Num, total: real, balance: real)
    ensures var r := CheckItem(name, price, total, balance);
      && (name == "" ==> r == Failure(EmptyItemName))
      && (name != "" && (IsNaN(price) || LessThan(price, Finite(1.0))) ==> r == Failure(InvalidItemPrice))
      && (name != "" && !IsNaN(price) && !LessThan(price, Finite(1.0)) && LessThan(Finite(balance), Add(Finite(total), price))
          ==> r == Failure(BalanceExceeded))
      && (name != "" && price.Infinity? && !price.negative ==> r == Failure(BalanceExceeded))
      && (name != "" && price.Finite? && price.value >= 1.0 && total + price.value > balance ==> r == Failure(BalanceExceeded))
      && (r.Success? <==> name != "" && price.Finite? && price.value >= 1.0 && total + price.value <= balance)
      && (r.Success? ==> r.value == Item(name, price.value))
  {
  }

  /** Appending an item adds its price to the total. */
  lemma TotalPriceAppend(items: seq<Item>, x: Item)
    ensures TotalPrice(items + [x]) == TotalPrice(items) + x.price
  {
    assert (items + [x])[..|items|] == items;
  }

  /** `items.filter((_, idx) => idx !== index)`, element by element. */
  function WithoutIndex(items: seq<Item>, index: int): (r: seq<Item>)
    ensures |r| <= |items|
  {
    if items == [] then []
    else WithoutIndex(items[..|items| - 1], index) + (if |items| - 1 == index then [] else [items[|items| - 1]])
  }

  /** The filter removes exactly the item at `index`, keeping the others in
      order, and removes nothing when `index` is out of range. */
  lemma {:induction false} WithoutIndexIsRemoval(items: seq<Item>, index: int)
    ensures 0 <= index < |items| ==> WithoutIndex(items, index) == items[..index] + items[index + 1..]
    ensures !(0 <= index < |items|) ==> WithoutIndex(items, index) == items
  {
    if items != [] {
      var n := |items| - 1;
      var init := items[..n];
      WithoutIndexIsRemoval(init, index);
      if index == n {
        assert items[..index] == init;
        assert items[index + 1..] == [];
      } else if 0 <= index < n {
        assert init[..index] == items[..index];
        assert init[index + 1..] + [items[n]] == items[index + 1..];
      } else {
        assert init + [items[n]] == items;
      }
    }
  }

  /** Removing the item at `index` takes its price off the total. */
  lemma {:induction false} TotalPriceWithout(items: seq<Item>, index: int)
    requires 0 <= index < |items|
    ensures TotalPrice(WithoutIndex(items, index)) == TotalPrice(items) - items[index].price
  {
    var n := |items| - 1;
    var init := items[..n];
    if index == n {
      WithoutIndexIsRemoval(init, index);
      assert WithoutIndex(items, index) == WithoutIndex(init, index) + [] == init;
      assert TotalPrice(items) == TotalPrice(init) + items[n].price;
    } else {
      TotalPriceWithout(init, index);
      TotalPriceAppend(WithoutIndex(init, index), items[n]);
    }
  }

  /** Deleting an item keeps the list within the balance. */
  lemma WithoutIndexFits(items: seq<Item>, index: int, balance: real)
    requires ItemsFit(items, balance)
    ensures ItemsFit(WithoutIndex(items, index), balance)
  {
    WithoutIndexIsRemoval(items, index);
    if 0 <= index < |items| {
      TotalPriceWithout(items, index);
      var r := WithoutIndex(items, index);
      forall i | 0 <= i < |r| ensures r[i].price >= 1.0 {
        if i >= index { assert r[i] == items[i + 1]; }
      }
    }
  }

  /** With every price at least 1, the total is 0 exactly when the list is
      empty, so "No Items" is shown only for an empty list. */
  lemma {:induction false} TotalZeroIffEmpty(items: seq<Item>)
    requires forall i | 0 <= i < |items| :: items[i].price >= 1.0
    ensures TotalPrice(items) >= |items| as real
    ensures TotalPrice(items) == 0.0 <==> items == []
  {
    if items != [] {
      TotalZeroIffEmpty(items[..|items| - 1]);
    }
  }

  /** The `printReceipt` call of the save button: it passes the item list
      where a price is expected, a fixed customer name and the screen's
      code, and no merchant name or payment type. */
  datatype PrintRequest = PrintRequest(items: seq<Item>, customerName: string, code: string)

  class AddItemsScreen {
    /** `route.params?.code ?? '12345678'` */
    const code: string

    var items: seq<Item>
    var itemName: string
    var itemPrice: string
    var balance: real

    /** Alerts shown and calls made to the printer. */
    var notices: seq<Notice>
    var requests: seq<PrintRequest>

    ghost predicate Valid()
      reads this
    {
      ItemsFit(items, balance)
    }

    constructor(routeCode: Option<string>)
      ensures Valid()
      ensures code == routeCode.GetOr("12345678")
      ensures items == [] && itemName == "" && itemPrice == "" && balance == InitialBalance
      ensures notices == [] && requests == []
    {
      code := routeCode.GetOr("12345678");
      items, itemName, itemPrice, balance := [], "", "", InitialBalance;
      notices, requests := [], [];
    }

    method OnItemNameTextChanged(text: string)
      modifies this
      ensures itemName == text
      ensures items == old(items) && itemPrice == old(itemPrice) && balance == old(balance)
      ensures notices == old(notices) && requests == old(requests)
    {
      itemName := text;
    }

    method OnItemPriceTextChanged(text: string)
      modifies this
      ensures itemPrice == text
      ensures items == old(items) && itemName == old(itemName) && balance == old(balance)
      ensures notices == old(notices) && requests == old(requests)
    {
      itemPrice := text;
    }

    /** `clearAllStates` */
    method ClearAllStates()
      modifies this
      ensures Valid()
      ensures items == [] && itemName == "" && itemPrice == "" && balance == InitialBalance
      ensures notices == old(notices) && requests == old(requests)
    {
      items, itemName, itemPrice, balance := [], "", "", InitialBalance;
    }

    /** `onAddItemPressed`: an item that passes the checks is appended and the
        inputs are cleared; otherwise its alert is shown and nothing changes. */
    method OnAddItemPressed() returns (checked: Result<Item, Notice>)
      requires Valid()
      modifies this
      ensures Valid()
      ensures checked == CheckNewItem(old(itemName), old(itemPrice), TotalPrice(old(items)), old(balance))
      ensures balance == old(balance) && requests == old(requests)
      ensures checked.Success? ==>
        && items == old(items) + [checked.value] && itemName == "" && itemPrice == ""
        && notices == old(notices)
      ensures checked.Failure? ==>
        && items == old(items) && itemName == old(itemName) && itemPrice == old(itemPrice)
        && notices == old(notices) + [checked.error]
    {
      checked := CheckNewItem(itemName, itemPrice, TotalPrice(items), balance);
      CheckItemCases(Trim(itemName), ParseFloat(Trim(itemPrice)), TotalPrice(items), balance);
      AddChecked(checked);
    }

    method AddChecked(checked: Result<Item, Notice>)
      requires Valid()
      requires checked.Success? ==> checked.value.price >= 1.0 && TotalPrice(items) + checked.value.price <= balance
      modifies this
      ensures Valid()
      ensures balance == old(balance) && requests == old(requests)
      ensures checked.Success? ==>
        && items == old(items) + [checked.value] && itemName == "" && itemPrice == ""
        && notices == old(notices)
      ensures checked.Failure? ==>
        && items == old(items) && itemName == old(itemName) && itemPrice == old(itemPrice)
        && notices == old(notices) + [checked.error]
    {
      if checked.Failure? {
        notices := notices + [checked.error];
      } else {
        TotalPriceAppend(items, checked.value);
        items := items + [checked.value];
        itemName, itemPrice := "", "";
      }
    }

    /** `onDeleteItemPressed(index)` */
    method OnDeleteItemPressed(index: int)
      requires Valid()
      modifies this
      ensures Valid()
      ensures items == WithoutIndex(old(items), index)
      ensures itemName == old(itemName) && itemPrice == old(itemPrice) && balance == old(balance)
      ensures notices == old(notices) && requests == old(requests)
    {
      WithoutIndexFits(items, index, balance);
      items := WithoutIndex(items, index);
    }

    /** `onSaveAndPrintReceiptPressed`: an empty list is refused; otherwise
        the list is sent to the printer and, unless printing threw, the
        screen is cleared. */
    method OnSaveAndPrintReceiptPressed(printer: PrintOutcome)
      requires Valid()
      modifies this
      ensures Valid()
      ensures old(items) == [] ==>
        && items == old(items) && itemName == old(itemName) && itemPrice == old(itemPrice) && balance == old(balance)
        && notices == old(notices) + [NoItems] && requests == old(requests)
      ensures old(items) != [] ==> requests == old(requests) + [PrintRequest(old(items), "John Doe", code)]
      ensures old(items) != [] && printer.PrintDone? ==>
        && items == [] && itemName == "" && itemPrice == "" && balance == InitialBalance
        && notices == old(notices)
      ensures old(items) != [] && printer.PrintThrew? ==>
        && items == old(items) && itemName == old(itemName) && itemPrice == old(itemPrice) && balance == old(balance)
        && notices == old(notices) + [Alert("Error Printing", ErrorText(printer.message))]
    {
      TotalZeroIffEmpty(items);
      if TotalPrice(items) == 0.0 {
        notices := notices + [NoItems];
        return;
      }
      requests := requests + [PrintRequest(items, "John Doe", code)];
      if printer.PrintDone? {
        ClearAllStates();
      } else {
        notices := notices + [Alert("Error Printing", ErrorText(printer.message))];
      }
    }
  }
}
