/**
 * The "group-by-transaction" step of the purchase import workflow: parsed
 * CSV rows are folded into one purchase per transaction number, the first
 * row of each transaction filling the purchase header and every row adding
 * one line item.
 */
module PurchaseGrouping {
  import opened JsText

  /** One parsed CSV row: normalised header name to cell text. An absent key reads as undefined. */
  type Row = map<string, string>

  /** `row.<name>` */
  function Field(row: Row, name: string): Option<string>
  {
    if name in row then Some(row[name]) else None
  }

  /**
   * An amount as the workflow stores it. Floating-point parsing is kept
   * symbolic: `ParseFloat(t)` is `parseFloat` applied to the cell text `t`
   * (None for undefined), `Zero` is the literal default 0.
   */
  datatype Amount = ParseFloat(text: Option<string>) | Zero

  /** `parseFloat(row.<name> || 0)`: an absent or empty cell gives 0. */
  function AmountOrZero(row: Row, name: string): (a: Amount)
    ensures !Truthy(Field(row, name)) ==> a == Zero
    ensures Truthy(Field(row, name)) ==> a == ParseFloat(Field(row, name))
  {
    if Truthy(Field(row, name)) then ParseFloat(Field(row, name)) else Zero
  }

  datatype LineItem = LineItem(
    skuId: Option<string>,
    quantity: Amount,
    unitPrice: Amount,
    discountAmount: Amount,
    taxAmount: Amount,
    lineTotal: Amount)

  /** The purchase-level fields the first row of a transaction sets. */
  datatype PurchaseHeader = PurchaseHeader(
    transactionNumber: Option<string>,
    transactionDate: Option<string>,
    userId: Option<string>,
    storeId: Option<string>,
    totalAmount: Amount,
    discountAmount: Amount,
    taxAmount: Amount,
    finalAmount: Amount,
    status: string,
    paymentStatus: string,
    recordType: string,
    processingMethod: string,
    earnCurrency: bool,
    transactionSource: string,
    externalRef: Option<string>,
    notes: Option<string>)

  /** One grouped purchase: its header fields and the `items` array. */
  datatype Purchase = Purchase(header: PurchaseHeader, items: seq<LineItem>)

  /**
   * The property key `purchases[txnNum]` uses: the cell text, or "undefined"
   * when the row has no transaction_number column.
   */
  function GroupKey(row: Row): string
  {
    if "transaction_number" in row then row["transaction_number"] else "undefined"
  }

  /** The header a transaction's first row creates. */
  function NewHeader(row: Row): PurchaseHeader
  {
    PurchaseHeader(
      transactionNumber := Field(row, "transaction_number"),
      transactionDate := Field(row, "transaction_date"),
      userId := Field(row, "user_id"),
      storeId := OrNull(Field(row, "store_id")),
      totalAmount := ParseFloat(Field(row, "final_amount")),
      discountAmount := AmountOrZero(row, "discount_amount"),
      taxAmount := AmountOrZero(row, "tax_amount"),
      finalAmount := ParseFloat(Field(row, "final_amount")),
      status := OrElse(Field(row, "status"), "completed"),
      paymentStatus := OrElse(Field(row, "payment_status"), "paid"),
      recordType := OrElse(Field(row, "record_type"), "credit"),
      processingMethod := OrElse(Field(row, "processing_method"), "queue"),
      earnCurrency := Field(row, "earn_currency") != Some("false"),
      transactionSource := OrElse(Field(row, "transaction_source"), "admin"),
      externalRef := OrNull(Field(row, "external_ref")),
      notes := OrNull(Field(row, "notes")))
  }

  /** The line item every row contributes. */
  function LineItemOf(row: Row): LineItem
  {
    LineItem(
      skuId := Field(row, "sku_id"),
      quantity := ParseFloat(Field(row, "quantity")),
      unitPrice := ParseFloat(Field(row, "unit_price")),
      discountAmount := AmountOrZero(row, "item_discount_amount"),
      taxAmount := AmountOrZero(row, "item_tax_amount"),
      lineTotal := ParseFloat(Field(row, "line_total")))
  }

  /**
   * The column each header value is read from, and the default a `||` puts
   * in its place when the cell is absent or empty.
   */
  lemma NewHeaderDefaults(row: Row)
    ensures var p := NewHeader(row);
      && p.transactionNumber == Field(row, "transaction_number")
      && p.transactionDate == Field(row, "transaction_date")
      && p.userId == Field(row, "user_id")
      && p.totalAmount == p.finalAmount == ParseFloat(Field(row, "final_amount"))
      && p.earnCurrency == (Field(row, "earn_currency") != Some("false"))
    ensures var p := NewHeader(row);
      && (Truthy(Field(row, "status")) ==> p.status == Field(row, "status").value)
      && (!Truthy(Field(row, "status")) ==> p.status == "completed")
      && (Truthy(Field(row, "payment_status")) ==> p.paymentStatus == Field(row, "payment_status").value)
      && (!Truthy(Field(row, "payment_status")) ==> p.paymentStatus == "paid")
      && (Truthy(Field(row, "record_type")) ==> p.recordType == Field(row, "record_type").value)
      && (!Truthy(Field(row, "record_type")) ==> p.recordType == "credit")
      && (Truthy(Field(row, "processing_method")) ==> p.processingMethod == Field(row, "processing_method").value)
      && (!Truthy(Field(row, "processing_method")) ==> p.processingMethod == "queue")
      && (Truthy(Field(row, "transaction_source")) ==> p.transactionSource == Field(row, "transaction_source").value)
      && (!Truthy(Field(row, "transaction_source")) ==> p.transactionSource == "admin")
    ensures var p := NewHeader(row);
      && (Truthy(Field(row, "store_id")) ==> p.storeId == Field(row, "store_id"))
      && (!Truthy(Field(row, "store_id")) ==> p.storeId == None)
      && (Truthy(Field(row, "external_ref")) ==> p.externalRef == Field(row, "external_ref"))
      && (!Truthy(Field(row, "external_ref")) ==> p.externalRef == None)
      && (Truthy(Field(row, "notes")) ==> p.notes == Field(row, "notes"))
      && (!Truthy(Field(row, "notes")) ==> p.notes == None)
    ensures var p := NewHeader(row);
      && (Truthy(Field(row, "discount_amount")) ==> p.discountAmount == ParseFloat(Field(row, "discount_amount")))
      && (!Truthy(Field(row, "discount_amount")) ==> p.discountAmount == Zero)
      && (Truthy(Field(row, "tax_amount")) ==> p.taxAmount == ParseFloat(Field(row, "tax_amount")))
      && (!Truthy(Field(row, "tax_amount")) ==> p.taxAmount == Zero)
  {
  }

  /** The column each line-item value is read from; item discount and tax default to 0. */
  lemma LineItemDefaults(row: Row)
    ensures var item := LineItemOf(row);
      && item.skuId == Field(row, "sku_id")
      && item.quantity == ParseFloat(Field(row, "quantity"))
      && item.unitPrice == ParseFloat(Field(row, "unit_price"))
      && item.lineTotal == ParseFloat(Field(row, "line_total"))
    ensures var item := LineItemOf(row);
      && (Truthy(Field(row, "item_discount_amount")) ==> item.discountAmount == ParseFloat(Field(row, "item_discount_amount")))
      && (!Truthy(Field(row, "item_discount_amount")) ==> item.discountAmount == Zero)
      && (Truthy(Field(row, "item_tax_amount")) ==> item.taxAmount == ParseFloat(Field(row, "item_tax_amount")))
      && (!Truthy(Field(row, "item_tax_amount")) ==> item.taxAmount == Zero)
  {
  }

  /** The purchase a row's item goes into: the existing one for its key, or a fresh one with no items. */
  function UnitFor(purchases: map<string, Purchase>, row: Row): Purchase
  {
    var key := GroupKey(row);
    if key in purchases then purchases[key] else Purchase(NewHeader(row), [])
  }

  /** `items.push(...)` of the row's line item. */
  function Pushed(p: Purchase, row: Row): Purchase
  {
    Purchase(p.header, p.items + [LineItemOf(row)])
  }

  /** One iteration of the grouping loop: create the purchase if the key is new, then push the row's item. */
  function AddRow(purchases: map<string, Purchase>, row: Row): map<string, Purchase>
  {
    purchases[GroupKey(row) := Pushed(UnitFor(purchases, row), row)]
  }

  /** The dictionary the grouping loop has built after reading `rows`. */
  function Grouped(rows: seq<Row>): map<string, Purchase>
  {
    if rows == [] then map[] else AddRow(Grouped(rows[..|rows| - 1]), rows[|rows| - 1])
  }

  /**
   * The grouping loop over the parsed rows. The result is the `purchases`
   * dictionary; the order in which `Object.values` lists it is left open.
   */
  method GroupByTransaction(rows: seq<Row>) returns (purchases: map<string, Purchase>)
    ensures purchases == Grouped(rows)
    ensures purchases.Keys == KeysOf(rows)
  {
    purchases := map[];
    var i := 0;
    while i < |rows|
      invariant 0 <= i <= |rows|
      invariant purchases == Grouped(rows[..i])
    {
      var row := rows[i];
      var txnNum := GroupKey(row);
      ghost var before := purchases;
      if txnNum !in purchases {
        purchases := purchases[txnNum := Purchase(NewHeader(row), [])];
      }
      ghost var created := purchases;
      var unit := purchases[txnNum];
      purchases := purchases[txnNum := Pushed(unit, row)];
      GroupedStep(rows, i, before, created, purchases);
      i := i + 1;
    }
    assert rows[..|rows|] == rows;
    GroupedKeys(rows);
  }

  /** One pass of the loop body: create the purchase when the key is new, then push the item. */
  lemma GroupedStep(rows: seq<Row>, i: int, before: map<string, Purchase>,
                    created: map<string, Purchase>, after: map<string, Purchase>)
    requires 0 <= i < |rows| && before == Grouped(rows[..i])
    requires var key := GroupKey(rows[i]);
      created == if key in before then before else before[key := Purchase(NewHeader(rows[i]), [])]
    requires GroupKey(rows[i]) in created
    requires after == created[GroupKey(rows[i]) := Pushed(created[GroupKey(rows[i])], rows[i])]
    ensures after == Grouped(rows[..i + 1])
  {
    GroupedPrefixStep(rows, i);
    var key, row := GroupKey(rows[i]), rows[i];
    if key !in before {
      UpdateTwice(before, key, Purchase(NewHeader(row), []), Pushed(UnitFor(before, row), row));
    }
  }

  lemma GroupedPrefixStep(rows: seq<Row>, i: int)
    requires 0 <= i < |rows|
    ensures Grouped(rows[..i + 1]) == AddRow(Grouped(rows[..i]), rows[i])
  {
    assert rows[..i + 1][..i] == rows[..i];
  }

  lemma UpdateTwice(m: map<string, Purchase>, k: string, a: Purchase, b: Purchase)
    ensures m[k := a][k := b] == m[k := b]
  {
  }

  /** The distinct grouping keys of the rows. */
  function KeysOf(rows: seq<Row>): set<string>
  {
    set i | 0 <= i < |rows| :: GroupKey(rows[i])
  }

  /** Exactly one purchase per distinct transaction key. */
  lemma {:induction false} GroupedKeys(rows: seq<Row>)
    ensures Grouped(rows).Keys == KeysOf(rows)
  {
    if rows != [] {
      var n := |rows| - 1;
      GroupedKeys(rows[..n]);
      KeysOfStep(rows);
      AddRowAt(Grouped(rows[..n]), rows[n]);
    }
  }

  /** What one iteration does to the dictionary: the row's key is added if new, and the row's item is appended to it. */
  lemma AddRowAt(purchases: map<string, Purchase>, row: Row)
    ensures AddRow(purchases, row).Keys == purchases.Keys + {GroupKey(row)}
    ensures forall k :: k in purchases && k != GroupKey(row) ==> AddRow(purchases, row)[k] == purchases[k]
    ensures var key, p := GroupKey(row), AddRow(purchases, row)[GroupKey(row)];
      && (key in purchases ==> p.header == purchases[key].header && p.items == purchases[key].items + [LineItemOf(row)])
      && (key !in purchases ==> p.header == NewHeader(row) && p.items == [LineItemOf(row)])
  {
  }

  lemma KeysOfStep(rows: seq<Row>)
    requires rows != []
    ensures KeysOf(rows) == KeysOf(rows[..|rows| - 1]) + {GroupKey(rows[|rows| - 1])}
  {
    var n := |rows| - 1;
    var prefix := rows[..n];
    forall k | k in KeysOf(rows) ensures k in KeysOf(prefix) + {GroupKey(rows[n])} {
      var i :| 0 <= i < |rows| && GroupKey(rows[i]) == k;
      if i < n {
        assert GroupKey(prefix[i]) == k;
      }
    }
    forall k | k in KeysOf(prefix) ensures k in KeysOf(rows) {
      var i :| 0 <= i < n && GroupKey(prefix[i]) == k;
      assert GroupKey(rows[i]) == k;
    }
  }

  /** The line items of the rows carrying key `key`, in input order. */
  function ItemsFor(rows: seq<Row>, key: string): seq<LineItem>
  {
    if rows == [] then []
    else
      var last := rows[|rows| - 1];
      ItemsFor(rows[..|rows| - 1], key) + (if GroupKey(last) == key then [LineItemOf(last)] else [])
  }

  /** Row `i` is the first row carrying `key`. */
  predicate FirstWithKey(rows: seq<Row>, key: string, i: int)
  {
    && 0 <= i < |rows| && GroupKey(rows[i]) == key
    && (forall j :: 0 <= j < i ==> GroupKey(rows[j]) != key)
  }

  /**
   * Every purchase's header comes from the first row with its key, and its
   * items are exactly the items of the rows with that key, in input order.
   */
  lemma {:induction false} GroupedPurchase(rows: seq<Row>, key: string)
    requires key in Grouped(rows)
    ensures Grouped(rows)[key].items == ItemsFor(rows, key)
    ensures exists i :: FirstWithKey(rows, key, i) && Grouped(rows)[key].header == NewHeader(rows[i])
  {
    var n := |rows| - 1;
    var prefix, last := rows[..n], rows[n];
    var m := Grouped(prefix);
    AddRowAt(m, last);
    if key in m {
      GroupedPurchase(prefix, key);
      var i :| FirstWithKey(prefix, key, i) && m[key].header == NewHeader(prefix[i]);
      FirstWithKeyExtends(rows, key, i);
    } else {
      GroupedKeys(prefix);
      ItemsForAbsentKey(prefix, key);
      FirstAfterAbsent(rows, key);
    }
  }

  /** A first occurrence in the prefix stays the first occurrence. */
  lemma FirstWithKeyExtends(rows: seq<Row>, key: string, i: int)
    requires rows != [] && FirstWithKey(rows[..|rows| - 1], key, i)
    ensures FirstWithKey(rows, key, i) && rows[i] == rows[..|rows| - 1][i]
  {
    var prefix := rows[..|rows| - 1];
    forall j | 0 <= j < i ensures GroupKey(rows[j]) != key {
      assert rows[j] == prefix[j];
    }
  }

  /** A key absent from the prefix first occurs in the last row, if it occurs at all. */
  lemma FirstAfterAbsent(rows: seq<Row>, key: string)
    requires rows != [] && key !in KeysOf(rows[..|rows| - 1]) && GroupKey(rows[|rows| - 1]) == key
    ensures FirstWithKey(rows, key, |rows| - 1)
  {
    var prefix := rows[..|rows| - 1];
    forall j | 0 <= j < |rows| - 1 ensures GroupKey(rows[j]) != key {
      assert rows[j] == prefix[j];
    }
  }

  lemma {:induction false} ItemsForAbsentKey(rows: seq<Row>, key: string)
    requires key !in KeysOf(rows)
    ensures ItemsFor(rows, key) == []
  {
    if rows != [] {
      KeysOfStep(rows);
      ItemsForAbsentKey(rows[..|rows| - 1], key);
    }
  }

  /** The keys in the order the grouping loop first meets them (JavaScript insertion order). */
  function KeyOrder(rows: seq<Row>): seq<string>
  {
    if rows == [] then []
    else
      var ks := KeyOrder(rows[..|rows| - 1]);
      var key := GroupKey(rows[|rows| - 1]);
      if key in ks then ks else ks + [key]
  }

  predicate Distinct(ks: seq<string>) {
    forall i, j :: 0 <= i < j < |ks| ==> ks[i] != ks[j]
  }

  /** The number of line items over the purchases listed in `keys`. */
  function SumItems(purchases: map<string, Purchase>, keys: seq<string>): nat
    requires forall k :: k in keys ==> k in purchases
  {
    if keys == [] then 0 else |purchases[keys[0]].items| + SumItems(purchases, keys[1..])
  }

  lemma {:induction false} SumItemsOther(purchases: map<string, Purchase>, keys: seq<string>, key: string, p: Purchase)
    requires forall k :: k in keys ==> k in purchases
    requires key !in keys
    ensures SumItems(purchases[key := p], keys) == SumItems(purchases, keys)
  {
    if keys != [] {
      SumItemsOther(purchases, keys[1..], key, p);
    }
  }

  lemma {:induction false} SumItemsGrow(purchases: map<string, Purchase>, keys: seq<string>, key: string, p: Purchase)
    requires forall k :: k in keys ==> k in purchases
    requires Distinct(keys) && key in keys
    requires |p.items| == |purchases[key].items| + 1
    ensures SumItems(purchases[key := p], keys) == SumItems(purchases, keys) + 1
  {
    if keys[0] == key {
      assert key !in keys[1..];
      SumItemsOther(purchases, keys[1..], key, p);
    } else {
      SumItemsGrow(purchases, keys[1..], key, p);
    }
  }

  lemma {:induction false} SumItemsAppend(purchases: map<string, Purchase>, keys: seq<string>, key: string)
    requires forall k :: k in keys ==> k in purchases
    requires key in purchases
    ensures SumItems(purchases, keys + [key]) == SumItems(purchases, keys) + |purchases[key].items|
  {
    if keys != [] {
      assert (keys + [key])[1..] == keys[1..] + [key];
      SumItemsAppend(purchases, keys[1..], key);
    }
  }

  /**
   * The key order lists every purchase exactly once, and the purchases hold
   * one line item per input row between them.
   */
  lemma {:induction false} GroupedItemTotal(rows: seq<Row>)
    ensures Distinct(KeyOrder(rows))
    ensures forall k :: k in KeyOrder(rows) <==> k in Grouped(rows)
    ensures SumItems(Grouped(rows), KeyOrder(rows)) == |rows|
  {
    if rows != [] {
      var n := |rows| - 1;
      var prefix := rows[..n];
      var m := Grouped(prefix);
      var ks := KeyOrder(prefix);
      var row := rows[n];
      var key := GroupKey(row);
      GroupedItemTotal(prefix);
      var p := Pushed(UnitFor(m, row), row);
      assert Grouped(rows) == m[key := p];
      if key in ks {
        SumItemsGrow(m, ks, key, p);
      } else {
        SumItemsOther(m, ks, key, p);
        SumItemsAppend(m[key := p], ks, key);
      }
    }
  }

  // ---------------------------------------------------------------------
  // The loop as written looks purchases up with `!purchases[txnNum]` on a
  // plain object literal, so the members every object inherits from
  // Object.prototype already look like existing purchases.

  /** The property names an empty object literal inherits from Object.prototype. */
  const InheritedMembers: set<string> := {
    "constructor", "__proto__", "toString", "toLocaleString", "valueOf",
    "hasOwnProperty", "isPrototypeOf", "propertyIsEnumerable",
    "__defineGetter__", "__defineSetter__", "__lookupGetter__", "__lookupSetter__"
  }

  /**
   * One loop iteration as written: for an inherited key no purchase is
   * created and `purchases[txnNum].items.push` reads `items` of a function,
   * which throws a TypeError (None).
   */
  function AddRowAsWritten(purchases: map<string, Purchase>, row: Row): Option<map<string, Purchase>>
  {
    var key := GroupKey(row);
    if key !in purchases && key in InheritedMembers then None else Some(AddRow(purchases, row))
  }

  function GroupedAsWritten(rows: seq<Row>): Option<map<string, Purchase>>
  {
    if rows == [] then Some(map[])
    else
      match GroupedAsWritten(rows[..|rows| - 1])
      case None => None
      case Some(m) => AddRowAsWritten(m, rows[|rows| - 1])
  }

  /** Away from the inherited names the loop as written and `Grouped` agree. */
  lemma {:induction false} AsWrittenAgrees(rows: seq<Row>)
    requires forall i :: 0 <= i < |rows| ==> GroupKey(rows[i]) !in InheritedMembers
    ensures GroupedAsWritten(rows) == Some(Grouped(rows))
  {
    if rows != [] {
      var n := |rows| - 1;
      assert forall i :: 0 <= i < n ==> rows[..n][i] == rows[i];
      AsWrittenAgrees(rows[..n]);
    }
  }

  /** A single row whose transaction_number is "constructor" makes the step throw. */
  lemma InheritedKeyThrows()
    ensures var rows := [map["transaction_number" := "constructor"]];
      && GroupedAsWritten(rows) == None
      && Grouped(rows).Keys == {"constructor"}
  {
    var rows := [map["transaction_number" := "constructor"]];
    assert rows[..0] == [];
    assert GroupKey(rows[0]) == "constructor";
  }
}
