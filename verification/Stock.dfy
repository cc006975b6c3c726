/**
 Arithmetic of the stock table: the check-and-deduct loop behind a reservation, the loop that gives
 stock back, and what each of them means for the quantity of one item.
 */
module Stock {
  import opened Events
  import opened Sums

  /** Range of a PostgreSQL INTEGER. */
  const INT_MIN := -0x8000_0000
  const INT_MAX := 0x7fff_ffff

  /** The column is INTEGER with CHECK (quantity >= 0). */
  predicate Storable(quantity: int) {
    0 <= quantity <= INT_MAX
  }

  /** A query parameter of type INTEGER. */
  predicate Bindable(quantity: int) {
    INT_MIN <= quantity <= INT_MAX
  }

  predicate WellStocked(stock: map<ItemId, int>) {
    forall i :: i in stock ==> Storable(stock[i])
  }

  predicate NonNegative(items: seq<Item>) {
    forall k :: 0 <= k < |items| ==> items[k].quantity >= 0
  }

  /** The table after the loop, and the error that stopped it. On an error the earlier updates are still there. */
  datatype Update = Update(stock: map<ItemId, int>, error: Option<StockError>)

  function Deduct(stock: map<ItemId, int>, items: seq<Item>): Update {
    if items == [] then Update(stock, None)
    else
      var Item(id, quantity) := items[0];
      if id !in stock then Update(stock, Some(NotFound(id)))
      else if stock[id] < quantity then Update(stock, Some(Insufficient(id, quantity, stock[id])))
      else if !Bindable(quantity) || !Storable(stock[id] - quantity) then Update(stock, Some(OutOfRange(id)))
      else Deduct(stock[id := stock[id] - quantity], items[1..])
  }

  /** Gives quantities back; an UPDATE that matches no row is not an error. */
  function Restore(stock: map<ItemId, int>, items: seq<Item>): Update {
    if items == [] then Update(stock, None)
    else
      var Item(id, quantity) := items[0];
      if !Bindable(quantity) then Update(stock, Some(OutOfRange(id)))
      else if id !in stock then Restore(stock, items[1..])
      else if !Storable(stock[id] + quantity) then Update(stock, Some(OutOfRange(id)))
      else Restore(stock[id := stock[id] + quantity], items[1..])
  }

  /** Total quantity of one item over a list, repeats counted. */
  function Demand(items: seq<Item>, id: ItemId): int {
    if items == [] then 0
    else (if items[0].id == id then items[0].quantity else 0) + Demand(items[1..], id)
  }

  function Demands(reservations: map<OrderId, seq<Item>>, id: ItemId): map<OrderId, int> {
    map o | o in reservations :: Demand(reservations[o], id)
  }

  /** Quantity of one item set aside by all reservations together. */
  ghost function Held(reservations: map<OrderId, seq<Item>>, id: ItemId): int {
    Sum(Demands(reservations, id))
  }

  predicate AllStocked(stock: map<ItemId, int>, items: seq<Item>) {
    forall k :: 0 <= k < |items| ==> items[k].id in stock
  }

  /** Every line names a stocked item and the aggregated demand per item is available. */
  ghost predicate CanServe(stock: map<ItemId, int>, items: seq<Item>) {
    && AllStocked(stock, items)
    && forall id :: id in stock ==> Demand(items, id) <= stock[id]
  }

  /** The same question asked line by line: what is left after each prefix can be stored. */
  ghost predicate ServesPrefixes(stock: map<ItemId, int>, items: seq<Item>) {
    forall k :: 0 <= k < |items| ==> ServesLine(stock, items, k)
  }

  ghost predicate ServesLine(stock: map<ItemId, int>, items: seq<Item>, k: nat)
    requires k < |items|
  {
    && items[k].id in stock
    && items[k].quantity >= INT_MIN
    && Storable(stock[items[k].id] - Demand(items[..k + 1], items[k].id))
  }

  lemma {:induction false} DemandConcat(a: seq<Item>, b: seq<Item>, id: ItemId)
    ensures Demand(a + b, id) == Demand(a, id) + Demand(b, id)
  {
    if a == [] {
      assert a + b == b;
    } else {
      DemandConcat(a[1..], b, id);
      assert (a + b)[1..] == a[1..] + b;
    }
  }

  lemma {:induction false} DemandNonNegative(items: seq<Item>, id: ItemId)
    requires NonNegative(items)
    ensures Demand(items, id) >= 0
  {
    if items != [] {
      DemandNonNegative(items[1..], id);
    }
  }

  /** A completed deduction takes exactly the aggregated demand from each item and nothing else. */
  lemma {:induction false} DeductEffect(stock: map<ItemId, int>, items: seq<Item>)
    requires Deduct(stock, items).error.None?
    ensures var left := Deduct(stock, items).stock;
      && left.Keys == stock.Keys
      && AllStocked(stock, items)
      && (forall id :: id in stock ==> left[id] == stock[id] - Demand(items, id))
      && (WellStocked(stock) ==> WellStocked(left))
  {
    if items != [] {
      DeductEffect(stock[items[0].id := stock[items[0].id] - items[0].quantity], items[1..]);
    }
  }

  lemma {:induction false} RestoreEffect(stock: map<ItemId, int>, items: seq<Item>)
    requires Restore(stock, items).error.None?
    ensures var left := Restore(stock, items).stock;
      && left.Keys == stock.Keys
      && (forall id :: id in stock ==> left[id] == stock[id] + Demand(items, id))
      && (WellStocked(stock) ==> WellStocked(left))
  {
    if items != [] {
      var id := items[0].id;
      RestoreEffect(if id in stock then stock[id := stock[id] + items[0].quantity] else stock, items[1..]);
    }
  }

  /** For any list, signed quantities included: the loop completes iff it can store what each prefix leaves. */
  lemma {:induction false} DeductPrefixes(stock: map<ItemId, int>, items: seq<Item>)
    requires WellStocked(stock)
    ensures Deduct(stock, items).error.None? <==> ServesPrefixes(stock, items)
  {
    if items != [] {
      var Item(id, quantity) := items[0];
      assert items[..1] == [items[0]];
      assert Demand(items[..1], id) == quantity;
      assert ServesLine(stock, items, 0) <==>
          id in stock && quantity >= INT_MIN && Storable(stock[id] - quantity);
      if ServesLine(stock, items, 0) {
        var rest := stock[id := stock[id] - quantity];
        DeductPrefixes(rest, items[1..]);
        forall k | 0 <= k < |items| - 1
          ensures ServesLine(rest, items[1..], k) <==> ServesLine(stock, items, k + 1)
        {
          var x := items[k + 1].id;
          assert items[..k + 2] == [items[0]] + items[1..][..k + 1];
          DemandConcat([items[0]], items[1..][..k + 1], x);
        }
        if ServesPrefixes(rest, items[1..]) {
          forall k | 0 <= k < |items|
            ensures ServesLine(stock, items, k)
          {
            if k > 0 {
              assert ServesLine(rest, items[1..], k - 1);
            }
          }
        }
      }
    }
  }

  /** What is wrong with a line that cannot be served once the lines before it have been. */
  ghost function Refusal(stock: map<ItemId, int>, items: seq<Item>, k: nat): StockError
    requires k < |items|
  {
    var Item(id, quantity) := items[k];
    if id !in stock then NotFound(id)
    else
      var left := stock[id] - Demand(items[..k], id);
      if left < quantity then Insufficient(id, quantity, left) else OutOfRange(id)
  }

  /** The loop stops at the first line that cannot be served, and says what is wrong with that one. */
  ghost predicate StopsAt(stock: map<ItemId, int>, items: seq<Item>, error: StockError, k: nat) {
    && k < |items|
    && ServesPrefixes(stock, items[..k]) && !ServesLine(stock, items, k)
    && error == Refusal(stock, items, k)
  }

  lemma StopsLater(stock: map<ItemId, int>, items: seq<Item>, error: StockError, k: nat)
    requires items != [] && ServesLine(stock, items, 0)
    requires var Item(id, quantity) := items[0];
      StopsAt(stock[id := stock[id] - quantity], items[1..], error, k)
    ensures StopsAt(stock, items, error, k + 1)
  {
    var Item(id, quantity) := items[0];
    var rest, tail := stock[id := stock[id] - quantity], items[1..];
    assert items[..1] == [items[0]];
    forall j, x | 0 <= j <= |tail| ensures Demand(items[..j + 1], x) == Demand(tail[..j], x) + (if x == id then quantity else 0) {
      assert items[..j + 1] == [items[0]] + tail[..j];
    }
    assert ServesLine(rest, tail, k) <==> ServesLine(stock, items, k + 1);
    var prefix := items[..k + 1];
    forall j | 0 <= j < |prefix| ensures ServesLine(stock, prefix, j) {
      assert prefix[..j + 1] == items[..j + 1];
      if j > 0 {
        assert ServesLine(rest, tail[..k], j - 1);
        assert tail[..k][..j] == tail[..j];
      }
    }
  }

  lemma {:induction false} DeductStops(stock: map<ItemId, int>, items: seq<Item>) returns (k: nat)
    requires WellStocked(stock) && Deduct(stock, items).error.Some?
    ensures StopsAt(stock, items, Deduct(stock, items).error.value, k)
  {
    var Item(id, quantity) := items[0];
    assert items[..1] == [items[0]] && items[..0] == [];
    assert Demand(items[..1], id) == quantity;
    if ServesLine(stock, items, 0) {
      k := DeductStops(stock[id := stock[id] - quantity], items[1..]);
      StopsLater(stock, items, Deduct(stock, items).error.value, k);
      k := k + 1;
    } else {
      k := 0;
    }
  }

  lemma PrefixServed(stock: map<ItemId, int>, items: seq<Item>, j: nat, k: nat)
    requires j < k <= |items| && ServesPrefixes(stock, items[..k])
    ensures ServesLine(stock, items, j)
  {
    assert items[..k][..j + 1] == items[..j + 1];
    assert ServesLine(stock, items[..k], j);
  }

  /** There is one such line. */
  lemma StopsOnce(stock: map<ItemId, int>, items: seq<Item>, error: StockError, k: nat, error': StockError, k': nat)
    requires StopsAt(stock, items, error, k) && StopsAt(stock, items, error', k')
    ensures k == k' && error == error'
  {
    if k < k' {
      PrefixServed(stock, items, k, k');
    } else if k' < k {
      PrefixServed(stock, items, k', k);
    }
  }

  /** Whether giving back one line can be stored, after the lines before it. */
  ghost predicate ReturnsLine(stock: map<ItemId, int>, items: seq<Item>, k: nat)
    requires k < |items|
  {
    && Bindable(items[k].quantity)
    && (items[k].id in stock ==> Storable(stock[items[k].id] + Demand(items[..k + 1], items[k].id)))
  }

  ghost predicate ReturnsPrefixes(stock: map<ItemId, int>, items: seq<Item>) {
    forall k :: 0 <= k < |items| ==> ReturnsLine(stock, items, k)
  }

  /** The same for giving back, for any list: it completes iff every prefix can be stored. */
  lemma {:induction false} RestorePrefixes(stock: map<ItemId, int>, items: seq<Item>)
    ensures Restore(stock, items).error.None? <==> ReturnsPrefixes(stock, items)
  {
    if items != [] {
      var Item(id, quantity) := items[0];
      assert items[..1] == [items[0]];
      assert Demand(items[..1], id) == quantity;
      assert ReturnsLine(stock, items, 0) <==> Bindable(quantity) && (id in stock ==> Storable(stock[id] + quantity));
      if ReturnsLine(stock, items, 0) {
        var rest := if id in stock then stock[id := stock[id] + quantity] else stock;
        RestorePrefixes(rest, items[1..]);
        forall k | 0 <= k < |items| - 1
          ensures ReturnsLine(rest, items[1..], k) <==> ReturnsLine(stock, items, k + 1)
        {
          assert items[..k + 2] == [items[0]] + items[1..][..k + 1];
          DemandConcat([items[0]], items[1..][..k + 1], items[k + 1].id);
        }
        if ReturnsPrefixes(rest, items[1..]) {
          forall k | 0 <= k < |items| ensures ReturnsLine(stock, items, k) {
            if k > 0 {
              assert ReturnsLine(rest, items[1..], k - 1);
            }
          }
        }
      }
    }
  }

  /** With quantities >= 0 the line-by-line loop decides the aggregated question, and can only stop for shortage. */
  lemma {:induction false} DeductDecision(stock: map<ItemId, int>, items: seq<Item>)
    requires WellStocked(stock) && NonNegative(items)
    ensures Deduct(stock, items).error.None? <==> CanServe(stock, items)
    ensures !(Deduct(stock, items).error.Some? && Deduct(stock, items).error.value.OutOfRange?)
  {
    if items != [] {
      var Item(id, quantity) := items[0];
      var tail := items[1..];
      forall i ensures Demand(tail, i) >= 0 { DemandNonNegative(tail, i); }
      if id in stock && quantity <= stock[id] {
        var rest := stock[id := stock[id] - quantity];
        DeductDecision(rest, tail);
        assert CanServe(rest, tail) ==> CanServe(stock, items);
        if CanServe(stock, items) {
          forall i | i in rest ensures Demand(tail, i) <= rest[i] {
            assert Demand(items, i) <= stock[i];
          }
          forall k | 0 <= k < |tail| ensures tail[k].id in rest {
            assert tail[k] == items[k + 1];
          }
          assert CanServe(rest, tail);
        }
      } else if id in stock {
        assert Demand(items, id) > stock[id];
      }
    }
  }

  /** Giving back what fits always completes. */
  lemma {:induction false} RestoreCompletes(stock: map<ItemId, int>, items: seq<Item>)
    requires WellStocked(stock) && NonNegative(items) && AllStocked(stock, items)
    ensures Restore(stock, items).error.None? <==> forall id :: id in stock ==> stock[id] + Demand(items, id) <= INT_MAX
  {
    if items != [] {
      var Item(id, quantity) := items[0];
      var tail := items[1..];
      forall i ensures Demand(tail, i) >= 0 { DemandNonNegative(tail, i); }
      assert id in stock;
      if stock[id] + quantity <= INT_MAX {
        var rest := stock[id := stock[id] + quantity];
        RestoreCompletes(rest, tail);
        assert forall i :: i in stock ==> rest[i] + Demand(tail, i) == stock[i] + Demand(items, i);
      } else {
        assert stock[id] + Demand(items, id) > INT_MAX;
      }
    }
  }

  function Without(items: seq<Item>, k: nat): seq<Item>
    requires k < |items|
  {
    items[..k] + items[k + 1..]
  }

  lemma DemandWithout(items: seq<Item>, k: nat, id: ItemId)
    requires k < |items|
    ensures Demand(items, id) == Demand(Without(items, k), id) + (if items[k].id == id then items[k].quantity else 0)
  {
    assert items == items[..k] + items[k..];
    DemandConcat(items[..k], items[k..], id);
    DemandConcat(items[..k], items[k + 1..], id);
  }

  lemma MultisetWithout(items: seq<Item>, k: nat)
    requires k < |items|
    ensures multiset(Without(items, k)) == multiset(items) - multiset{items[k]}
  {
    assert items == items[..k] + [items[k]] + items[k + 1..];
  }

  /** Demand does not depend on the order of the lines. */
  lemma {:induction false} DemandPermuted(items: seq<Item>, items': seq<Item>, id: ItemId)
    requires multiset(items) == multiset(items')
    ensures Demand(items, id) == Demand(items', id)
    decreases |items|
  {
    if items == [] {
      assert |multiset(items')| == 0;
    } else {
      assert items[0] in multiset(items');
      var k :| 0 <= k < |items'| && items'[k] == items[0];
      MultisetWithout(items, 0);
      MultisetWithout(items', k);
      DemandPermuted(Without(items, 0), Without(items', k), id);
      DemandWithout(items, 0, id);
      DemandWithout(items', k, id);
    }
  }

  /** With quantities >= 0, permuting the lines changes neither the verdict nor the stock left. */
  lemma DeductPermuted(stock: map<ItemId, int>, items: seq<Item>, items': seq<Item>)
    requires WellStocked(stock) && NonNegative(items)
    requires multiset(items) == multiset(items')
    ensures Deduct(stock, items).error.None? <==> Deduct(stock, items').error.None?
    ensures Deduct(stock, items).error.None? ==> Deduct(stock, items').stock == Deduct(stock, items).stock
  {
    forall k | 0 <= k < |items'| ensures items'[k] in items { assert items'[k] in multiset(items'); }
    forall k | 0 <= k < |items| ensures items[k] in items' { assert items[k] in multiset(items); }
    forall id ensures Demand(items, id) == Demand(items', id) { DemandPermuted(items, items', id); }
    DeductDecision(stock, items);
    DeductDecision(stock, items');
    assert AllStocked(stock, items) <==> AllStocked(stock, items');
    if Deduct(stock, items).error.None? {
      DeductEffect(stock, items);
      DeductEffect(stock, items');
    }
  }

  // ---------- order of the lines, signed quantities included ----------

  function Positives(items: seq<Item>): seq<Item> {
    if items == [] then []
    else (if items[0].quantity >= 0 then [items[0]] else []) + Positives(items[1..])
  }

  function Negatives(items: seq<Item>): seq<Item> {
    if items == [] then []
    else (if items[0].quantity < 0 then [items[0]] else []) + Negatives(items[1..])
  }

  /**
   Whether the lines can be served in whatever order they come: each names a stocked item and a quantity
   of the column's range, the positive lines of an item together are in stock, and its negative lines
   together do not lift it out of range.
   */
  ghost predicate FitsAnyOrder(stock: map<ItemId, int>, items: seq<Item>) {
    && AllStocked(stock, items)
    && (forall k :: 0 <= k < |items| ==> items[k].quantity >= INT_MIN)
    && forall id :: id in stock ==>
         Demand(Positives(items), id) <= stock[id] && stock[id] - Demand(Negatives(items), id) <= INT_MAX
  }

  lemma {:induction false} SignedParts(items: seq<Item>)
    ensures multiset(Positives(items)) + multiset(Negatives(items)) == multiset(items)
    ensures forall x :: multiset(Positives(items))[x] == if x.quantity >= 0 then multiset(items)[x] else 0
    ensures forall x :: multiset(Negatives(items))[x] == if x.quantity < 0 then multiset(items)[x] else 0
  {
    if items != [] {
      SignedParts(items[1..]);
      assert items == [items[0]] + items[1..];
    }
  }

  lemma SignedStep(items: seq<Item>, id: ItemId)
    requires items != []
    ensures var Item(x, quantity) := items[0];
      && Demand(Positives(items), id) == Demand(Positives(items[1..]), id) + (if quantity >= 0 && x == id then quantity else 0)
      && Demand(Negatives(items), id) == Demand(Negatives(items[1..]), id) + (if quantity < 0 && x == id then quantity else 0)
  {
    var up, down := Positives(items[1..]), Negatives(items[1..]);
    assert [] + up == up && [] + down == down;
    assert ([items[0]] + up)[1..] == up && ([items[0]] + down)[1..] == down;
  }

  lemma {:induction false} SignedDemand(items: seq<Item>, id: ItemId)
    ensures Demand(Negatives(items), id) <= 0 <= Demand(Positives(items), id)
  {
    if items != [] {
      SignedDemand(items[1..], id);
      SignedStep(items, id);
    }
  }

  lemma SameParts(items: seq<Item>, items': seq<Item>)
    requires multiset(items) == multiset(items')
    ensures multiset(Positives(items)) == multiset(Positives(items'))
    ensures multiset(Negatives(items)) == multiset(Negatives(items'))
  {
    SignedParts(items);
    SignedParts(items');
    forall x
      ensures multiset(Positives(items))[x] == multiset(Positives(items'))[x]
      ensures multiset(Negatives(items))[x] == multiset(Negatives(items'))[x]
    {
    }
  }

  lemma SignedPermuted(items: seq<Item>, items': seq<Item>, id: ItemId)
    requires multiset(items) == multiset(items')
    ensures Demand(Positives(items'), id) == Demand(Positives(items), id)
    ensures Demand(Negatives(items'), id) == Demand(Negatives(items), id)
  {
    SameParts(items, items');
    DemandPermuted(Positives(items), Positives(items'), id);
    DemandPermuted(Negatives(items), Negatives(items'), id);
  }

  lemma FitsPermuted(stock: map<ItemId, int>, items: seq<Item>, items': seq<Item>)
    requires FitsAnyOrder(stock, items) && multiset(items) == multiset(items')
    ensures FitsAnyOrder(stock, items')
  {
    forall k | 0 <= k < |items'| ensures items'[k].id in stock && items'[k].quantity >= INT_MIN {
      assert items'[k] in multiset(items');
      assert items'[k] in items;
    }
    forall id | id in stock
      ensures Demand(Positives(items'), id) <= stock[id] && stock[id] - Demand(Negatives(items'), id) <= INT_MAX
    {
      SignedPermuted(items, items', id);
    }
  }

  /** Serving the first line leaves a stock the other lines fit in any order. */
  lemma FitsTail(stock: map<ItemId, int>, items: seq<Item>)
    requires WellStocked(stock) && items != [] && FitsAnyOrder(stock, items)
    ensures var Item(id, quantity) := items[0];
      && Bindable(quantity) && Storable(stock[id] - quantity)
      && FitsAnyOrder(stock[id := stock[id] - quantity], items[1..])
  {
    var Item(id, quantity) := items[0];
    var tail := items[1..];
    SignedDemand(tail, id);
    SignedStep(items, id);
    var rest := stock[id := stock[id] - quantity];
    forall x | x in rest ensures Demand(Positives(tail), x) <= rest[x] && rest[x] - Demand(Negatives(tail), x) <= INT_MAX {
      SignedStep(items, x);
    }
    forall k | 0 <= k < |tail| ensures tail[k].id in rest && tail[k].quantity >= INT_MIN {
      assert tail[k] == items[k + 1];
    }
  }

  lemma {:induction false} FitsCompletes(stock: map<ItemId, int>, items: seq<Item>)
    requires WellStocked(stock) && FitsAnyOrder(stock, items)
    ensures Deduct(stock, items).error.None?
  {
    if items != [] {
      FitsTail(stock, items);
      FitsCompletes(stock[items[0].id := stock[items[0].id] - items[0].quantity], items[1..]);
    }
  }

  /** A loop that completes has completed its first part. */
  lemma {:induction false} DeductPart(stock: map<ItemId, int>, a: seq<Item>, b: seq<Item>)
    requires Deduct(stock, a + b).error.None?
    ensures Deduct(stock, a).error.None?
  {
    if a != [] {
      assert (a + b)[1..] == a[1..] + b;
      DeductPart(stock[a[0].id := stock[a[0].id] - a[0].quantity], a[1..], b);
    }
  }

  ghost predicate CompletesInAnyOrder(stock: map<ItemId, int>, items: seq<Item>) {
    forall items' :: multiset(items') == multiset(items) ==> Deduct(stock, items').error.None?
  }

  /** For any list: the loop completes in every order of the lines iff they fit in any order; the stock left is then the same. */
  lemma AnyOrderExactly(stock: map<ItemId, int>, items: seq<Item>)
    requires WellStocked(stock)
    ensures CompletesInAnyOrder(stock, items) <==> FitsAnyOrder(stock, items)
    ensures FitsAnyOrder(stock, items) ==>
              forall items' :: multiset(items') == multiset(items) ==> Deduct(stock, items').stock == Deduct(stock, items).stock
  {
    if FitsAnyOrder(stock, items) {
      forall items' | multiset(items') == multiset(items)
        ensures Deduct(stock, items').error.None? && Deduct(stock, items').stock == Deduct(stock, items).stock
      {
        AnyOrderSame(stock, items, items');
      }
    }
    if CompletesInAnyOrder(stock, items) {
      WorstOrders(stock, items);
    }
  }

  lemma AnyOrderSame(stock: map<ItemId, int>, items: seq<Item>, items': seq<Item>)
    requires WellStocked(stock) && FitsAnyOrder(stock, items) && multiset(items') == multiset(items)
    ensures Deduct(stock, items').error.None? && Deduct(stock, items').stock == Deduct(stock, items).stock
  {
    FitsPermuted(stock, items, items');
    FitsCompletes(stock, items);
    FitsCompletes(stock, items');
    SameLeft(stock, items, items');
  }

  lemma SameLeft(stock: map<ItemId, int>, items: seq<Item>, items': seq<Item>)
    requires Deduct(stock, items).error.None? && Deduct(stock, items').error.None? && multiset(items') == multiset(items)
    ensures Deduct(stock, items').stock == Deduct(stock, items).stock
  {
    DeductEffect(stock, items);
    DeductEffect(stock, items');
    forall id ensures Demand(items, id) == Demand(items', id) { DemandPermuted(items, items', id); }
  }

  /** The two orders that decide: all positive lines first, and all negative lines first. */
  lemma WorstOrders(stock: map<ItemId, int>, items: seq<Item>)
    requires WellStocked(stock) && CompletesInAnyOrder(stock, items)
    ensures FitsAnyOrder(stock, items)
  {
    var up, down := Positives(items), Negatives(items);
    SignedParts(items);
    assert multiset(up + down) == multiset(items) && multiset(down + up) == multiset(items);
    DeductPart(stock, up, down);
    DeductPart(stock, down, up);
    DeductEffect(stock, items);
    DeductEffect(stock, up);
    DeductEffect(stock, down);
    DeductPrefixes(stock, items);
    forall k | 0 <= k < |items| ensures items[k].quantity >= INT_MIN {
      assert ServesLine(stock, items, k);
    }
  }

  /** The order does matter for lines that fit in some orders only: a negative line placed first makes room for a later one. */
  lemma DeductOrderMattersWhenSigned(id: ItemId)
    ensures var stock := map[id := 0];
      && Deduct(stock, [Item(id, -3), Item(id, 3)]).error.None?
      && Deduct(stock, [Item(id, 3), Item(id, -3)]).error == Some(Insufficient(id, 3, 0))
  {
    var stock := map[id := 0];
    assert Deduct(stock[id := 3], [Item(id, 3)]).error.None? by {
      assert Deduct(stock[id := 3][id := 0], []).error.None?;
      assert [Item(id, 3)][1..] == [];
    }
    assert [Item(id, -3), Item(id, 3)][1..] == [Item(id, 3)];
  }

  lemma HeldAdd(reservations: map<OrderId, seq<Item>>, o: OrderId, items: seq<Item>, id: ItemId)
    requires o !in reservations
    ensures Held(reservations[o := items], id) == Held(reservations, id) + Demand(items, id)
  {
    assert Demands(reservations[o := items], id) == Demands(reservations, id)[o := Demand(items, id)];
    SumUpdate(Demands(reservations, id), o, Demand(items, id));
  }

  lemma HeldRemove(reservations: map<OrderId, seq<Item>>, o: OrderId, id: ItemId)
    requires o in reservations
    ensures Held(reservations - {o}, id) == Held(reservations, id) - Demand(reservations[o], id)
  {
    assert Demands(reservations - {o}, id) == Demands(reservations, id) - {o};
    SumRemove(Demands(reservations, id), o);
  }

  /** One reservation is part of what is held. */
  lemma HeldCovers(reservations: map<OrderId, seq<Item>>, o: OrderId, id: ItemId)
    requires o in reservations && forall x :: x in reservations ==> NonNegative(reservations[x])
    ensures Demand(reservations[o], id) <= Held(reservations, id)
  {
    var m := Demands(reservations, id);
    forall x | x in m ensures m[x] >= 0 {
      DemandNonNegative(reservations[x], id);
    }
    SumSplit(m.Keys, m, o);
    SumNonNegative(m.Keys - {o}, m);
  }
}
