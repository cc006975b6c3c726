/**
 Releasing an order undoes its reservation even though other orders come and go in between: what is
 left is what the others alone would have left.
 */
module Compensation {
  import opened Events
  import opened Stock
  import R = RestaurantService

  datatype Tables = Tables(stock: map<ItemId, int>, reservations: map<OrderId, seq<Item>>)

  datatype Op =
    | Take(order: OrderId, items: seq<Item>)
    | Give(order: OrderId)

  /** reserve_stock or release_stock in a transaction of its own: the tables afterwards, and whether it did anything. */
  function Perform(t: Tables, op: Op): (Tables, bool) {
    match op
    case Take(o, items) =>
      (match R.Reserve(t.stock, t.reservations, o, items)
       case Reserved(stock, reservations) => (Tables(stock, reservations), true)
       case _ => (t, false))
    case Give(o) =>
      if o !in t.reservations then (t, false)
      else
        var back := Restore(t.stock, t.reservations[o]);
        if back.error.Some? then (t, false) else (Tables(back.stock, t.reservations - {o}), true)
  }

  function TablesOf(db: R.RestaurantDb): Tables {
    Tables(db.stock, db.reservations)
  }

  /** These are the handler's transactions on a new event, as far as the two tables go. */
  lemma HandlerPerforms(db: R.RestaurantDb, e: Envelope, now: int)
    requires e.id !in db.processed
    ensures e.topic == OrderPlaced && e.body.OrderBody? ==>
              TablesOf(R.Handle(db, e, now).db) == Perform(TablesOf(db), Take(e.order, e.body.items)).0
    ensures e.topic == StockRelease ==>
              TablesOf(R.Handle(db, e, now).db) == Perform(TablesOf(db), Give(e.order)).0
  {
  }

  function Run(t: Tables, ops: seq<Op>): Tables
    decreases |ops|
  {
    if ops == [] then t else Run(Perform(t, ops[0]).0, ops[1..])
  }

  function Accepted(t: Tables, ops: seq<Op>): seq<bool>
    decreases |ops|
  {
    if ops == [] then [] else [Perform(t, ops[0]).1] + Accepted(Perform(t, ops[0]).0, ops[1..])
  }

  /** The stock of every item changed by a multiple of what a list asks for. */
  function Shifted(stock: map<ItemId, int>, items: seq<Item>, sign: int): map<ItemId, int> {
    map id | id in stock :: stock[id] + sign * Demand(items, id)
  }

  /** What an operation does when it does something. */
  lemma PerformEffect(t: Tables, op: Op)
    requires Perform(t, op).1
    ensures op.Give? ==> op.order in t.reservations
    ensures Perform(t, op).0 ==
              match op
              case Take(o, items) => Tables(Shifted(t.stock, items, -1), t.reservations[o := items])
              case Give(o) => Tables(Shifted(t.stock, t.reservations[o], 1), t.reservations - {o})
  {
    match op
    case Take(o, items) => DeductEffect(t.stock, items);
    case Give(o) => RestoreEffect(t.stock, t.reservations[o]);
  }

  /** The same tables, except that one more order holds its items. */
  ghost predicate Holding(t: Tables, t': Tables, o: OrderId, items: seq<Item>) {
    && o !in t.reservations
    && t'.reservations == t.reservations[o := items]
    && t'.stock == Shifted(t.stock, items, -1)
  }

  lemma PerformBeside(t: Tables, t': Tables, o: OrderId, items: seq<Item>, op: Op)
    requires Holding(t, t', o, items) && op.order != o && Perform(t, op).1 == Perform(t', op).1
    ensures Holding(Perform(t, op).0, Perform(t', op).0, o, items)
  {
    if Perform(t, op).1 {
      PerformEffect(t, op);
      PerformEffect(t', op);
      if op.Give? {
        assert t'.reservations[op.order] == t.reservations[op.order];
        assert t'.reservations - {op.order} == (t.reservations - {op.order})[o := items];
      } else {
        assert t'.reservations[op.order := op.items] == t.reservations[op.order := op.items][o := items];
      }
    }
  }

  lemma {:induction false} RunBeside(t: Tables, t': Tables, o: OrderId, items: seq<Item>, ops: seq<Op>)
    requires Holding(t, t', o, items)
    requires forall k :: 0 <= k < |ops| ==> ops[k].order != o
    requires Accepted(t, ops) == Accepted(t', ops)
    ensures Holding(Run(t, ops), Run(t', ops), o, items)
    decreases |ops|
  {
    if ops != [] {
      var next, next' := Perform(t, ops[0]).0, Perform(t', ops[0]).0;
      assert Accepted(t, ops)[0] == Accepted(t', ops)[0];
      assert Accepted(t, ops)[1..] == Accepted(next, ops[1..]);
      assert Accepted(t', ops)[1..] == Accepted(next', ops[1..]);
      PerformBeside(t, t', o, items, ops[0]);
      RunBeside(next, next', o, items, ops[1..]);
    }
  }

  lemma GiveBack(t: Tables, t': Tables, o: OrderId, items: seq<Item>)
    requires Holding(t, t', o, items) && Perform(t', Give(o)).1
    ensures Perform(t', Give(o)).0 == t
  {
    PerformEffect(t', Give(o));
    assert t'.reservations - {o} == t.reservations;
    assert Shifted(t'.stock, items, 1) == t.stock;
  }

  lemma TakeHolds(t: Tables, o: OrderId, items: seq<Item>)
    requires Perform(t, Take(o, items)).1
    ensures Holding(t, Perform(t, Take(o, items)).0, o, items)
  {
    PerformEffect(t, Take(o, items));
  }

  /** Nothing a reservation or a release does takes the stock out of range, and no item appears or disappears. */
  lemma {:induction false} RunStocked(t: Tables, ops: seq<Op>)
    requires WellStocked(t.stock)
    ensures WellStocked(Run(t, ops).stock) && Run(t, ops).stock.Keys == t.stock.Keys
    decreases |ops|
  {
    if ops != [] {
      match ops[0]
      case Take(o, items) =>
        if Perform(t, ops[0]).1 {
          DeductEffect(t.stock, items);
        }
        RunStocked(Perform(t, ops[0]).0, ops[1..]);
      case Give(o) =>
        if Perform(t, ops[0]).1 {
          RestoreEffect(t.stock, t.reservations[o]);
        }
        RunStocked(Perform(t, ops[0]).0, ops[1..]);
    }
  }

  /** A release goes through iff what it gives back can be stored line by line. */
  lemma GiveExactly(t: Tables, o: OrderId)
    requires o in t.reservations
    ensures Perform(t, Give(o)).1 <==> ReturnsPrefixes(t.stock, t.reservations[o])
  {
    RestorePrefixes(t.stock, t.reservations[o]);
  }

  /** With quantities >= 0 it always does: without this order there was room for its items. */
  lemma GiveBackFits(t: Tables, t': Tables, o: OrderId, items: seq<Item>)
    requires Holding(t, t', o, items) && WellStocked(t.stock) && WellStocked(t'.stock)
    requires NonNegative(items) && AllStocked(t.stock, items)
    ensures Perform(t', Give(o)).1
  {
    forall id | id in t'.stock ensures t'.stock[id] + Demand(items, id) <= INT_MAX {
      assert t'.stock[id] == t.stock[id] - Demand(items, id);
    }
    RestoreCompletes(t'.stock, items);
  }

  /**
   Reserve an order, let other orders be reserved and released in any way, release the order: provided
   the others get the same answers as they would without it, the release goes through exactly when its
   lines can be given back one by one, in particular whenever its own quantities are >= 0; then the tables
   end up as if the order had never been, and releasing it once more changes nothing. A refused release
   changes nothing either.
   */
  lemma ReleaseUndoesReserve(t: Tables, o: OrderId, items: seq<Item>, ops: seq<Op>)
    requires Perform(t, Take(o, items)).1
    requires forall k :: 0 <= k < |ops| ==> ops[k].order != o
    requires Accepted(t, ops) == Accepted(Perform(t, Take(o, items)).0, ops)
    ensures var held := Run(Perform(t, Take(o, items)).0, ops);
      var (released, ok) := Perform(held, Give(o));
      && (ok <==> ReturnsPrefixes(held.stock, items))
      && (WellStocked(t.stock) && NonNegative(items) ==> ok)
      && (ok ==> released == Run(t, ops) && Perform(released, Give(o)) == (released, false))
      && (!ok ==> released == held)
  {
    var t' := Perform(t, Take(o, items)).0;
    TakeHolds(t, o, items);
    RunBeside(t, t', o, items, ops);
    GiveExactly(Run(t', ops), o);
    if WellStocked(t.stock) && NonNegative(items) {
      DeductEffect(t.stock, items);
      RunStocked(t, ops);
      RunStocked(t', ops);
      GiveBackFits(Run(t, ops), Run(t', ops), o, items);
    }
    if Perform(Run(t', ops), Give(o)).1 {
      GiveBack(Run(t, ops), Run(t', ops), o, items);
    }
  }

  lemma OneLine(item: ItemId, have: int, quantity: int)
    requires Storable(have) && Bindable(quantity)
    ensures Storable(have - quantity) && quantity <= have ==>
              Deduct(map[item := have], [Item(item, quantity)]) == Update(map[item := have - quantity], None)
    ensures have < quantity ==>
              Deduct(map[item := have], [Item(item, quantity)]) == Update(map[item := have], Some(Insufficient(item, quantity, have)))
    ensures !Storable(have + quantity) ==>
              Restore(map[item := have], [Item(item, quantity)]) == Update(map[item := have], Some(OutOfRange(item)))
  {
    assert [Item(item, quantity)][1..] == [];
    assert map[item := have][item := have - quantity] == map[item := have - quantity];
  }

  /** The answers do matter: an order turned away for want of what was later released stays turned away. */
  lemma AnswersMatter(item: ItemId, o: OrderId, p: OrderId)
    requires o != p
    ensures var t := Tables(map[item := 1], map[]);
      var held := Perform(t, Take(o, [Item(item, 1)])).0;
      && Accepted(t, [Take(p, [Item(item, 1)])]) == [true]
      && Accepted(held, [Take(p, [Item(item, 1)])]) == [false]
      && p in Run(t, [Take(p, [Item(item, 1)])]).reservations
      && p !in Run(held, [Take(p, [Item(item, 1)])]).reservations
  {
    OneLine(item, 1, 1);
    OneLine(item, 0, 1);
    assert [Take(p, [Item(item, 1)])][1..] == [];
  }

  /** With negative quantities a release can be refused: what the order put in has since been taken out. */
  lemma NegativeReleaseRefused(item: ItemId, o: OrderId, p: OrderId)
    requires o != p
    ensures var held := Perform(Tables(map[item := 0], map[]), Take(o, [Item(item, -3)])).0;
      var empty := Perform(held, Take(p, [Item(item, 3)])).0;
      && held.stock == map[item := 3] && empty.stock == map[item := 0]
      && o in empty.reservations && Perform(empty, Give(o)) == (empty, false)
  {
    OneLine(item, 0, -3);
    OneLine(item, 3, 3);
  }

  /** Even on its own: what a later line of the same order took back out is not there when the first is given back. */
  lemma MixedReleaseRefused(item: ItemId, o: OrderId)
    ensures var t := Tables(map[item := 0], map[]);
      var items := [Item(item, -5), Item(item, 5)];
      var (held, taken) := Perform(t, Take(o, items));
      taken && held.stock == t.stock && Perform(held, Give(o)) == (held, false)
  {
    var items := [Item(item, -5), Item(item, 5)];
    assert items[1..] == [Item(item, 5)];
    assert map[item := 0][item := 5] == map[item := 5];
    OneLine(item, 5, 5);
    assert Deduct(map[item := 0], items) == Deduct(map[item := 5], items[1..]);
    assert Restore(map[item := 0], items) == Update(map[item := 0], Some(OutOfRange(item)));
  }
}
