/**
 The abstract saga: orders that move along a fixed graph over one shared stock table. Every run of the
 system is a run of this saga with pauses, and every move happens at most once per order.
 */
module Refinement {
  import opened Events
  import opened Stock
  import opened System
  import Views
  import opened Invariant
  import opened Steps
  import O = OrderService

  datatype Saga = Saga(items: seq<Item>, pays: bool, phase: Phase)

  datatype Abstract = Abstract(sagas: map<OrderId, Saga>, stock: map<ItemId, int>)

  function SagaOf(o: OrderId, v: View): Saga
    requires v.order.Some?
  {
    Saga(v.order.value.items, Pays(o, v.order.value), PhaseOf(v))
  }

  function Abstraction(s: State): Abstract {
    Abstract(map o | o in s.orders.orders :: SagaOf(o, ViewOf(s, o)), s.restaurant.stock)
  }

  ghost predicate Begins(a: Abstract, a': Abstract, o: OrderId) {
    && o !in a.sagas
    && o in a'.sagas && a'.sagas[o].phase == Placed
    && a' == a.(sagas := a.sagas[o := a'.sagas[o]])
  }

  /** One move of one saga, with the stock it takes or gives back. */
  ghost predicate Moves(a: Abstract, a': Abstract, o: OrderId) {
    && o in a.sagas && o in a'.sagas
    && var g, p' := a.sagas[o], a'.sagas[o].phase;
    && Edge(g.phase, p', g.pays)
    && a'.sagas == a.sagas[o := g.(phase := p')]
    && match p'
       case Reserved => Deduct(a.stock, g.items) == Update(a'.stock, None)
       case Rejected => a'.stock == a.stock && Deduct(a.stock, g.items).error.Some?
       case Released => Restore(a.stock, g.items) == Update(a'.stock, None)
       case _ => a'.stock == a.stock
  }

  ghost predicate Next(a: Abstract, a': Abstract) {
    a' == a || exists o :: Begins(a, a', o) || Moves(a, a', o)
  }

  /** Losing a handler in flight does not show in the saga. */
  lemma GroundedSaga(o: OrderId, v: View, v': View)
    requires v.order.Some? && SameOrGrounded(v, v')
    ensures v'.order.Some? && SagaOf(o, v') == SagaOf(o, v)
  {
  }

  lemma QuietRefines(s: State, s': State)
    requires Quiet(s, s')
    ensures Abstraction(s') == Abstraction(s)
  {
    forall o | o in s.orders.orders ensures SagaOf(o, ViewOf(s', o)) == SagaOf(o, ViewOf(s, o)) {
      assert SameOrGrounded(ViewOf(s, o), ViewOf(s', o));
      GroundedSaga(o, ViewOf(s, o), ViewOf(s', o));
    }
  }

  /** Orders whose views stay have the same sagas. */
  lemma OthersRefine(s: State, s': State, o: OrderId)
    requires Views.OthersKept(s, s', o)
    ensures var v' := ViewOf(s', o);
      Abstraction(s').sagas == if v'.order.Some? then Abstraction(s).sagas[o := SagaOf(o, v')] else Abstraction(s).sagas - {o}
  {
    forall x | x != o ensures Lookup(Abstraction(s').sagas, x) == Lookup(Abstraction(s).sagas, x) {
      assert ViewOf(s', x) == ViewOf(s, x);
    }
    Views.SameElsewhere(Abstraction(s).sagas, Abstraction(s').sagas, o);
  }

  lemma MoveRefines(a: Abstract, a': Abstract, o: OrderId, v: View, v': View)
    requires Onward(o, v, v') && StockMoved(v, v', a.stock, a'.stock)
    requires if v.order.Some? then o in a.sagas && a.sagas[o] == SagaOf(o, v) else o !in a.sagas
    requires a'.sagas == if v'.order.Some? then a.sagas[o := SagaOf(o, v')] else a.sagas - {o}
    ensures a' == a || Begins(a, a', o) || Moves(a, a', o)
  {
    if v.order.Some? && PhaseOf(v') == PhaseOf(v) {
      assert SagaOf(o, v') == SagaOf(o, v);
      assert a'.sagas == a.sagas;
    }
  }

  lemma EffectRefines(s: State, s': State, o: OrderId)
    requires Views.OthersKept(s, s', o) && Onward(o, ViewOf(s, o), ViewOf(s', o))
    requires StockMoved(ViewOf(s, o), ViewOf(s', o), s.restaurant.stock, s'.restaurant.stock)
    ensures Next(Abstraction(s), Abstraction(s'))
  {
    OthersRefine(s, s', o);
    MoveRefines(Abstraction(s), Abstraction(s'), o, ViewOf(s, o), ViewOf(s', o));
  }

  /** Each concrete step is an abstract move or nothing at all. */
  lemma StepRefines(seed: map<ItemId, int>, s: State, step: Step)
    requires Inv(seed, s) && Enabled(s, step)
    ensures Next(Abstraction(s), Abstraction(Apply(s, step)))
  {
    EnabledGrounded(s, step);
    ShapeOfStep(s, step);
    if Quiet(s, Apply(s, step)) {
      QuietRefines(s, Apply(s, step));
    } else {
      EffectRefines(s, Apply(s, step), Subject(step).value);
    }
  }

  /** The abstract states a run passes through. */
  ghost function Trace(s: State, steps: seq<Step>): seq<Abstract>
    requires Valid(s, steps)
    decreases |steps|
  {
    [Abstraction(s)] + (if steps == [] then [] else Trace(Apply(s, steps[0]), steps[1..]))
  }

  ghost predicate AbstractRun(trace: seq<Abstract>) {
    && trace != []
    && forall i :: 0 <= i < |trace| - 1 ==> Next(trace[i], trace[i + 1])
  }

  lemma {:induction false} TraceRefines(seed: map<ItemId, int>, s: State, steps: seq<Step>)
    requires Inv(seed, s) && Valid(s, steps)
    ensures AbstractRun(Trace(s, steps))
    ensures Trace(s, steps)[0] == Abstraction(s)
    ensures Trace(s, steps)[|Trace(s, steps)| - 1] == Abstraction(Run(s, steps))
    decreases |steps|
  {
    if steps != [] {
      var s', rest := Apply(s, steps[0]), steps[1..];
      StepKeeps(seed, s, steps[0]);
      TraceRefines(seed, s', rest);
      StepRefines(seed, s, steps[0]);
      var trace := Trace(s, steps);
      assert trace[1..] == Trace(s', rest);
      forall i | 0 <= i < |trace| - 1 ensures Next(trace[i], trace[i + 1]) {
        if i > 0 {
          assert trace[i] == Trace(s', rest)[i - 1];
        }
      }
    }
  }

  /** The refinement: from the seeded state, every run is a run of the abstract saga that starts with no orders. */
  lemma SystemRefinesSaga(seed: map<ItemId, int>, steps: seq<Step>)
    requires WellStocked(seed) && Valid(Init(seed), steps)
    ensures AbstractRun(Trace(Init(seed), steps))
    ensures Trace(Init(seed), steps)[0] == Abstract(map[], seed)
    ensures Trace(Init(seed), steps)[|Trace(Init(seed), steps)| - 1] == Abstraction(Run(Init(seed), steps))
  {
    InitInv(seed);
    TraceRefines(seed, Init(seed), steps);
  }

  // ---------- at most once ----------

  /** How far along the saga a phase is. */
  function Rank(p: Phase): nat {
    match p
    case Placed => 0
    case Reserved => 1
    case Rejected => 1
    case Processing => 2
    case Unavailable => 2
    case Charged => 3
    case Declined => 3
    case Confirmed => 4
    case Failed => 4
    case Released => 5
  }

  predicate In(s: State, o: OrderId, p: Phase) {
    o in s.orders.orders && PhaseOf(ViewOf(s, o)) == p
  }

  /** How often a run takes an order into a phase. */
  ghost function Entries(s: State, steps: seq<Step>, o: OrderId, p: Phase): nat
    requires Valid(s, steps)
    decreases |steps|
  {
    if steps == [] then 0
    else
      var s' := Apply(s, steps[0]);
      (if In(s', o, p) && !In(s, o, p) then 1 else 0) + Entries(s', steps[1..], o, p)
  }

  /** Phases only move up in rank, and at the same rank they stay. */
  predicate Later(p: Phase, p': Phase) {
    Rank(p) < Rank(p') || p == p'
  }

  lemma ViewLater(o: OrderId, v: View, v': View)
    requires Onward(o, v, v') && v.order.Some?
    ensures v'.order.Some? && Later(PhaseOf(v), PhaseOf(v'))
  {
  }

  predicate Past(s: State, o: OrderId, p: Phase) {
    o in s.orders.orders && Rank(PhaseOf(ViewOf(s, o))) >= Rank(p)
  }

  lemma StepPast(seed: map<ItemId, int>, s: State, step: Step, o: OrderId, p: Phase)
    requires Inv(seed, s) && Enabled(s, step) && Past(s, o, p)
    ensures Inv(seed, Apply(s, step)) && Past(Apply(s, step), o, p)
    ensures In(Apply(s, step), o, p) ==> In(s, o, p)
  {
    StepKeeps(seed, s, step);
    ViewLater(o, ViewOf(s, o), ViewOf(Apply(s, step), o));
  }

  /** Once an order has come as far as a phase, no run takes it there again. */
  lemma {:induction false} NeverAgain(seed: map<ItemId, int>, s: State, steps: seq<Step>, o: OrderId, p: Phase)
    requires Inv(seed, s) && Valid(s, steps) && Past(s, o, p)
    ensures Entries(s, steps, o, p) == 0
    decreases |steps|
  {
    if steps != [] {
      StepPast(seed, s, steps[0], o, p);
      NeverAgain(seed, Apply(s, steps[0]), steps[1..], o, p);
    }
  }

  lemma {:induction false} AtMostOnce(seed: map<ItemId, int>, s: State, steps: seq<Step>, o: OrderId, p: Phase)
    requires Inv(seed, s) && Valid(s, steps)
    ensures Entries(s, steps, o, p) <= 1
    decreases |steps|
  {
    if steps != [] {
      var s' := Apply(s, steps[0]);
      StepKeeps(seed, s, steps[0]);
      AtMostOnce(seed, s', steps[1..], o, p);
      if In(s', o, p) {
        NeverAgain(seed, s', steps[1..], o, p);
      }
    }
  }

  /** In particular an order is reserved at most once in its life, released or not, and released at most once. */
  lemma ReservedOnceReleasedOnce(seed: map<ItemId, int>, steps: seq<Step>, o: OrderId)
    requires WellStocked(seed) && Valid(Init(seed), steps)
    ensures Entries(Init(seed), steps, o, Reserved) <= 1 && Entries(Init(seed), steps, o, Released) <= 1
  {
    InitInv(seed);
    AtMostOnce(seed, Init(seed), steps, o, Reserved);
    AtMostOnce(seed, Init(seed), steps, o, Released);
  }

  /** An order that ends up unavailable holds no reservation at any point of the run. */
  lemma UnavailableNeverReserved(seed: map<ItemId, int>, s: State, steps: seq<Step>, o: OrderId)
    requires Inv(seed, s) && Valid(s, steps)
    requires In(Run(s, steps), o, Unavailable)
    ensures o !in s.restaurant.reservations
  {
    assert Consistent(o, ViewOf(s, o));
    if o in s.restaurant.reservations {
      NotBackFrom(seed, s, steps, o);
    }
  }

  /** No run leads from a reservation to unavailability. */
  lemma {:induction false} NotBackFrom(seed: map<ItemId, int>, s: State, steps: seq<Step>, o: OrderId)
    requires Inv(seed, s) && Valid(s, steps)
    requires o in s.orders.orders && Beyond(PhaseOf(ViewOf(s, o)))
    ensures !In(Run(s, steps), o, Unavailable)
    decreases |steps|
  {
    if steps != [] {
      var s' := Apply(s, steps[0]);
      StepKeeps(seed, s, steps[0]);
      OnwardBeyond(s, s', o);
      NotBackFrom(seed, s', steps[1..], o);
    }
  }

  /** The phases an order passes once it has been reserved. */
  predicate Beyond(p: Phase) {
    p !in {Placed, Rejected, Unavailable}
  }

  lemma OnwardBeyond(s: State, s': State, o: OrderId)
    requires AllOnward(s, s') && o in s.orders.orders && Beyond(PhaseOf(ViewOf(s, o)))
    ensures o in s'.orders.orders && Beyond(PhaseOf(ViewOf(s', o)))
  {
    assert Onward(o, ViewOf(s, o), ViewOf(s', o));
  }
}
