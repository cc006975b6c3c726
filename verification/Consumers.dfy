/**
 What the three consumers have in common: batches fetched from the last committed offset, attempts that
 may fail, offsets committed for the whole batch, and handlers that consult a ledger before they act.
 */
module Consumers {
  import opened Events

  /** One attempt at a message; `halts` is the payment handler getting no further than its first transaction. */
  datatype Delivery = Delivery(e: Envelope, now: int, halts: bool)

  function Fold<Db>(step: (Db, Delivery) -> Db, db: Db, ds: seq<Delivery>): Db {
    if ds == [] then db
    else step(Fold(step, db, ds[..|ds| - 1]), ds[|ds| - 1])
  }

  lemma {:induction false} FoldConcat<Db>(step: (Db, Delivery) -> Db, db: Db, a: seq<Delivery>, b: seq<Delivery>)
    ensures Fold(step, db, a + b) == Fold(step, Fold(step, db, a), b)
  {
    if b == [] {
      assert a + b == a;
    } else {
      var n := |b| - 1;
      assert (a + b)[..|a| + n] == a + b[..n];
      FoldConcat(step, db, a, b[..n]);
    }
  }

  lemma FoldOne<Db>(step: (Db, Delivery) -> Db, db: Db, ds: seq<Delivery>, d: Delivery)
    ensures Fold(step, db, ds + [d]) == step(Fold(step, db, ds), d)
  {
    assert (ds + [d])[..|ds|] == ds;
  }

  // ---------- first occurrences ----------

  predicate Occurs(ds: seq<Delivery>, id: EventId) {
    exists k :: 0 <= k < |ds| && ds[k].e.id == id
  }

  /** The schedule with every repeated delivery of an event left out. */
  function FirstOccurrences(ds: seq<Delivery>): seq<Delivery> {
    if ds == [] then []
    else
      var before, d := ds[..|ds| - 1], ds[|ds| - 1];
      FirstOccurrences(before) + (if Occurs(before, d.e.id) then [] else [d])
  }

  /** Delivery j is the first of its event. */
  ghost predicate IsFirst(ds: seq<Delivery>, j: nat) {
    j < |ds| && !Occurs(ds[..j], ds[j].e.id)
  }

  /** Where the deliveries that are kept stood in the schedule. */
  ghost function FirstPlaces(ds: seq<Delivery>): seq<nat> {
    if ds == [] then []
    else
      var n := |ds| - 1;
      FirstPlaces(ds[..n]) + (if IsFirst(ds, n) then [n] else [])
  }

  /** What is kept is each event's first delivery, in the order of the schedule, and nothing else. */
  ghost predicate KeepsFirsts(ds: seq<Delivery>, kept: seq<Delivery>, places: seq<nat>) {
    && |places| == |kept|
    && (forall k :: 0 <= k < |kept| ==> IsFirst(ds, places[k]) && kept[k] == ds[places[k]])
    && (forall k, l :: 0 <= k < l < |kept| ==> places[k] < places[l])
    && forall j: nat :: IsFirst(ds, j) ==> j in places
  }

  lemma IsFirstNext(ds: seq<Delivery>, d: Delivery, j: nat)
    ensures IsFirst(ds + [d], j) <==> if j < |ds| then IsFirst(ds, j) else j == |ds| && !Occurs(ds, d.e.id)
  {
    if j <= |ds| {
      assert (ds + [d])[..j] == ds[..j];
    }
    assert ds[..|ds|] == ds;
  }

  lemma FirstsNext(ds: seq<Delivery>, d: Delivery, kept: seq<Delivery>, places: seq<nat>)
    requires KeepsFirsts(ds, kept, places)
    ensures if Occurs(ds, d.e.id) then KeepsFirsts(ds + [d], kept, places) else KeepsFirsts(ds + [d], kept + [d], places + [|ds|])
  {
    forall j: nat ensures IsFirst(ds + [d], j) <==> if j < |ds| then IsFirst(ds, j) else j == |ds| && !Occurs(ds, d.e.id) {
      IsFirstNext(ds, d, j);
    }
  }

  lemma {:induction false} FirstOccurrencesExactly(ds: seq<Delivery>)
    ensures KeepsFirsts(ds, FirstOccurrences(ds), FirstPlaces(ds))
  {
    if ds != [] {
      var n := |ds| - 1;
      FirstOccurrencesExactly(ds[..n]);
      FirstsNext(ds[..n], ds[n], FirstOccurrences(ds[..n]), FirstPlaces(ds[..n]));
      assert ds == ds[..n] + [ds[n]];
    }
  }

  /** Delivering an event again changes nothing, at any point of the schedule. */
  ghost predicate RepeatsIdle<Db>(step: (Db, Delivery) -> Db, db: Db, ds: seq<Delivery>) {
    forall j :: 0 <= j < |ds| ==> RepeatIdle(step, db, ds, j)
  }

  ghost predicate RepeatIdle<Db>(step: (Db, Delivery) -> Db, db: Db, ds: seq<Delivery>, j: nat)
    requires j < |ds|
  {
    Occurs(ds[..j], ds[j].e.id) ==> step(Fold(step, db, ds[..j]), ds[j]) == Fold(step, db, ds[..j])
  }

  lemma {:induction false} OnceSuffices<Db>(step: (Db, Delivery) -> Db, db: Db, ds: seq<Delivery>)
    requires RepeatsIdle(step, db, ds)
    ensures Fold(step, db, ds) == Fold(step, db, FirstOccurrences(ds))
  {
    if ds != [] {
      var n := |ds| - 1;
      forall j | 0 <= j < n ensures RepeatIdle(step, db, ds[..n], j) {
        assert RepeatIdle(step, db, ds, j);
        assert ds[..n][..j] == ds[..j];
      }
      OnceSuffices(step, db, ds[..n]);
      assert RepeatIdle(step, db, ds, n);
      FoldOne(step, db, FirstOccurrences(ds[..n]), ds[n]);
      assert FirstOccurrences(ds[..n]) + [] == FirstOccurrences(ds[..n]);
    }
  }

  /** An id belongs to one event. */
  ghost predicate IdsIdentify(ds: seq<Delivery>) {
    forall i, j :: 0 <= i < |ds| && 0 <= j < |ds| && ds[i].e.id == ds[j].e.id ==> ds[i].e == ds[j].e
  }

  /** In every state a schedule can reach, an event that has been delivered is idle: delivering it does nothing, now or later. */
  ghost predicate Idempotent<Db(!new)>(step: (Db, Delivery) -> Db, inv: Db -> bool, idle: (Db, Envelope) -> bool, ds: seq<Delivery>) {
    && (forall db, d :: inv(db) && d in ds ==> inv(step(db, d)) && idle(step(db, d), d.e))
    && (forall db, d, e :: inv(db) && d in ds && idle(db, e) ==> idle(step(db, d), e))
    && (forall db, d :: inv(db) && d in ds && idle(db, d.e) ==> step(db, d) == db)
  }

  lemma {:induction false} DeliveredIsIdle<Db(!new)>(step: (Db, Delivery) -> Db, inv: Db -> bool, idle: (Db, Envelope) -> bool,
                                                     db: Db, ds: seq<Delivery>, n: nat)
    requires inv(db) && Idempotent(step, inv, idle, ds) && n <= |ds|
    ensures inv(Fold(step, db, ds[..n]))
    ensures forall k :: 0 <= k < n ==> idle(Fold(step, db, ds[..n]), ds[k].e)
  {
    if n > 0 {
      DeliveredIsIdle(step, inv, idle, db, ds, n - 1);
      assert ds[..n][..n - 1] == ds[..n - 1];
    }
  }

  lemma ExactlyOnce<Db(!new)>(step: (Db, Delivery) -> Db, inv: Db -> bool, idle: (Db, Envelope) -> bool, db: Db, ds: seq<Delivery>)
    requires inv(db) && Idempotent(step, inv, idle, ds) && IdsIdentify(ds)
    ensures Fold(step, db, ds) == Fold(step, db, FirstOccurrences(ds))
  {
    forall j | 0 <= j < |ds| ensures RepeatIdle(step, db, ds, j) {
      DeliveredIsIdle(step, inv, idle, db, ds, j);
      if Occurs(ds[..j], ds[j].e.id) {
        var k :| 0 <= k < j && ds[..j][k].e.id == ds[j].e.id;
        assert ds[k].e == ds[j].e;
      }
    }
    OnceSuffices(step, db, ds);
  }

  // ---------- batches and offsets ----------

  /** How one attempt at a message went: to the end, through the payment handler's first transaction only, or rolled back and passed over. */
  datatype Result = Finished | Halted | Undone

  /** The next message of a partition is attempted. */
  datatype Try = Try(part: nat, result: Result, now: int)

  /** One turn of the polling loop: the attempts it makes, and whether the process lives to commit the offsets. */
  datatype Round = Round(tries: seq<Try>, survives: bool)

  /** One offset per partition. */
  predicate Within(logs: seq<seq<Envelope>>, offsets: seq<nat>) {
    && |offsets| == |logs|
    && forall p :: 0 <= p < |logs| ==> offsets[p] <= |logs[p]|
  }

  predicate HasNext(logs: seq<seq<Envelope>>, offsets: seq<nat>, p: nat)
    requires |offsets| == |logs|
  {
    p < |logs| && offsets[p] < |logs[p]|
  }

  /** The partition moves on to its next message, whether or not the handler raised. */
  function Passed(logs: seq<seq<Envelope>>, at: seq<nat>, t: Try): (next: seq<nat>)
    requires Within(logs, at)
    ensures Within(logs, next)
  {
    if HasNext(logs, at, t.part) then at[t.part := at[t.part] + 1] else at
  }

  /** The handler run of one attempt, if it is not rolled back. */
  function Delivered(logs: seq<seq<Envelope>>, at: seq<nat>, t: Try): seq<Delivery>
    requires Within(logs, at)
  {
    if HasNext(logs, at, t.part) && t.result != Undone
    then [Delivery(logs[t.part][at[t.part]], t.now, t.result == Halted)]
    else []
  }

  /** Where the reading stands after some attempts. */
  function Advance(logs: seq<seq<Envelope>>, at: seq<nat>, tries: seq<Try>): (next: seq<nat>)
    requires Within(logs, at)
    ensures Within(logs, next)
  {
    if tries == [] then at else Passed(logs, Advance(logs, at, tries[..|tries| - 1]), tries[|tries| - 1])
  }

  /** The handler runs of some attempts. */
  function Deliveries(logs: seq<seq<Envelope>>, at: seq<nat>, tries: seq<Try>): seq<Delivery>
    requires Within(logs, at)
  {
    if tries == [] then []
    else
      var before, t := tries[..|tries| - 1], tries[|tries| - 1];
      Deliveries(logs, at, before) + Delivered(logs, Advance(logs, at, before), t)
  }

  /** Everything attempted is committed, whatever became of it; nothing is committed by a process that died. */
  function Next(logs: seq<seq<Envelope>>, at: seq<nat>, r: Round): (next: seq<nat>)
    requires Within(logs, at)
    ensures Within(logs, next)
  {
    if r.survives then Advance(logs, at, r.tries) else at
  }

  function Offsets(logs: seq<seq<Envelope>>, from: seq<nat>, rounds: seq<Round>): (offsets: seq<nat>)
    requires Within(logs, from)
    ensures Within(logs, offsets)
  {
    if rounds == [] then from
    else Next(logs, Offsets(logs, from, rounds[..|rounds| - 1]), rounds[|rounds| - 1])
  }

  /** All handler runs of the loop, with those repeated after each death of the process. */
  function Schedule(logs: seq<seq<Envelope>>, from: seq<nat>, rounds: seq<Round>): seq<Delivery>
    requires Within(logs, from)
  {
    if rounds == [] then []
    else
      var before := rounds[..|rounds| - 1];
      Schedule(logs, from, before) + Deliveries(logs, Offsets(logs, from, before), rounds[|rounds| - 1].tries)
  }

  /** The attempts behind the handler runs of one turn, one for each run. */
  function Origins(logs: seq<seq<Envelope>>, at: seq<nat>, tries: seq<Try>): seq<Try>
    requires Within(logs, at)
  {
    if tries == [] then []
    else
      var before, t := tries[..|tries| - 1], tries[|tries| - 1];
      Origins(logs, at, before) + if HasNext(logs, Advance(logs, at, before), t.part) && t.result != Undone then [t] else []
  }

  /** The attempts behind the handler runs of the loop. */
  function ScheduleOrigins(logs: seq<seq<Envelope>>, from: seq<nat>, rounds: seq<Round>): seq<Try>
    requires Within(logs, from)
  {
    if rounds == [] then []
    else
      var before := rounds[..|rounds| - 1];
      ScheduleOrigins(logs, from, before) + Origins(logs, Offsets(logs, from, before), rounds[|rounds| - 1].tries)
  }

  /** A handler run stops early exactly when its attempt did, at that attempt's time, on a message of its partition. */
  ghost predicate RunOf(logs: seq<seq<Envelope>>, d: Delivery, t: Try) {
    && t.result != Undone
    && (d.halts <==> t.result == Halted)
    && d.now == t.now
    && t.part < |logs| && d.e in logs[t.part]
  }

  ghost predicate RunsOf(logs: seq<seq<Envelope>>, ds: seq<Delivery>, ts: seq<Try>) {
    && |ds| == |ts|
    && forall j :: 0 <= j < |ds| ==> RunOf(logs, ds[j], ts[j])
  }

  lemma {:induction false} TurnOrigins(logs: seq<seq<Envelope>>, at: seq<nat>, tries: seq<Try>)
    requires Within(logs, at)
    ensures RunsOf(logs, Deliveries(logs, at, tries), Origins(logs, at, tries))
    ensures forall t :: t in Origins(logs, at, tries) ==> t in tries
  {
    if tries != [] {
      TurnOrigins(logs, at, tries[..|tries| - 1]);
    }
  }

  /** Each handler run of the loop goes as its own attempt went. */
  lemma {:induction false} RunsGoAsAttempts(logs: seq<seq<Envelope>>, from: seq<nat>, rounds: seq<Round>)
    requires Within(logs, from)
    ensures RunsOf(logs, Schedule(logs, from, rounds), ScheduleOrigins(logs, from, rounds))
    ensures forall t :: t in ScheduleOrigins(logs, from, rounds) ==> exists i :: 0 <= i < |rounds| && t in rounds[i].tries
  {
    if rounds != [] {
      var n := |rounds| - 1;
      RunsGoAsAttempts(logs, from, rounds[..n]);
      TurnOrigins(logs, Offsets(logs, from, rounds[..n]), rounds[n].tries);
    }
  }

  /** Reading only moves forward, */
  lemma {:induction false} AdvanceForward(logs: seq<seq<Envelope>>, at: seq<nat>, tries: seq<Try>, p: nat)
    requires Within(logs, at) && p < |logs|
    ensures at[p] <= Advance(logs, at, tries)[p]
  {
    if tries != [] {
      AdvanceForward(logs, at, tries[..|tries| - 1], p);
    }
  }

  /** and so do the committed offsets. */
  lemma {:induction false} OffsetsForward(logs: seq<seq<Envelope>>, from: seq<nat>, rounds: seq<Round>, p: nat)
    requires Within(logs, from) && p < |logs|
    ensures from[p] <= Offsets(logs, from, rounds)[p]
  {
    if rounds != [] {
      var before := Offsets(logs, from, rounds[..|rounds| - 1]);
      OffsetsForward(logs, from, rounds[..|rounds| - 1], p);
      AdvanceForward(logs, before, rounds[|rounds| - 1].tries, p);
    }
  }

  /** One more turn, on top of those before it. */
  lemma RoundNext<Db>(step: (Db, Delivery) -> Db, db: Db, logs: seq<seq<Envelope>>, from: seq<nat>, rounds: seq<Round>, i: nat)
    requires Within(logs, from) && i < |rounds|
    ensures Offsets(logs, from, rounds[..i + 1]) == Next(logs, Offsets(logs, from, rounds[..i]), rounds[i])
    ensures Fold(step, db, Schedule(logs, from, rounds[..i + 1])) ==
              Fold(step, Fold(step, db, Schedule(logs, from, rounds[..i])),
                   Deliveries(logs, Offsets(logs, from, rounds[..i]), rounds[i].tries))
  {
    assert rounds[..i + 1][..i] == rounds[..i];
    FoldConcat(step, db, Schedule(logs, from, rounds[..i]), Deliveries(logs, Offsets(logs, from, rounds[..i]), rounds[i].tries));
  }

  /** What one attempt makes of the database. */
  function Tried<Db>(step: (Db, Delivery) -> Db, db: Db, logs: seq<seq<Envelope>>, at: seq<nat>, t: Try): Db
    requires Within(logs, at)
  {
    if HasNext(logs, at, t.part) && t.result != Undone
    then step(db, Delivery(logs[t.part][at[t.part]], t.now, t.result == Halted))
    else db
  }

  lemma DeliverNext<Db>(step: (Db, Delivery) -> Db, db: Db, logs: seq<seq<Envelope>>, at: seq<nat>, tries: seq<Try>, k: nat)
    requires Within(logs, at) && k < |tries|
    ensures Advance(logs, at, tries[..k + 1]) == Passed(logs, Advance(logs, at, tries[..k]), tries[k])
    ensures Fold(step, db, Deliveries(logs, at, tries[..k + 1])) ==
              Tried(step, Fold(step, db, Deliveries(logs, at, tries[..k])), logs, Advance(logs, at, tries[..k]), tries[k])
  {
    assert tries[..k + 1][..k] == tries[..k];
    FoldConcat(step, db, Deliveries(logs, at, tries[..k]), Delivered(logs, Advance(logs, at, tries[..k]), tries[k]));
  }

  // ---------- what the committed offsets mean ----------

  /** Attempt j of turn i is an attempt at message k of partition p. */
  ghost predicate Visits(logs: seq<seq<Envelope>>, from: seq<nat>, rounds: seq<Round>, i: nat, j: nat, p: nat, k: nat)
    requires Within(logs, from)
  {
    && i < |rounds| && j < |rounds[i].tries| && p < |logs| && k < |logs[p]|
    && rounds[i].tries[j].part == p
    && Advance(logs, Offsets(logs, from, rounds[..i]), rounds[i].tries[..j])[p] == k
  }

  lemma {:induction false} AdvanceVisits(logs: seq<seq<Envelope>>, at: seq<nat>, tries: seq<Try>, p: nat, k: nat)
    requires Within(logs, at) && p < |logs|
    ensures at[p] <= k < Advance(logs, at, tries)[p] <==>
              k < |logs[p]| && exists j: nat :: j < |tries| && tries[j].part == p && Advance(logs, at, tries[..j])[p] == k
  {
    if tries != [] {
      var n := |tries| - 1;
      AdvanceForward(logs, at, tries[..n], p);
      AdvanceVisits(logs, at, tries[..n], p, k);
      assert forall j: nat :: j < n ==> tries[..n][j] == tries[j] && tries[..n][..j] == tries[..j];
      if k < |logs[p]| && tries[n].part == p && Advance(logs, at, tries[..n])[p] == k {
        assert n < |tries| && tries[n].part == p;
      }
      if j: nat :| j < n && tries[..n][j].part == p && Advance(logs, at, tries[..n][..j])[p] == k {
        assert tries[j].part == p && Advance(logs, at, tries[..j])[p] == k;
      }
    }
  }

  /** A message lies below the committed offset exactly when a turn that survived has attempted it, successfully or not. */
  lemma {:induction false} CommittedExactly(logs: seq<seq<Envelope>>, from: seq<nat>, rounds: seq<Round>, p: nat, k: nat)
    requires Within(logs, from) && p < |logs|
    ensures from[p] <= k < Offsets(logs, from, rounds)[p] <==>
              exists i: nat, j: nat :: Visits(logs, from, rounds, i, j, p, k) && rounds[i].survives
  {
    if rounds != [] {
      var n := |rounds| - 1;
      var before, r := rounds[..n], rounds[n];
      CommittedExactly(logs, from, before, p, k);
      OffsetsForward(logs, from, before, p);
      AdvanceForward(logs, Offsets(logs, from, before), r.tries, p);
      AdvanceVisits(logs, Offsets(logs, from, before), r.tries, p, k);
      forall i: nat, j: nat
        ensures i < n ==> (Visits(logs, from, rounds, i, j, p, k) <==> Visits(logs, from, before, i, j, p, k))
      {
        if i < n {
          assert before[..i] == rounds[..i];
        }
      }
      if r.survives && Offsets(logs, from, before)[p] <= k < Offsets(logs, from, rounds)[p] {
        var j: nat :| j < |r.tries| && r.tries[j].part == p && Advance(logs, Offsets(logs, from, before), r.tries[..j])[p] == k;
        assert Visits(logs, from, rounds, n, j, p, k);
      }
      if i: nat, j: nat :| Visits(logs, from, before, i, j, p, k) && before[i].survives {
        assert Visits(logs, from, rounds, i, j, p, k) && rounds[i].survives;
      }
    }
  }

  /** Attempt j hands the event to a handler that is not rolled back. */
  ghost predicate Delivers(logs: seq<seq<Envelope>>, at: seq<nat>, tries: seq<Try>, j: nat, id: EventId)
    requires Within(logs, at)
  {
    && j < |tries| && tries[j].result != Undone
    && var next, p := Advance(logs, at, tries[..j]), tries[j].part;
       HasNext(logs, next, p) && logs[p][next[p]].id == id
  }

  lemma {:induction false} WhoDelivers(logs: seq<seq<Envelope>>, at: seq<nat>, tries: seq<Try>, id: EventId) returns (j: nat)
    requires Within(logs, at) && Occurs(Deliveries(logs, at, tries), id)
    ensures Delivers(logs, at, tries, j, id)
  {
    var n := |tries| - 1;
    var before := tries[..n];
    OccursConcat(Deliveries(logs, at, before), Delivered(logs, Advance(logs, at, before), tries[n]), id);
    if Occurs(Deliveries(logs, at, before), id) {
      j := WhoDelivers(logs, at, before, id);
      assert before[..j] == tries[..j];
    } else {
      j := n;
    }
  }

  lemma {:induction false} DeliversOne(logs: seq<seq<Envelope>>, at: seq<nat>, tries: seq<Try>, j: nat, id: EventId)
    requires Within(logs, at) && Delivers(logs, at, tries, j, id)
    ensures Occurs(Deliveries(logs, at, tries), id)
    decreases |tries|
  {
    var n := |tries| - 1;
    var before := tries[..n];
    if j < n {
      assert before[..j] == tries[..j];
      DeliversOne(logs, at, before, j, id);
    } else {
      assert Delivered(logs, Advance(logs, at, before), tries[n])[0].e.id == id;
    }
    OccursConcat(Deliveries(logs, at, before), Delivered(logs, Advance(logs, at, before), tries[n]), id);
  }

  lemma OccursConcat(a: seq<Delivery>, b: seq<Delivery>, id: EventId)
    ensures Occurs(a + b, id) <==> Occurs(a, id) || Occurs(b, id)
  {
    if k: nat :| k < |a| && a[k].e.id == id {
      assert (a + b)[k].e.id == id;
    }
    if k: nat :| k < |b| && b[k].e.id == id {
      assert (a + b)[|a| + k].e.id == id;
    }
  }

  /** Turn i of the loop hands the event to a handler that is not rolled back. */
  ghost predicate TurnDelivers(logs: seq<seq<Envelope>>, from: seq<nat>, rounds: seq<Round>, i: nat, id: EventId)
    requires Within(logs, from)
  {
    i < |rounds| && Occurs(Deliveries(logs, Offsets(logs, from, rounds[..i]), rounds[i].tries), id)
  }

  lemma {:induction false} WhichTurn(logs: seq<seq<Envelope>>, from: seq<nat>, rounds: seq<Round>, id: EventId) returns (i: nat)
    requires Within(logs, from) && Occurs(Schedule(logs, from, rounds), id)
    ensures TurnDelivers(logs, from, rounds, i, id)
  {
    var n := |rounds| - 1;
    var before := rounds[..n];
    LastTurn(logs, from, rounds, id);
    if Occurs(Schedule(logs, from, before), id) {
      i := WhichTurn(logs, from, before, id);
      assert before[..i] == rounds[..i];
    } else {
      i := n;
    }
  }

  lemma LastTurn(logs: seq<seq<Envelope>>, from: seq<nat>, rounds: seq<Round>, id: EventId)
    requires Within(logs, from) && rounds != []
    ensures var n := |rounds| - 1;
      Occurs(Schedule(logs, from, rounds), id) <==>
        Occurs(Schedule(logs, from, rounds[..n]), id) || TurnDelivers(logs, from, rounds, n, id)
  {
    var n := |rounds| - 1;
    OccursConcat(Schedule(logs, from, rounds[..n]), Deliveries(logs, Offsets(logs, from, rounds[..n]), rounds[n].tries), id);
  }

  lemma {:induction false} TurnOccurs(logs: seq<seq<Envelope>>, from: seq<nat>, rounds: seq<Round>, i: nat, id: EventId)
    requires Within(logs, from) && TurnDelivers(logs, from, rounds, i, id)
    ensures Occurs(Schedule(logs, from, rounds), id)
    decreases |rounds|
  {
    var before := rounds[..|rounds| - 1];
    LastTurn(logs, from, rounds, id);
    if i < |before| {
      assert before[..i] == rounds[..i];
      TurnOccurs(logs, from, before, i, id);
    }
  }

  /** Attempt j of turn i is at a copy of the event, and is not rolled back. */
  ghost predicate Handles(logs: seq<seq<Envelope>>, from: seq<nat>, rounds: seq<Round>, i: nat, j: nat, id: EventId)
    requires Within(logs, from)
  {
    i < |rounds| && Delivers(logs, Offsets(logs, from, rounds[..i]), rounds[i].tries, j, id)
  }

  /** An event is handled at all exactly when some attempt at one of its copies is not rolled back. */
  lemma HandledExactly(logs: seq<seq<Envelope>>, from: seq<nat>, rounds: seq<Round>, id: EventId)
    requires Within(logs, from)
    ensures Occurs(Schedule(logs, from, rounds), id) <==> exists i: nat, j: nat :: Handles(logs, from, rounds, i, j, id)
  {
    if Occurs(Schedule(logs, from, rounds), id) {
      var i := WhichTurn(logs, from, rounds, id);
      var j := WhoDelivers(logs, Offsets(logs, from, rounds[..i]), rounds[i].tries, id);
      assert Handles(logs, from, rounds, i, j, id);
    }
    if i: nat, j: nat :| Handles(logs, from, rounds, i, j, id) {
      DeliversOne(logs, Offsets(logs, from, rounds[..i]), rounds[i].tries, j, id);
      TurnOccurs(logs, from, rounds, i, id);
    }
  }

  // ---------- lost messages ----------

  /** A copy of the event that the loop has still to reach. */
  ghost predicate StillAhead(logs: seq<seq<Envelope>>, at: seq<nat>, id: EventId)
    requires Within(logs, at)
  {
    exists p: nat, k: nat :: p < |logs| && at[p] <= k < |logs[p]| && logs[p][k].id == id
  }

  lemma OneMoreRound(logs: seq<seq<Envelope>>, from: seq<nat>, rounds: seq<Round>, r: Round)
    requires Within(logs, from)
    ensures var before := Offsets(logs, from, rounds);
      && Offsets(logs, from, rounds + [r]) == Next(logs, before, r)
      && Schedule(logs, from, rounds + [r]) == Schedule(logs, from, rounds) + Deliveries(logs, before, r.tries)
  {
    assert (rounds + [r])[..|rounds|] == rounds;
  }

  /** A turn hands out only what is ahead, */
  lemma HandedIsAhead(logs: seq<seq<Envelope>>, at: seq<nat>, tries: seq<Try>, id: EventId)
    requires Within(logs, at) && Occurs(Deliveries(logs, at, tries), id)
    ensures StillAhead(logs, at, id)
  {
    var j := WhoDelivers(logs, at, tries, id);
    var next, p := Advance(logs, at, tries[..j]), tries[j].part;
    AdvanceForward(logs, at, tries[..j], p);
    assert at[p] <= next[p] < |logs[p]| && logs[p][next[p]].id == id;
  }

  /** and brings nothing back. */
  lemma AheadBefore(logs: seq<seq<Envelope>>, at: seq<nat>, r: Round, id: EventId)
    requires Within(logs, at) && StillAhead(logs, Next(logs, at, r), id)
    ensures StillAhead(logs, at, id)
  {
    var p: nat, k: nat :| p < |logs| && Next(logs, at, r)[p] <= k < |logs[p]| && logs[p][k].id == id;
    AdvanceForward(logs, at, r.tries, p);
    assert at[p] <= k < |logs[p]| && logs[p][k].id == id;
  }

  ghost predicate LostTo(logs: seq<seq<Envelope>>, from: seq<nat>, rounds: seq<Round>, id: EventId)
    requires Within(logs, from)
  {
    !Occurs(Schedule(logs, from, rounds), id) && !StillAhead(logs, Offsets(logs, from, rounds), id)
  }

  lemma StaysLostOnce(logs: seq<seq<Envelope>>, from: seq<nat>, rounds: seq<Round>, r: Round, id: EventId)
    requires Within(logs, from) && LostTo(logs, from, rounds, id)
    ensures LostTo(logs, from, rounds + [r], id)
  {
    var at := Offsets(logs, from, rounds);
    OneMoreRound(logs, from, rounds, r);
    if Occurs(Deliveries(logs, at, r.tries), id) {
      HandedIsAhead(logs, at, r.tries, id);
    }
    if StillAhead(logs, Next(logs, at, r), id) {
      AheadBefore(logs, at, r, id);
    }
    OccursConcat(Schedule(logs, from, rounds), Deliveries(logs, at, r.tries), id);
  }

  lemma {:induction false} StaysLost(logs: seq<seq<Envelope>>, from: seq<nat>, rounds: seq<Round>, more: seq<Round>, id: EventId)
    requires Within(logs, from) && LostTo(logs, from, rounds, id)
    ensures LostTo(logs, from, rounds + more, id)
    decreases |more|
  {
    if more == [] {
      assert rounds + more == rounds;
    } else {
      var earlier, r := rounds + more[..|more| - 1], more[|more| - 1];
      assert rounds + more == earlier + [r];
      StaysLost(logs, from, rounds, more[..|more| - 1], id);
      StaysLostOnce(logs, from, earlier, r, id);
    }
  }

  /** Attempts at one partition, up to and including message k. */
  function Straight(p: nat, count: nat): seq<Try> {
    seq(count, _ => Try(p, Finished, 0))
  }

  lemma {:induction false} StraightAdvance(logs: seq<seq<Envelope>>, at: seq<nat>, p: nat, count: nat)
    requires Within(logs, at) && p < |logs| && at[p] + count <= |logs[p]|
    ensures Advance(logs, at, Straight(p, count))[p] == at[p] + count
  {
    if count > 0 {
      StraightAdvance(logs, at, p, count - 1);
      assert Straight(p, count)[..count - 1] == Straight(p, count - 1);
    }
  }

  lemma ReachAhead(logs: seq<seq<Envelope>>, at: seq<nat>, id: EventId) returns (r: Round)
    requires Within(logs, at) && StillAhead(logs, at, id)
    ensures Occurs(Deliveries(logs, at, r.tries), id)
  {
    var p: nat, k: nat :| p < |logs| && at[p] <= k < |logs[p]| && logs[p][k].id == id;
    var count := k - at[p];
    var tries := Straight(p, count + 1);
    r := Round(tries, true);
    StraightAdvance(logs, at, p, count);
    assert tries[..count] == Straight(p, count);
    DeliversOne(logs, at, tries, count, id);
  }

  /**
   Offsets are committed for the whole batch, so a message whose attempt raised can be lost. Exactly when:
   no later run of the loop ever handles the event iff it has not been handled, and every copy of it in
   any partition lies below the committed offset.
   */
  lemma LostExactly(logs: seq<seq<Envelope>>, from: seq<nat>, rounds: seq<Round>, id: EventId)
    requires Within(logs, from)
    ensures (forall more :: !Occurs(Schedule(logs, from, rounds + more), id)) <==>
              !Occurs(Schedule(logs, from, rounds), id) && !StillAhead(logs, Offsets(logs, from, rounds), id)
  {
    var at := Offsets(logs, from, rounds);
    if !Occurs(Schedule(logs, from, rounds), id) && !StillAhead(logs, at, id) {
      forall more ensures !Occurs(Schedule(logs, from, rounds + more), id) {
        StaysLost(logs, from, rounds, more, id);
      }
    }
    if Occurs(Schedule(logs, from, rounds), id) {
      assert rounds + [] == rounds;
      assert Occurs(Schedule(logs, from, rounds + []), id);
    }
    if StillAhead(logs, at, id) {
      var r := ReachAhead(logs, at, id);
      OneMoreRound(logs, from, rounds, r);
      OccursConcat(Schedule(logs, from, rounds), Deliveries(logs, at, r.tries), id);
      assert Occurs(Schedule(logs, from, rounds + [r]), id);
    }
  }

  // ---------- restarts without faults ----------

  function Max(a: nat, b: nat): nat {
    if a < b then b else a
  }

  /** The furthest message of a partition that any turn has passed. */
  function Furthest(logs: seq<seq<Envelope>>, from: seq<nat>, rounds: seq<Round>, p: nat): (end: nat)
    requires Within(logs, from) && p < |logs|
    ensures from[p] <= end <= |logs[p]|
    ensures Offsets(logs, from, rounds)[p] <= end
  {
    if rounds == [] then from[p]
    else
      var before := rounds[..|rounds| - 1];
      Max(Furthest(logs, from, before, p), Advance(logs, Offsets(logs, from, before), rounds[|rounds| - 1].tries)[p])
  }

  function Envelopes(ds: seq<Delivery>): seq<Envelope> {
    seq(|ds|, k requires 0 <= k < |ds| => ds[k].e)
  }

  /** The events that belong to one partition, in the order given. */
  function Those(es: seq<Envelope>, log: seq<Envelope>): seq<Envelope> {
    if es == [] then []
    else Those(es[..|es| - 1], log) + (if es[|es| - 1] in log then [es[|es| - 1]] else [])
  }

  predicate SeenIn(log: seq<Envelope>, from: nat, to: nat, id: EventId)
    requires from <= to <= |log|
  {
    exists k :: from <= k < to && log[k].id == id
  }

  /** The events of a stretch of a log, in log order, each once. */
  function Distinct(log: seq<Envelope>, from: nat, to: nat): seq<Envelope>
    requires from <= to <= |log|
  {
    if to == from then []
    else Distinct(log, from, to - 1) + (if SeenIn(log, from, to - 1, log[to - 1].id) then [] else [log[to - 1]])
  }

  /** Whatever comes from one partition alone is kept as it is, whatever comes from elsewhere is left out, in any mixture. */
  lemma {:induction false} ThoseExactly(a: seq<Envelope>, b: seq<Envelope>, log: seq<Envelope>)
    ensures Those(a + b, log) == Those(a, log) + Those(b, log)
    ensures (forall e :: e in b ==> e in log) ==> Those(b, log) == b
    ensures (forall e :: e in b ==> e !in log) ==> Those(b, log) == []
  {
    if b == [] {
      assert a + b == a;
    } else {
      var n := |b| - 1;
      assert (a + b)[..|a| + n] == a + b[..n];
      ThoseExactly(a, b[..n], log);
      assert b == b[..n] + [b[n]];
    }
  }

  /** Reading the stretch once and leaving out repeats. */
  lemma {:induction false} DistinctExactly(log: seq<Envelope>, from: nat, to: nat, ds: seq<Delivery>)
    requires from <= to <= |log| && Envelopes(ds) == log[from..to]
    ensures Distinct(log, from, to) == Envelopes(FirstOccurrences(ds))
    ensures forall id :: Occurs(ds, id) <==> SeenIn(log, from, to, id)
    decreases |ds|
  {
    assert |Envelopes(ds)| == |ds| == to - from;
    forall k | 0 <= k < |ds| ensures ds[k].e == log[from + k] {
      assert Envelopes(ds)[k] == log[from..to][k];
    }
    if from != to {
      var n := |ds| - 1;
      assert Envelopes(ds[..n]) == log[from..to - 1];
      DistinctExactly(log, from, to - 1, ds[..n]);
      assert ds == ds[..n] + [ds[n]];
      forall id ensures Occurs(ds, id) <==> SeenIn(log, from, to, id) {
        OccursNext(ds[..n], ds[n], id);
        SeenNext(log, from, to - 1, id);
      }
    }
  }

  /** Relays may put an event into the log more than once; its topic and key send every copy to the same partition. */
  ghost predicate Keyed(logs: seq<seq<Envelope>>) {
    forall p, q, e, f :: 0 <= p < |logs| && 0 <= q < |logs| && e in logs[p] && f in logs[q] && e.id == f.id ==> p == q && e == f
  }

  lemma OccursNext(ds: seq<Delivery>, d: Delivery, id: EventId)
    ensures Occurs(ds + [d], id) <==> Occurs(ds, id) || d.e.id == id
  {
    if Occurs(ds, id) {
      var k :| 0 <= k < |ds| && ds[k].e.id == id;
      assert (ds + [d])[k].e.id == id;
    }
    if d.e.id == id {
      assert (ds + [d])[|ds|].e.id == id;
    }
  }

  lemma FirstNext(ds: seq<Delivery>, d: Delivery, log: seq<Envelope>)
    ensures Those(Envelopes(FirstOccurrences(ds + [d])), log) ==
            Those(Envelopes(FirstOccurrences(ds)), log) + (if Occurs(ds, d.e.id) || d.e !in log then [] else [d.e])
  {
    assert (ds + [d])[..|ds|] == ds;
    var before, after := Envelopes(FirstOccurrences(ds)), Envelopes(FirstOccurrences(ds + [d]));
    if Occurs(ds, d.e.id) {
      assert after == before;
      assert Those(before, log) + [] == Those(before, log);
    } else {
      assert after == before + [d.e] && after[..|before|] == before;
      assert Those(after, log) == Those(before, log) + if d.e in log then [d.e] else [];
    }
  }

  /** A schedule that has covered exactly a stretch of one partition: same first occurrences, same events seen. */
  ghost predicate Covers(ds: seq<Delivery>, log: seq<Envelope>, from: nat, to: nat)
    requires from <= to <= |log|
  {
    && Those(Envelopes(FirstOccurrences(ds)), log) == Distinct(log, from, to)
    && forall e :: e in log ==> (Occurs(ds, e.id) <==> SeenIn(log, from, to, e.id))
  }

  lemma SeenNext(log: seq<Envelope>, from: nat, to: nat, id: EventId)
    requires from <= to < |log|
    ensures SeenIn(log, from, to + 1, id) <==> SeenIn(log, from, to, id) || log[to].id == id
  {
  }

  lemma CoverNext(ds: seq<Delivery>, log: seq<Envelope>, from: nat, to: nat, d: Delivery)
    requires from <= to < |log| && Covers(ds, log, from, to) && d.e == log[to]
    ensures Covers(ds + [d], log, from, to + 1)
  {
    FirstNext(ds, d, log);
    assert d.e in log;
    assert Occurs(ds, d.e.id) <==> SeenIn(log, from, to, d.e.id);
    forall e | e in log ensures Occurs(ds + [d], e.id) <==> SeenIn(log, from, to + 1, e.id) {
      OccursNext(ds, d, e.id);
      SeenNext(log, from, to, e.id);
    }
  }

  lemma CoverAgain(ds: seq<Delivery>, log: seq<Envelope>, from: nat, to: nat, k: nat, d: Delivery)
    requires from <= k < to <= |log| && Covers(ds, log, from, to) && d.e == log[k]
    ensures Covers(ds + [d], log, from, to)
  {
    FirstNext(ds, d, log);
    assert d.e in log && SeenIn(log, from, to, d.e.id);
    forall e | e in log ensures Occurs(ds + [d], e.id) <==> SeenIn(log, from, to, e.id) {
      OccursNext(ds, d, e.id);
    }
  }

  lemma CoverElsewhere(ds: seq<Delivery>, log: seq<Envelope>, from: nat, to: nat, d: Delivery)
    requires from <= to <= |log| && Covers(ds, log, from, to) && forall e :: e in log ==> e.id != d.e.id
    ensures Covers(ds + [d], log, from, to)
  {
    FirstNext(ds, d, log);
    forall e | e in log ensures Occurs(ds + [d], e.id) <==> SeenIn(log, from, to, e.id) {
      OccursNext(ds, d, e.id);
    }
  }

  lemma OneMoreTry(logs: seq<seq<Envelope>>, at: seq<nat>, tries: seq<Try>, t: Try)
    requires Within(logs, at)
    ensures var before := Advance(logs, at, tries);
      && Advance(logs, at, tries + [t]) == Passed(logs, before, t)
      && Deliveries(logs, at, tries + [t]) == Deliveries(logs, at, tries) + Delivered(logs, before, t)
  {
    assert (tries + [t])[..|tries|] == tries;
  }

  lemma {:induction false} CoverTries(ds: seq<Delivery>, logs: seq<seq<Envelope>>, at: seq<nat>, tries: seq<Try>, p: nat, from: nat, to: nat)
    requires Within(logs, at) && Keyed(logs) && p < |logs| && from <= at[p] <= to <= |logs[p]|
    requires Covers(ds, logs[p], from, to) && forall k :: 0 <= k < |tries| ==> tries[k].result != Undone
    ensures Covers(ds + Deliveries(logs, at, tries), logs[p], from, Max(to, Advance(logs, at, tries)[p]))
    decreases |tries|
  {
    if tries == [] {
      assert ds + [] == ds;
    } else {
      var before, t := tries[..|tries| - 1], tries[|tries| - 1];
      var next := Advance(logs, at, before);
      assert tries == before + [t];
      CoverTries(ds, logs, at, before, p, from, to);
      AdvanceForward(logs, at, before, p);
      OneMoreTry(logs, at, before, t);
      if t.part < |logs| && t.part != p {
        KeyedElsewhere(logs, p, t.part);
      }
      CoverAppend(ds, Deliveries(logs, at, before), logs, next, p, from, to, t);
    }
  }

  /** The two partitions have no event in common. */
  ghost predicate Foreign(log: seq<Envelope>, other: seq<Envelope>) {
    forall e, f :: e in log && f in other ==> e.id != f.id
  }

  lemma CoverOwn(so: seq<Delivery>, logs: seq<seq<Envelope>>, next: seq<nat>, p: nat, from: nat, to: nat, t: Try)
    requires Within(logs, next) && t.part == p && HasNext(logs, next, p) && from <= next[p] <= to <= |logs[p]|
    requires Covers(so, logs[p], from, to) && t.result != Undone
    ensures Covers(so + Delivered(logs, next, t), logs[p], from, Max(to, next[p] + 1))
  {
    var d := Delivery(logs[p][next[p]], t.now, t.result == Halted);
    CoverHere(so, logs[p], from, to, next[p], d);
    assert Delivered(logs, next, t) == [d];
  }

  lemma CoverForeign(so: seq<Delivery>, logs: seq<seq<Envelope>>, next: seq<nat>, p: nat, from: nat, to: nat, t: Try)
    requires Within(logs, next) && p < |logs| && HasNext(logs, next, t.part) && Foreign(logs[p], logs[t.part])
    requires from <= to <= |logs[p]| && Covers(so, logs[p], from, to) && t.result != Undone
    ensures Covers(so + Delivered(logs, next, t), logs[p], from, to)
  {
    var d := Delivery(logs[t.part][next[t.part]], t.now, t.result == Halted);
    assert d.e in logs[t.part];
    CoverElsewhere(so, logs[p], from, to, d);
  }

  lemma CoverMore(so: seq<Delivery>, logs: seq<seq<Envelope>>, next: seq<nat>, p: nat, from: nat, to: nat, t: Try)
    requires Within(logs, next) && p < |logs| && from <= next[p] <= to <= |logs[p]|
    requires t.part < |logs| && t.part != p ==> Foreign(logs[p], logs[t.part])
    requires Covers(so, logs[p], from, to) && t.result != Undone
    ensures Covers(so + Delivered(logs, next, t), logs[p], from, Max(to, Passed(logs, next, t)[p]))
  {
    if !HasNext(logs, next, t.part) {
      assert so + [] == so;
    } else if t.part == p {
      CoverOwn(so, logs, next, p, from, to, t);
    } else {
      CoverForeign(so, logs, next, p, from, to, t);
    }
  }

  lemma CoverAppend(ds: seq<Delivery>, more: seq<Delivery>, logs: seq<seq<Envelope>>, next: seq<nat>, p: nat, from: nat, to: nat, t: Try)
    requires Within(logs, next) && p < |logs| && from <= to <= |logs[p]| && from <= next[p]
    requires t.part < |logs| && t.part != p ==> Foreign(logs[p], logs[t.part])
    requires Covers(ds + more, logs[p], from, Max(to, next[p])) && t.result != Undone
    ensures Covers(ds + (more + Delivered(logs, next, t)), logs[p], from, Max(to, Passed(logs, next, t)[p]))
  {
    CoverMore(ds + more, logs, next, p, from, Max(to, next[p]), t);
    assert ds + (more + Delivered(logs, next, t)) == ds + more + Delivered(logs, next, t);
  }

  lemma CoverHere(ds: seq<Delivery>, log: seq<Envelope>, from: nat, to: nat, k: nat, d: Delivery)
    requires from <= k <= to <= |log| && k < |log| && Covers(ds, log, from, to) && d.e == log[k]
    ensures Covers(ds + [d], log, from, Max(to, k + 1))
  {
    if k < to {
      CoverAgain(ds, log, from, to, k, d);
    } else {
      CoverNext(ds, log, from, to, d);
    }
  }

  lemma KeyedElsewhere(logs: seq<seq<Envelope>>, p: nat, q: nat)
    requires Keyed(logs) && p < |logs| && q < |logs| && p != q
    ensures Foreign(logs[p], logs[q])
  {
  }

  predicate Faultless(rounds: seq<Round>) {
    forall i, j :: 0 <= i < |rounds| && 0 <= j < |rounds[i].tries| ==> rounds[i].tries[j].result != Undone
  }

  /**
   Without transient faults, dying and starting again from the committed offsets cannot be seen: leaving
   out repeats, the schedule of each partition is its log up to the furthest message reached.
   */
  lemma {:induction false} RestartsInvisible(logs: seq<seq<Envelope>>, from: seq<nat>, rounds: seq<Round>, p: nat)
    requires Within(logs, from) && Keyed(logs) && p < |logs| && Faultless(rounds)
    ensures Covers(Schedule(logs, from, rounds), logs[p], from[p], Furthest(logs, from, rounds, p))
  {
    if rounds != [] {
      var n := |rounds| - 1;
      assert forall i :: 0 <= i < n ==> rounds[..n][i] == rounds[i];
      RestartsInvisible(logs, from, rounds[..n], p);
      OffsetsForward(logs, from, rounds[..n], p);
      CoverTries(Schedule(logs, from, rounds[..n]), logs, Offsets(logs, from, rounds[..n]), rounds[n].tries, p,
                 from[p], Furthest(logs, from, rounds[..n], p));
    }
  }

  // ---------- the events of a schedule ----------

  predicate Among(ds: seq<Delivery>, events: set<Envelope>) {
    forall k :: 0 <= k < |ds| ==> ds[k].e in events
  }

  function EventsIn(logs: seq<seq<Envelope>>): set<Envelope> {
    set p, e | 0 <= p < |logs| && e in logs[p] :: e
  }

  lemma {:induction false} DeliveriesAmong(logs: seq<seq<Envelope>>, at: seq<nat>, tries: seq<Try>)
    requires Within(logs, at)
    ensures Among(Deliveries(logs, at, tries), EventsIn(logs))
  {
    if tries != [] {
      var n := |tries| - 1;
      DeliveriesAmong(logs, at, tries[..n]);
      var next, t := Advance(logs, at, tries[..n]), tries[n];
      assert HasNext(logs, next, t.part) ==> logs[t.part][next[t.part]] in logs[t.part];
    }
  }

  lemma {:induction false} ScheduleAmong(logs: seq<seq<Envelope>>, from: seq<nat>, rounds: seq<Round>)
    requires Within(logs, from)
    ensures Among(Schedule(logs, from, rounds), EventsIn(logs))
  {
    if rounds != [] {
      var n := |rounds| - 1;
      ScheduleAmong(logs, from, rounds[..n]);
      DeliveriesAmong(logs, Offsets(logs, from, rounds[..n]), rounds[n].tries);
    }
  }

  // ---------- the ledger check split from the transaction's commit ----------

  /** A worker checks the ledger; later its transaction runs to the end, constraints included. */
  datatype Move =
    | Check(worker: nat, e: Envelope)
    | Body(worker: nat, now: int)

  /** What a worker found in the ledger. */
  datatype Checked = Checked(e: Envelope, known: bool)

  datatype Racing<Db> = Racing(db: Db, open: map<nat, Checked>)

  function Race<Db>(ledger: Db -> set<EventId>, body: (Db, Delivery) -> Db, start: Db, moves: seq<Move>): Racing<Db> {
    if moves == [] then Racing(start, map[])
    else
      var before := Race(ledger, body, start, moves[..|moves| - 1]);
      match moves[|moves| - 1]
      case Check(w, e) => Racing(before.db, before.open[w := Checked(e, e.id in ledger(before.db))])
      case Body(w, now) =>
        if w !in before.open then before
        else
          var c := before.open[w];
          Racing(if c.known then before.db else body(before.db, Delivery(c.e, now, true)), before.open - {w})
  }

  /** The deliveries of a race, in the order the transactions end. */
  function Ended<Db>(ledger: Db -> set<EventId>, body: (Db, Delivery) -> Db, start: Db, moves: seq<Move>): seq<Delivery> {
    if moves == [] then []
    else
      var earlier := moves[..|moves| - 1];
      var open := Race(ledger, body, start, earlier).open;
      var so := Ended(ledger, body, start, earlier);
      match moves[|moves| - 1]
      case Check(_, _) => so
      case Body(w, now) => if w in open then so + [Delivery(open[w].e, now, true)] else so
  }

  /** The atomic handler skips known events, and the transaction without the check does what the handler does. */
  ghost predicate Guarded<Db(!new)>(ledger: Db -> set<EventId>, step: (Db, Delivery) -> Db, body: (Db, Delivery) -> Db) {
    forall db, d: Delivery ::
      && ledger(db) <= ledger(step(db, d))
      && (d.e.id in ledger(db) ==> step(db, d) == db)
      && body(db, d) == step(db, d)
  }

  /** However many workers race on however many copies, the result is that of the atomic handler, one delivery after another. */
  lemma {:induction false} RaceIsSerial<Db(!new)>(ledger: Db -> set<EventId>, step: (Db, Delivery) -> Db, body: (Db, Delivery) -> Db,
                                                  start: Db, moves: seq<Move>)
    requires Guarded(ledger, step, body)
    ensures var r := Race(ledger, body, start, moves);
      && r.db == Fold(step, start, Ended(ledger, body, start, moves))
      && forall w :: w in r.open && r.open[w].known ==> r.open[w].e.id in ledger(r.db)
  {
    if moves != [] {
      var earlier := moves[..|moves| - 1];
      RaceIsSerial(ledger, step, body, start, earlier);
      var before := Race(ledger, body, start, earlier);
      match moves[|moves| - 1]
      case Check(_, _) =>
      case Body(w, now) =>
        if w in before.open {
          var d := Delivery(before.open[w].e, now, true);
          FoldOne(step, start, Ended(ledger, body, start, earlier), d);
          assert ledger(before.db) <= ledger(step(before.db, d));
          assert before.open[w].known ==> step(before.db, d) == before.db;
          assert body(before.db, d) == step(before.db, d);
        }
    }
  }

  /** The last thing worker w did is move i, a check of the ledger. */
  ghost predicate Waiting(moves: seq<Move>, w: nat, i: nat) {
    && i < |moves| && moves[i].Check? && moves[i].worker == w
    && forall j :: i < j < |moves| ==> moves[j].worker != w
  }

  /** A worker's transaction is open exactly between its check and its end, with what it found in the ledger at its check. */
  ghost predicate OpenExactly<Db>(ledger: Db -> set<EventId>, body: (Db, Delivery) -> Db, start: Db, moves: seq<Move>) {
    var open := Race(ledger, body, start, moves).open;
    && (forall w: nat, i: nat :: Waiting(moves, w, i) ==> w in open && open[w] == Found(ledger, body, start, moves, i))
    && forall w :: w in open ==> exists i: nat :: Waiting(moves, w, i)
  }

  ghost function Found<Db>(ledger: Db -> set<EventId>, body: (Db, Delivery) -> Db, start: Db, moves: seq<Move>, i: nat): Checked
    requires i < |moves| && moves[i].Check?
  {
    Checked(moves[i].e, moves[i].e.id in ledger(Race(ledger, body, start, moves[..i]).db))
  }

  lemma WaitingNext(moves: seq<Move>, m: Move, w: nat, i: nat)
    ensures Waiting(moves + [m], w, i) <==>
              if i < |moves| then Waiting(moves, w, i) && m.worker != w else i == |moves| && m.Check? && m.worker == w
  {
    assert (moves + [m])[|moves|] == m;
    assert forall j :: 0 <= j < |moves| ==> (moves + [m])[j] == moves[j];
  }

  lemma {:induction false} OpenBetween<Db>(ledger: Db -> set<EventId>, body: (Db, Delivery) -> Db, start: Db, moves: seq<Move>)
    ensures OpenExactly(ledger, body, start, moves)
  {
    if moves != [] {
      var n := |moves| - 1;
      var earlier := moves[..n];
      OpenBetween(ledger, body, start, earlier);
      assert moves == earlier + [moves[n]];
      forall w: nat, i: nat | Waiting(moves, w, i)
        ensures w in Race(ledger, body, start, moves).open
        ensures Race(ledger, body, start, moves).open[w] == Found(ledger, body, start, moves, i)
      {
        WaitingNext(earlier, moves[n], w, i);
        if i < n {
          assert earlier[..i] == moves[..i];
        }
      }
      forall w | w in Race(ledger, body, start, moves).open ensures exists i: nat :: Waiting(moves, w, i) {
        if moves[n].worker == w {
          assert Waiting(moves, w, n);
        } else {
          var i: nat :| Waiting(earlier, w, i);
          WaitingNext(earlier, moves[n], w, i);
          assert Waiting(moves, w, i);
        }
      }
    }
  }

  /** The deliveries are those of the transactions that end, each on the event its worker checked and at the time it ends. */
  lemma EndedExactly<Db>(ledger: Db -> set<EventId>, body: (Db, Delivery) -> Db, start: Db, moves: seq<Move>, m: Move)
    ensures var so, after := Ended(ledger, body, start, moves), Ended(ledger, body, start, moves + [m]);
      && (forall i: nat :: m.Body? && Waiting(moves, m.worker, i) ==> after == so + [Delivery(moves[i].e, m.now, true)])
      && (m.Check? || (forall i: nat :: !Waiting(moves, m.worker, i)) ==> after == so)
  {
    assert (moves + [m])[..|moves|] == moves;
    OpenBetween(ledger, body, start, moves);
  }

  predicate OpenAmong(open: map<nat, Checked>, events: set<Envelope>) {
    forall w :: w in open ==> open[w].e in events
  }

  /** Only what was checked is ever handled. */
  lemma {:induction false} EndedChecked<Db>(ledger: Db -> set<EventId>, body: (Db, Delivery) -> Db, start: Db, moves: seq<Move>,
                                            events: set<Envelope>)
    requires forall k :: 0 <= k < |moves| && moves[k].Check? ==> moves[k].e in events
    ensures OpenAmong(Race(ledger, body, start, moves).open, events)
    ensures Among(Ended(ledger, body, start, moves), events)
  {
    if moves != [] {
      EndedChecked(ledger, body, start, moves[..|moves| - 1], events);
    }
  }

  /** The events some worker checked, each with an id of its own. */
  ghost predicate ChecksIdentify(moves: seq<Move>) {
    forall i, j :: 0 <= i < |moves| && 0 <= j < |moves| && moves[i].Check? && moves[j].Check? && moves[i].e.id == moves[j].e.id ==>
                     moves[i].e == moves[j].e
  }

  function CheckedEvents(moves: seq<Move>): set<Envelope> {
    set k | 0 <= k < |moves| && moves[k].Check? :: moves[k].e
  }

  lemma EndedIdentify<Db>(ledger: Db -> set<EventId>, body: (Db, Delivery) -> Db, start: Db, moves: seq<Move>)
    requires ChecksIdentify(moves)
    ensures IdsIdentify(Ended(ledger, body, start, moves))
  {
    EndedChecked(ledger, body, start, moves, CheckedEvents(moves));
    AmongIdentify(Ended(ledger, body, start, moves), CheckedEvents(moves));
  }

  lemma AmongIdentify(ds: seq<Delivery>, events: set<Envelope>)
    requires Among(ds, events) && forall e, f :: e in events && f in events && e.id == f.id ==> e == f
    ensures IdsIdentify(ds)
  {
  }
}
