/**
 What follows when the data check meets a sensor id outside its table: the data
 mutex is left held, the next check waits for it for ever, and with it stops
 every thread that still needs the connection mutex.
 */
module LockLeak {
  import opened SensorConnections
  import opened Temperature
  import opened LockOrder

  // ---- What a thread can get through ----

  /** The thread never asks for a lock it holds. */
  predicate Passable(held: set<Lock>, p: seq<Op>)
    decreases |p|
  {
    p == [] || ((p[0].Acquire? ==> p[0].l !in held) && Passable(After(held, p[0]), p[1..]))
  }

  lemma {:induction false} PassableConcat(held: set<Lock>, p: seq<Op>, q: seq<Op>)
    ensures Passable(held, p + q) <==> Passable(held, p) && Passable(HeldAfter(held, p), q)
    decreases |p|
  {
    if p == [] {
      assert p + q == q;
    } else {
      assert (p + q)[1..] == p[1..] + q;
      PassableConcat(After(held, p[0]), p[1..], q);
    }
  }

  lemma {:induction false} ObeyingIsPassable(held: set<Lock>, p: seq<Op>)
    requires Obeys(held, p)
    ensures Passable(held, p)
    decreases |p|
  {
    if p != [] {
      ObeyingIsPassable(After(held, p[0]), p[1..]);
    }
  }

  lemma {:induction false} AloneFinishes(held: set<Lock>, p: seq<Op>) returns (schedule: seq<nat>)
    requires Passable(held, p)
    ensures Done(Run([Thread(held, p)], schedule))
    decreases |p|
  {
    if p == [] {
      schedule := [];
    } else {
      var rest := AloneFinishes(After(held, p[0]), p[1..]);
      assert Step([Thread(held, p)], 0) == [Thread(After(held, p[0]), p[1..])];
      schedule := [0] + rest;
      assert schedule[1..] == rest;
    }
  }

  /** In any company and under any schedule a thread finishes only what it could get through alone. */
  lemma {:induction false} FinishedWasPassable(ts: seq<Thread>, t: nat, schedule: seq<nat>)
    requires t < |ts| && Run(ts, schedule)[t].rest == []
    ensures Passable(ts[t].held, ts[t].rest)
    decreases |schedule|
  {
    if schedule != [] {
      FinishedWasPassable(Step(ts, schedule[0]), t, schedule[1..]);
    }
  }

  /** `schedule` takes a thread that runs `p` alone to its end. */
  predicate Completes(p: seq<Op>, schedule: seq<nat>) {
    Done(Run([Thread({}, p)], schedule))
  }

  lemma {:induction false} AloneFinishesIff(p: seq<Op>)
    ensures (exists schedule: seq<nat> :: Completes(p, schedule)) <==> Passable({}, p)
  {
    if Passable({}, p) {
      var schedule := AloneFinishes({}, p);
      assert Completes(p, schedule);
    } else if schedule: seq<nat> :| Completes(p, schedule) {
      FinishedWasPassable([Thread({}, p)], 0, schedule);
      assert false;
    }
  }

  lemma {:induction false} LockedHeld(held: set<Lock>, l: Lock, body: seq<Op>)
    ensures HeldAfter(held, Locked(l, body)) == HeldAfter(held + {l}, body) - {l}
    ensures Passable(held, Locked(l, body)) <==> l !in held && Passable(held + {l}, body)
  {
    Concat(held, [Acquire(l)] + body, [Release(l)]);
    Concat(held, [Acquire(l)], body);
    Single(held, Acquire(l));
    Single(HeldAfter(held + {l}, body), Release(l));
    PassableConcat(held, [Acquire(l)] + body, [Release(l)]);
    PassableConcat(held, [Acquire(l)], body);
    assert [Acquire(l)][1..] == [] && [Release(l)][1..] == [];
  }

  // ---- The exact condition ----

  /** A checked sensor whose id the table has no place for. */
  predicate IsBad(e: Entry) {
    IsChecked(e) && !ValidId(e.conn.sensorId)
  }

  predicate HasBad(visits: seq<Entry>) {
    exists k :: 0 <= k < |visits| && IsBad(visits[k])
  }

  predicate HasChecked(visits: seq<Entry>) {
    exists k :: 0 <= k < |visits| && IsChecked(visits[k])
  }

  /** No checked sensor is visited after one with a bad id. */
  ghost predicate NothingAfterBad(visits: seq<Entry>) {
    forall i, j :: 0 <= i < j < |visits| && IsBad(visits[i]) ==> !IsChecked(visits[j])
  }

  lemma {:induction false} ConcatBad(a: seq<Entry>, b: seq<Entry>)
    ensures HasBad(a + b) <==> HasBad(a) || HasBad(b)
    ensures HasChecked(a + b) <==> HasChecked(a) || HasChecked(b)
    ensures NothingAfterBad(a + b) <==> NothingAfterBad(a) && NothingAfterBad(b) && (HasBad(a) ==> !HasChecked(b))
  {
    assert forall k :: 0 <= k < |a| ==> (a + b)[k] == a[k];
    assert forall k :: 0 <= k < |b| ==> (a + b)[|a| + k] == b[k];
    if NothingAfterBad(a + b) {
      forall i, j | 0 <= i < j < |b| && IsBad(b[i])
        ensures !IsChecked(b[j])
      {
        assert IsBad((a + b)[|a| + i]);
      }
    }
  }

  /** The checks of one list, begun with or without the data mutex left over. */
  lemma {:induction false} CheckAllPassableIff(held: set<Lock>, list: seq<Entry>, alarm: Entry -> bool)
    requires held == {Connection} || held == {Connection, Data}
    ensures Passable(held, CheckAllOps(list, alarm)) <==> NothingAfterBad(list) && (Data in held ==> !HasChecked(list))
    ensures Passable(held, CheckAllOps(list, alarm)) ==>
      HeldAfter(held, CheckAllOps(list, alarm)) == if HasBad(list) then {Connection, Data} else held
    decreases |list|
  {
    if list != [] {
      var e, tail := list[0], list[1..];
      var rest := CheckAllOps(tail, alarm);
      assert list == [e] + tail;
      ConcatBad([e], tail);
      FirstCheck(held, e, alarm(e), rest);
      CheckAllPassableIff(if IsBad(e) then {Connection, Data} else held, tail, alarm);
    }
  }

  lemma {:induction false} FirstCheck(held: set<Lock>, e: Entry, alarm: bool, rest: seq<Op>)
    requires held == {Connection} || held == {Connection, Data}
    ensures var p := (if IsChecked(e) then CheckOps(e.conn.sensorId, alarm) else []) + rest;
      var held' := if IsBad(e) then {Connection, Data} else held;
      && (Passable(held, p) <==> (IsChecked(e) ==> Data !in held) && Passable(held', rest))
      && (Passable(held, p) ==> HeldAfter(held, p) == HeldAfter(held', rest))
    ensures HasBad([e]) == IsBad(e) && HasChecked([e]) == IsChecked(e) && NothingAfterBad([e])
  {
    assert IsBad([e][0]) == IsBad(e) && IsChecked([e][0]) == IsChecked(e);
    if IsChecked(e) {
      var first := CheckOps(e.conn.sensorId, alarm);
      Concat(held, first, rest);
      PassableConcat(held, first, rest);
      assert first[0] == Acquire(Data);
      if Data !in held {
        CheckAlone(e.conn.sensorId, alarm);
      }
    } else {
      assert [] + rest == rest;
    }
  }

  lemma {:induction false} CheckAlone(id: int, alarm: bool)
    ensures Passable({Connection}, CheckOps(id, alarm))
    ensures HeldAfter({Connection}, CheckOps(id, alarm)) == if ValidId(id) then {Connection} else {Connection, Data}
  {
    if ValidId(id) {
      CheckNests(id, alarm);
      ObeyingIsPassable({Connection}, CheckOps(id, alarm));
    } else {
      Concat({Connection}, [Acquire(Data)], LogCall());
      Single({Connection}, Acquire(Data));
      CallsNest({Connection, Data});
      ObeyingIsPassable({Connection, Data}, LogCall());
      PassableConcat({Connection}, [Acquire(Data)], LogCall());
      assert {Connection} + {Data} == {Connection, Data} && [Acquire(Data)][1..] == [];
    }
  }

  /** The entries that passes of the data manager visit, over lists that may change in between. */
  function Visits(passes: seq<Pass>): seq<Entry> {
    if passes == [] then [] else (if passes[0].DataPass? then passes[0].list else []) + Visits(passes[1..])
  }

  predicate OnlyData(passes: seq<Pass>) {
    forall k :: 0 <= k < |passes| ==> passes[k].DataPass?
  }

  lemma {:induction false} PassPassableIff(held: set<Lock>, p: Pass)
    requires (held == {} || held == {Data}) && p.DataPass?
    ensures Passable(held, Ops(p)) <==> NothingAfterBad(p.list) && (Data in held ==> !HasChecked(p.list))
    ensures Passable(held, Ops(p)) ==> HeldAfter(held, Ops(p)) == if HasBad(p.list) then {Data} else held
  {
    LockedHeld(held, Connection, CheckAllOps(p.list, p.alarm));
    assert held + {Connection} == if Data in held then {Connection, Data} else {Connection};
    CheckAllPassableIff(held + {Connection}, p.list, p.alarm);
  }

  lemma {:induction false} PassesPassableIff(held: set<Lock>, passes: seq<Pass>)
    requires (held == {} || held == {Data}) && OnlyData(passes)
    ensures Passable(held, ThreadOps(passes))
       <==> NothingAfterBad(Visits(passes)) && (Data in held ==> !HasChecked(Visits(passes)))
    decreases |passes|
  {
    if passes != [] {
      var p, more := passes[0], passes[1..];
      PassPassableIff(held, p);
      PassableConcat(held, Ops(p), ThreadOps(more));
      ConcatBad(p.list, Visits(more));
      PassesPassableIff(if HasBad(p.list) then {Data} else held, more);
    }
  }

  /**
   The data manager, making any number of passes over lists that may change
   between them, can finish these passes exactly when no checked sensor is
   visited after one whose id is outside the table, in that pass or a later one.
   */
  lemma {:induction false} DataManagerFinishesIff(passes: seq<Pass>)
    requires OnlyData(passes)
    ensures (exists schedule: seq<nat> :: Completes(ThreadOps(passes), schedule)) <==> NothingAfterBad(Visits(passes))
  {
    PassesPassableIff({}, passes);
    AloneFinishesIff(ThreadOps(passes));
  }

  // ---- What a hang stops ----

  /** Thread `u` holds the connection and the data mutex, and asks for the data mutex again. */
  predicate Hung(ts: seq<Thread>, u: nat) {
    && u < |ts| && Connection in ts[u].held && Data in ts[u].held
    && ts[u].rest != [] && ts[u].rest[0] == Acquire(Data)
  }

  /** The thread still has to take the connection mutex. */
  predicate NeedsConnection(th: Thread) {
    Acquire(Connection) in th.rest
  }

  /** It is about to take it. */
  predicate AtConnection(th: Thread) {
    th.rest != [] && th.rest[0] == Acquire(Connection)
  }

  lemma {:induction false} HungStep(ts: seq<Thread>, u: nat, s: nat)
    requires Hung(ts, u)
    ensures Step(ts, s)[u] == ts[u]
    ensures forall t :: 0 <= t < |ts| && AtConnection(ts[t]) ==> Step(ts, s)[t] == ts[t]
    ensures forall t :: 0 <= t < |ts| && NeedsConnection(ts[t]) ==> NeedsConnection(Step(ts, s)[t])
  {
    if Enabled(ts, s) {
      assert ts[s].rest == [ts[s].rest[0]] + ts[s].rest[1..];
    }
  }

  /**
   A hang is for ever: whatever is scheduled, the hung thread does not move, no
   thread that is about to take the connection mutex moves, and none that still
   has to take it finishes.
   */
  lemma {:induction false} HungForEver(ts: seq<Thread>, u: nat, schedule: seq<nat>)
    requires Hung(ts, u)
    ensures Run(ts, schedule)[u] == ts[u]
    ensures forall t :: 0 <= t < |ts| && AtConnection(ts[t]) ==> Run(ts, schedule)[t] == ts[t]
    ensures forall t :: 0 <= t < |ts| && NeedsConnection(ts[t]) ==> Run(ts, schedule)[t].rest != []
    ensures forall t :: 0 <= t < |ts| && NeedsConnection(ts[t]) ==> NeedsConnection(Run(ts, schedule)[t])
    decreases |schedule|
  {
    if schedule != [] {
      HungStep(ts, u, schedule[0]);
      HungForEver(Step(ts, schedule[0]), u, schedule[1..]);
    }
  }

  /** The passes that start by taking the connection mutex. */
  predicate UsesConnection(p: Pass) {
    p.AcceptPass? || p.TerminatePass? || p.DisconnectPass? || p.SweepPass? || p.StatusPass?
  }

  lemma {:induction false} ConnectionFirst(p: Pass)
    requires UsesConnection(p)
    ensures Ops(p) != [] && Ops(p)[0] == Acquire(Connection)
  {
  }

  /** A thread with such a pass ahead of it still has to take the mutex, and at the start of it is about to. */
  lemma {:induction false} PassesNeedConnection(th: Thread, now: seq<Op>, passes: seq<Pass>)
    requires th.rest == now + ThreadOps(passes) && passes != [] && UsesConnection(passes[0])
    ensures NeedsConnection(th) && (now == [] ==> AtConnection(th))
  {
    ConnectionFirst(passes[0]);
    assert th.rest[|now|] == Acquire(Connection);
  }

  // ---- A hang comes about ----

  /** The data manager keeps the rank except towards the data mutex, which it takes inside the connection mutex. */
  predicate Leaks(held: set<Lock>, p: seq<Op>)
    decreases |p|
  {
    p == [] || (MayDo(held, p[0]) && Leaks(After(held, p[0]), p[1..]))
  }

  predicate MayDo(held: set<Lock>, op: Op) {
    match op
    case Acquire(l) => if l == Data then Connection in held else forall h :: h in held - {Data} ==> Rank(h) < Rank(l)
    case Release(l) => l in held
  }

  lemma {:induction false} LeaksConcat(held: set<Lock>, p: seq<Op>, q: seq<Op>)
    ensures Leaks(held, p + q) <==> Leaks(held, p) && Leaks(HeldAfter(held, p), q)
    decreases |p|
  {
    if p == [] {
      assert p + q == q;
    } else {
      assert (p + q)[1..] == p[1..] + q;
      LeaksConcat(After(held, p[0]), p[1..], q);
    }
  }

  lemma {:induction false} LeaksSingle(held: set<Lock>, op: Op)
    ensures Leaks(held, [op]) <==> MayDo(held, op)
  {
    assert [op][1..] == [];
  }

  lemma {:induction false} LockedLeaks(held: set<Lock>, l: Lock, body: seq<Op>)
    requires Leaks(held, [Acquire(l)]) && Leaks(held + {l}, body) && l in HeldAfter(held + {l}, body)
    ensures Leaks(held, Locked(l, body)) && HeldAfter(held, Locked(l, body)) == HeldAfter(held + {l}, body) - {l}
  {
    LeaksConcat(held, [Acquire(l)] + body, [Release(l)]);
    LeaksConcat(held, [Acquire(l)], body);
    Concat(held, [Acquire(l)], body);
    Single(held, Acquire(l));
    LeaksSingle(HeldAfter(held + {l}, body), Release(l));
    LockedHeld(held, l, body);
  }

  lemma {:induction false} CheckLeaks(held: set<Lock>, id: int, alarm: bool)
    requires held == {Connection} || held == {Connection, Data}
    ensures Leaks(held, CheckOps(id, alarm))
    ensures HeldAfter(held, CheckOps(id, alarm)) == if ValidId(id) then {Connection} else {Connection, Data}
  {
    var both := {Connection, Data};
    assert held + {Data} == both;
    LeaksSingle(held, Acquire(Data));
    LeaksSingle(both, Acquire(Log));
    CallsNest(both);
    LockedLeaks(both, Log, []);
    if ValidId(id) {
      LockedLeaks(held, Data, if alarm then LogCall() else []);
    } else {
      LeaksConcat(held, [Acquire(Data)], LogCall());
      Concat(held, [Acquire(Data)], LogCall());
      Single(held, Acquire(Data));
    }
  }

  lemma {:induction false} CheckAllLeaks(held: set<Lock>, list: seq<Entry>, alarm: Entry -> bool)
    requires held == {Connection} || held == {Connection, Data}
    ensures Leaks(held, CheckAllOps(list, alarm))
    ensures var after := HeldAfter(held, CheckAllOps(list, alarm)); after == {Connection} || after == {Connection, Data}
    decreases |list|
  {
    if list != [] {
      var id, rest := list[0].conn.sensorId, CheckAllOps(list[1..], alarm);
      if IsChecked(list[0]) {
        var first := CheckOps(id, alarm(list[0]));
        CheckLeaks(held, id, alarm(list[0]));
        LeaksConcat(held, first, rest);
        Concat(held, first, rest);
        CheckAllLeaks(if ValidId(id) then {Connection} else {Connection, Data}, list[1..], alarm);
      } else {
        assert [] + rest == rest;
        CheckAllLeaks(held, list[1..], alarm);
      }
    }
  }

  lemma {:induction false} PassesLeak(held: set<Lock>, passes: seq<Pass>)
    requires (held == {} || held == {Data}) && OnlyData(passes)
    ensures Leaks(held, ThreadOps(passes)) && HeldAfter(held, ThreadOps(passes)) <= {Data}
    decreases |passes|
  {
    if passes != [] {
      var p, body := passes[0], CheckAllOps(passes[0].list, passes[0].alarm);
      LeaksSingle(held, Acquire(Connection));
      assert held + {Connection} == if Data in held then {Connection, Data} else {Connection};
      CheckAllLeaks(held + {Connection}, p.list, p.alarm);
      LockedLeaks(held, Connection, body);
      LeaksConcat(held, Ops(p), ThreadOps(passes[1..]));
      Concat(held, Ops(p), ThreadOps(passes[1..]));
      PassesLeak(HeldAfter(held, Ops(p)), passes[1..]);
    }
  }

  predicate AvoidsData(p: seq<Op>) {
    forall k :: 0 <= k < |p| ==> p[k].l != Data
  }

  lemma {:induction false} TimesAvoidData(n: nat, body: seq<Op>)
    requires AvoidsData(body)
    ensures AvoidsData(Times(n, body))
  {
    if n > 0 {
      TimesAvoidData(n - 1, body);
      AvoidsConcat(body, Times(n - 1, body));
    }
  }

  lemma AvoidsConcat(p: seq<Op>, q: seq<Op>)
    requires AvoidsData(p) && AvoidsData(q)
    ensures AvoidsData(p + q)
  {
  }

  lemma {:induction false} LockedAvoids(l: Lock, body: seq<Op>)
    requires AvoidsData(body) && l != Data
    ensures AvoidsData(Locked(l, body))
  {
    AvoidsConcat([Acquire(l)], body);
    AvoidsConcat([Acquire(l)] + body, [Release(l)]);
  }

  lemma {:induction false} CallsAvoidData(list: seq<Entry>, id: int)
    ensures AvoidsData(LogCall()) && AvoidsData(LimiterCall()) && AvoidsData(RemoveOps(list, id))
  {
    LockedAvoids(Log, []);
    LockedAvoids(Limiter, []);
    LockedAvoids(Connection, if FirstWithId(list, id) < |list| then LimiterCall() else []);
  }

  lemma {:induction false} AcceptAvoidsData(p: Pass)
    requires p.AcceptPass?
    ensures AvoidsData(Ops(p))
  {
    CallsAvoidData(p.list, p.id);
    LockedAvoids(Connection, []);
    var link := if p.allowed && p.gotMemory then Locked(Connection, []) else [];
    var undo := if p.registered then [] else RemoveOps(p.list, p.id) + LogCall();
    AvoidsConcat(RemoveOps(p.list, p.id), LogCall());
    AvoidsConcat(LimiterCall(), link);
    AvoidsConcat(LimiterCall() + link, LogCall());
    AvoidsConcat(LimiterCall() + link + LogCall(), undo);
    AvoidsConcat(Locked(Connection, []), if p.portTaken then [] else LimiterCall() + link + LogCall() + undo);
  }

  lemma {:induction false} OpsAvoidData(p: Pass)
    requires !p.DataPass?
    ensures AvoidsData(Ops(p))
  {
    CallsAvoidData([], 0);
    LockedAvoids(Connection, []);
    LockedAvoids(Storage, []);
    match p
    case AcceptPass(_, _, _, _, _, _) => AcceptAvoidsData(p);
    case TerminatePass(list, id) =>
      CallsAvoidData(list, id);
      AvoidsConcat(RemoveOps(list, id), LogCall());
    case DisconnectPass(found, broken, list, id) =>
      CallsAvoidData(list, id);
      AvoidsConcat(LogCall(), RemoveOps(list, id));
      AvoidsConcat(Locked(Connection, []), if found && broken then LogCall() + RemoveOps(list, id) else []);
    case SweepPass(list, now) =>
      AvoidsConcat(LimiterCall(), LogCall());
      TimesAvoidData(|Expired(list, now)|, LimiterCall() + LogCall());
      LockedAvoids(Connection, Times(|Expired(list, now)|, LimiterCall() + LogCall()));
    case StorageAddPass(gotMemory) => LockedAvoids(Storage, if gotMemory then [] else LogCall());
    case StorageDrainPass(failures) =>
      TimesAvoidData(failures, LogCall());
      LockedAvoids(Storage, Times(failures, LogCall()));
    case StorageConnectPass(_) =>
    case StatusPass => AvoidsConcat(Locked(Connection, []), Locked(Storage, []));
  }

  /** A thread that makes no data pass: it keeps the rank and never touches the data mutex. */
  ghost predicate Bystander(th: Thread) {
    Disciplined(th.held, th.rest) && AvoidsData(th.rest) && Data !in th.held
  }

  lemma {:induction false} PassesBystander(passes: seq<Pass>)
    requires forall k :: 0 <= k < |passes| ==> !passes[k].DataPass?
    ensures Bystander(Thread({}, ThreadOps(passes)))
    decreases |passes|
  {
    if passes != [] {
      PassNests(passes[0]);
      OpsAvoidData(passes[0]);
      PassesBystander(passes[1..]);
      Concat({}, Ops(passes[0]), ThreadOps(passes[1..]));
    }
  }

  /** Thread 0 is the data manager, the others are bystanders, and the mutexes exclude. */
  ghost predicate Together(ts: seq<Thread>) {
    && ts != [] && Leaks(ts[0].held, ts[0].rest) && HeldAfter(ts[0].held, ts[0].rest) <= {Data}
    && (forall t :: 1 <= t < |ts| ==> Bystander(ts[t]))
    && (forall t, u :: 0 <= t < u < |ts| ==> ts[t].held !! ts[u].held)
  }

  lemma {:induction false} BystanderStep(th: Thread)
    requires Bystander(th) && th.rest != []
    ensures Bystander(Thread(After(th.held, th.rest[0]), th.rest[1..]))
  {
    assert th.rest[0].l != Data;
  }

  lemma {:induction false} StepKeepsTogether(ts: seq<Thread>, t: nat)
    requires Together(ts)
    ensures Together(Step(ts, t))
  {
    if Enabled(ts, t) && t > 0 {
      BystanderStep(ts[t]);
    }
  }

  lemma {:induction false} RunKeepsTogether(ts: seq<Thread>, schedule: seq<nat>)
    requires Together(ts)
    ensures Together(Run(ts, schedule))
    decreases |schedule|
  {
    if schedule != [] {
      StepKeepsTogether(ts, schedule[0]);
      RunKeepsTogether(Step(ts, schedule[0]), schedule[1..]);
    }
  }

  /** The chain of waiting threads ends at one that can move, or at the data manager waiting for itself. */
  lemma {:induction false} SomeoneMovesOrHangs(ts: seq<Thread>, t: nat) returns (u: nat)
    requires Together(ts) && t < |ts| && ts[t].rest != []
    ensures Hung(ts, 0) || Enabled(ts, u)
    decreases if ts[t].rest[0].Acquire? && ts[t].rest[0].l != Data then 5 - Rank(ts[t].rest[0].l) else 0
  {
    u := t;
    if !Enabled(ts, t) {
      var l := ts[t].rest[0].l;
      assert t > 0 ==> Bystander(ts[t]);
      var owner :| 0 <= owner < |ts| && l in ts[owner].held;
      assert owner > 0 ==> Bystander(ts[owner]);
      if l != Data {
        assert ts[owner].rest != [];
        u := SomeoneMovesOrHangs(ts, owner);
      }
    }
  }

  function Programs(threads: seq<seq<Pass>>): seq<seq<Op>> {
    seq(|threads|, i requires 0 <= i < |threads| => ThreadOps(threads[i]))
  }

  /** The data manager and any number of other threads, at their start. */
  function Gathered(data: seq<Pass>, others: seq<seq<Pass>>): seq<Thread> {
    Start(Programs([data] + others))
  }

  ghost predicate NoneData(others: seq<seq<Pass>>) {
    forall i, k :: 0 <= i < |others| && 0 <= k < |others[i]| ==> !others[i][k].DataPass?
  }

  lemma {:induction false} GatheredThreads(data: seq<Pass>, others: seq<seq<Pass>>)
    ensures |Gathered(data, others)| == |others| + 1
    ensures Gathered(data, others)[0] == Thread({}, ThreadOps(data))
    ensures forall t :: 1 <= t <= |others| ==> Gathered(data, others)[t] == Thread({}, ThreadOps(others[t - 1]))
  {
    var all := [data] + others;
    assert all[0] == data && forall t :: 1 <= t <= |others| ==> all[t] == others[t - 1];
  }

  lemma NoneDataAt(others: seq<seq<Pass>>, i: nat)
    requires NoneData(others) && i < |others|
    ensures forall k :: 0 <= k < |others[i]| ==> !others[i][k].DataPass?
  {
  }

  lemma {:induction false} GatheredTogether(data: seq<Pass>, others: seq<seq<Pass>>)
    requires OnlyData(data) && NoneData(others)
    ensures Together(Gathered(data, others)) && Gathered(data, others)[0] == Thread({}, ThreadOps(data))
  {
    var ts := Gathered(data, others);
    PassesLeak({}, data);
    GatheredThreads(data, others);
    forall t | 1 <= t < |ts|
      ensures Bystander(ts[t])
    {
      NoneDataAt(others, t - 1);
      PassesBystander(others[t - 1]);
    }
  }

  lemma {:induction false} RunToHang(ts: seq<Thread>) returns (rest: seq<nat>)
    requires Together(ts) && !Passable(ts[0].held, ts[0].rest)
    ensures Hung(Run(ts, rest), 0)
    decreases Remaining(ts)
  {
    rest := [];
    if !Hung(ts, 0) {
      var u := SomeoneMovesOrHangs(ts, 0);
      StepLowersRemaining(ts, u, Step(ts, u)[u]);
      StepKeepsTogether(ts, u);
      var more := RunToHang(Step(ts, u));
      rest := [u] + more;
      assert rest[1..] == more;
    }
  }

  /** What a thread can get through does not depend on how far it is, nor on the others. */
  lemma {:induction false} PassableLaterIff(ts: seq<Thread>, t: nat, schedule: seq<nat>)
    requires t < |ts|
    ensures Passable(Run(ts, schedule)[t].held, Run(ts, schedule)[t].rest) <==> Passable(ts[t].held, ts[t].rest)
    decreases |schedule|
  {
    if schedule != [] {
      PassableLaterIff(Step(ts, schedule[0]), t, schedule[1..]);
    }
  }

  /**
   If a checked sensor is visited after one with a bad id, then in any company
   and under any schedule the data manager never finishes; as long as it does
   not hang some thread can move, and each move shortens what is left, so that
   every run that is not broken off ends with the hang; and every state on the
   way can be continued to it.
   */
  lemma {:induction false} HangIsInevitable(data: seq<Pass>, others: seq<seq<Pass>>, schedule: seq<nat>)
    returns (rest: seq<nat>)
    requires OnlyData(data) && NoneData(others) && !NothingAfterBad(Visits(data))
    ensures var ts := Run(Gathered(data, others), schedule);
      && ts[0].rest != []
      && (Hung(ts, 0) || exists t: nat :: Enabled(ts, t))
      && (forall t: nat :: Enabled(ts, t) ==> Remaining(Step(ts, t)) < Remaining(ts))
      && Hung(Run(ts, rest), 0)
  {
    var start := Gathered(data, others);
    GatheredTogether(data, others);
    PassesPassableIff({}, data);
    RunKeepsTogether(start, schedule);
    PassableLaterIff(start, 0, schedule);
    var ts := Run(start, schedule);
    var u := SomeoneMovesOrHangs(ts, 0);
    forall t: nat | Enabled(ts, t)
      ensures Remaining(Step(ts, t)) < Remaining(ts)
    {
      StepLowersRemaining(ts, t, Step(ts, t)[t]);
    }
    rest := RunToHang(ts);
  }

  /** No thread can move, and one has not finished. */
  ghost predicate Stuck(ts: seq<Thread>) {
    !Done(ts) && forall t: nat :: !Enabled(ts, t)
  }

  lemma {:induction false} RunToEnd(ts: seq<Thread>) returns (rest: seq<nat>)
    ensures forall t: nat :: !Enabled(Run(ts, rest), t)
    decreases Remaining(ts)
  {
    rest := [];
    if t: nat :| Enabled(ts, t) {
      StepLowersRemaining(ts, t, Step(ts, t)[t]);
      var more := RunToEnd(Step(ts, t));
      rest := [t] + more;
      assert rest[1..] == more;
    }
  }

  /**
   The exact condition for the whole gateway: one data manager and any number
   of other threads, each making any passes, can get stuck under some schedule
   if and only if a checked sensor is visited after one with a bad id.
   */
  lemma {:induction false} GatewayGetsStuckIff(data: seq<Pass>, others: seq<seq<Pass>>)
    requires OnlyData(data) && NoneData(others)
    ensures (exists schedule: seq<nat> :: Stuck(Run(Gathered(data, others), schedule))) <==> !NothingAfterBad(Visits(data))
  {
    var start := Gathered(data, others);
    GatheredTogether(data, others);
    PassesPassableIff({}, data);
    if NothingAfterBad(Visits(data)) {
      forall schedule: seq<nat>
        ensures !Stuck(Run(start, schedule))
      {
        NotStuck(start, schedule);
      }
    } else {
      var schedule := RunToEnd(start);
      PassableLaterIff(start, 0, schedule);
      assert Stuck(Run(start, schedule));
    }
  }

  lemma {:induction false} NotStuck(start: seq<Thread>, schedule: seq<nat>)
    requires Together(start) && Passable(start[0].held, start[0].rest)
    ensures !Stuck(Run(start, schedule))
  {
    RunKeepsTogether(start, schedule);
    PassableLaterIff(start, 0, schedule);
    var ts := Run(start, schedule);
    if !Done(ts) {
      var t :| 0 <= t < |ts| && ts[t].rest != [];
      var u := SomeoneMovesOrHangs(ts, t);
    }
  }
}
