/**
 Deadlock freedom of the gateway's mutexes.

 A thread is the list of lock operations its passes through the code perform.
 If every operation follows one rank, no schedule of any number of threads gets
 stuck; the gateway's code follows the rank except where the data check meets
 a sensor id outside its table.
 */
module LockOrder {
  import opened SensorConnections
  import opened Temperature

  datatype Lock = Connection | Storage | Data | Limiter | Log

  function Rank(l: Lock): nat {
    match l
    case Connection => 0
    case Storage => 1
    case Data => 2
    case Limiter => 3
    case Log => 4
  }

  datatype Op = Acquire(l: Lock) | Release(l: Lock)

  function After(held: set<Lock>, op: Op): set<Lock> {
    if op.Acquire? then held + {op.l} else held - {op.l}
  }

  /** The locks held after `p`, started with `held`. */
  function HeldAfter(held: set<Lock>, p: seq<Op>): set<Lock>
    decreases |p|
  {
    if p == [] then held else HeldAfter(After(held, p[0]), p[1..])
  }

  /** `p` takes locks in increasing rank and gives back only what it holds. */
  predicate Obeys(held: set<Lock>, p: seq<Op>)
    decreases |p|
  {
    p == [] ||
    match p[0]
    case Acquire(l) => (forall h :: h in held ==> Rank(h) < Rank(l)) && Obeys(held + {l}, p[1..])
    case Release(l) => l in held && Obeys(held - {l}, p[1..])
  }

  predicate Disciplined(held: set<Lock>, p: seq<Op>) {
    Obeys(held, p) && HeldAfter(held, p) == {}
  }

  lemma {:induction false} Concat(held: set<Lock>, p: seq<Op>, q: seq<Op>)
    ensures HeldAfter(held, p + q) == HeldAfter(HeldAfter(held, p), q)
    ensures Obeys(held, p + q) <==> Obeys(held, p) && Obeys(HeldAfter(held, p), q)
    decreases |p|
  {
    if p == [] {
      assert p + q == q;
    } else {
      assert (p + q)[1..] == p[1..] + q;
      Concat(After(held, p[0]), p[1..], q);
    }
  }

  // ---- Threads and schedules ----

  datatype Thread = Thread(held: set<Lock>, rest: seq<Op>)

  predicate Free(ts: seq<Thread>, l: Lock) {
    forall u :: 0 <= u < |ts| ==> l !in ts[u].held
  }

  /** A thread blocks on a held mutex, its own included. */
  predicate Enabled(ts: seq<Thread>, t: nat) {
    t < |ts| && ts[t].rest != [] && (ts[t].rest[0].Acquire? ==> Free(ts, ts[t].rest[0].l))
  }

  function Step(ts: seq<Thread>, t: nat): (r: seq<Thread>)
    ensures |r| == |ts|
  {
    if !Enabled(ts, t) then ts
    else ts[t := Thread(After(ts[t].held, ts[t].rest[0]), ts[t].rest[1..])]
  }

  function Run(ts: seq<Thread>, schedule: seq<nat>): (r: seq<Thread>)
    ensures |r| == |ts|
    decreases |schedule|
  {
    if schedule == [] then ts else Run(Step(ts, schedule[0]), schedule[1..])
  }

  function Start(programs: seq<seq<Op>>): seq<Thread> {
    seq(|programs|, i requires 0 <= i < |programs| => Thread({}, programs[i]))
  }

  ghost predicate Inv(ts: seq<Thread>) {
    && (forall t :: 0 <= t < |ts| ==> Disciplined(ts[t].held, ts[t].rest))
    && (forall t, u :: 0 <= t < u < |ts| ==> ts[t].held !! ts[u].held)
  }

  predicate Done(ts: seq<Thread>) {
    forall t :: 0 <= t < |ts| ==> ts[t].rest == []
  }

  lemma StepKeepsInv(ts: seq<Thread>, t: nat)
    requires Inv(ts)
    ensures Inv(Step(ts, t))
  {
  }

  lemma {:induction false} RunKeepsInv(ts: seq<Thread>, schedule: seq<nat>)
    requires Inv(ts)
    ensures Inv(Run(ts, schedule))
    decreases |schedule|
  {
    if schedule != [] {
      StepKeepsInv(ts, schedule[0]);
      RunKeepsInv(Step(ts, schedule[0]), schedule[1..]);
    }
  }

  /** Follow the chain of waiting threads: each waits for a lock of higher rank than the last, so it ends. */
  lemma {:induction false} SomeoneCanMove(ts: seq<Thread>, t: nat) returns (u: nat)
    requires Inv(ts) && t < |ts| && ts[t].rest != []
    ensures Enabled(ts, u)
    decreases if ts[t].rest[0].Acquire? then 5 - Rank(ts[t].rest[0].l) else 0
  {
    if Enabled(ts, t) {
      u := t;
    } else {
      var l := ts[t].rest[0].l;
      var owner :| 0 <= owner < |ts| && l in ts[owner].held;
      assert Disciplined(ts[owner].held, ts[owner].rest);
      assert ts[owner].rest != [];
      u := SomeoneCanMove(ts, owner);
    }
  }

  function Remaining(ts: seq<Thread>): nat {
    if ts == [] then 0 else |ts[0].rest| + Remaining(ts[1..])
  }

  lemma {:induction false} StepLowersRemaining(ts: seq<Thread>, t: nat, next: Thread)
    requires t < |ts| && |next.rest| < |ts[t].rest|
    ensures Remaining(ts[t := next]) < Remaining(ts)
  {
    if t > 0 {
      assert ts[t := next][1..] == ts[1..][t - 1 := next];
      StepLowersRemaining(ts[1..], t - 1, next);
    }
  }

  /**
   No deadlock: after any schedule of any number of disciplined programs, either
   every thread has finished or one can move, and a move always shortens what
   is left to do.
   */
  lemma {:induction false} NoDeadlock(programs: seq<seq<Op>>, schedule: seq<nat>)
    requires forall i :: 0 <= i < |programs| ==> Disciplined({}, programs[i])
    ensures var ts := Run(Start(programs), schedule);
      && (Done(ts) || exists t: nat :: Enabled(ts, t))
      && (forall t: nat :: Enabled(ts, t) ==> Remaining(Step(ts, t)) < Remaining(ts))
  {
    RunKeepsInv(Start(programs), schedule);
    var ts := Run(Start(programs), schedule);
    if !Done(ts) {
      var t :| 0 <= t < |ts| && ts[t].rest != [];
      var u := SomeoneCanMove(ts, t);
    }
    forall t: nat | Enabled(ts, t)
      ensures Remaining(Step(ts, t)) < Remaining(ts)
    {
      StepLowersRemaining(ts, t, Step(ts, t)[t]);
    }
  }

  /** Mutual exclusion, for any programs: after any schedule no two threads hold the same lock. */
  lemma {:induction false} LocksExclude(ts: seq<Thread>, schedule: seq<nat>, t: nat, u: nat)
    requires forall i, j :: 0 <= i < j < |ts| ==> ts[i].held !! ts[j].held
    requires t < u < |ts|
    ensures Run(ts, schedule)[t].held !! Run(ts, schedule)[u].held
    decreases |schedule|
  {
    if schedule != [] {
      LocksExclude(Step(ts, schedule[0]), schedule[1..], t, u);
    }
  }

  // ---- The gateway's passes ----

  /** A critical section on `l` with `body` inside it. */
  function Locked(l: Lock, body: seq<Op>): seq<Op> {
    [Acquire(l)] + body + [Release(l)]
  }

  function LogCall(): seq<Op> {
    Locked(Log, [])
  }

  function LimiterCall(): seq<Op> {
    Locked(Limiter, [])
  }

  function Times(n: nat, body: seq<Op>): seq<Op> {
    if n == 0 then [] else body + Times(n - 1, body)
  }

  function RemoveOps(list: seq<Entry>, id: int): seq<Op> {
    Locked(Connection, if FirstWithId(list, id) < |list| then LimiterCall() else [])
  }

  predicate IsChecked(e: Entry) {
    e.conn.isActive && e.latest.isValid
  }

  /** `check_temperature_status`: a bad id is logged and left with the data mutex still held. */
  function CheckOps(id: int, alarm: bool): seq<Op> {
    if !ValidId(id) then [Acquire(Data)] + LogCall()
    else Locked(Data, if alarm then LogCall() else [])
  }

  function CheckAllOps(list: seq<Entry>, alarm: Entry -> bool): seq<Op> {
    if list == [] then []
    else (if IsChecked(list[0]) then CheckOps(list[0].conn.sensorId, alarm(list[0])) else [])
         + CheckAllOps(list[1..], alarm)
  }

  /** One pass of a gateway thread through its code, with the outcomes that steer it. */
  datatype Pass =
    | AcceptPass(portTaken: bool, allowed: bool, gotMemory: bool, registered: bool, list: seq<Entry>, id: int)
    | TerminatePass(list: seq<Entry>, id: int)
    | DisconnectPass(found: bool, broken: bool, list: seq<Entry>, id: int)
    | SweepPass(list: seq<Entry>, now: int)
    | DataPass(list: seq<Entry>, alarm: Entry -> bool)
    | StorageAddPass(gotMemory: bool)
    | StorageDrainPass(failures: nat)
    | StorageConnectPass(connected: bool)
    | StatusPass

  function Ops(p: Pass): seq<Op> {
    match p
    case AcceptPass(portTaken, allowed, gotMemory, registered, list, id) =>
      Locked(Connection, []) +
      if portTaken then []
      else
        LimiterCall() + (if allowed && gotMemory then Locked(Connection, []) else []) + LogCall()
        + if registered then [] else RemoveOps(list, id) + LogCall()
    case TerminatePass(list, id) => RemoveOps(list, id) + LogCall()
    case DisconnectPass(found, broken, list, id) =>
      Locked(Connection, []) + if found && broken then LogCall() + RemoveOps(list, id) else []
    case SweepPass(list, now) => Locked(Connection, Times(|Expired(list, now)|, LimiterCall() + LogCall()))
    case DataPass(list, alarm) => Locked(Connection, CheckAllOps(list, alarm))
    case StorageAddPass(gotMemory) => Locked(Storage, if gotMemory then [] else LogCall())
    case StorageDrainPass(failures) => Locked(Storage, Times(failures, LogCall()))
    case StorageConnectPass(connected) => if connected then LogCall() else []
    case StatusPass => Locked(Connection, []) + Locked(Storage, [])
  }

  function ThreadOps(passes: seq<Pass>): seq<Op> {
    if passes == [] then [] else Ops(passes[0]) + ThreadOps(passes[1..])
  }

  /** The passes that keep the rank: every sensor the data check looks at has an id its table knows. */
  ghost predicate Sound(p: Pass) {
    p.DataPass? ==> forall e :: e in p.list && IsChecked(e) ==> ValidId(e.conn.sensorId)
  }

  // ---- The gateway keeps the rank ----

  /** `body` runs inside `held` and gives everything back. */
  predicate Nests(held: set<Lock>, body: seq<Op>) {
    Obeys(held, body) && HeldAfter(held, body) == held
  }

  lemma {:induction false} NestsConcat(held: set<Lock>, p: seq<Op>, q: seq<Op>)
    requires Nests(held, p) && Nests(held, q)
    ensures Nests(held, p + q)
  {
    Concat(held, p, q);
  }

  lemma {:induction false} Single(held: set<Lock>, op: Op)
    ensures HeldAfter(held, [op]) == After(held, op)
    ensures Obeys(held, [op]) <==> if op.Acquire? then (forall h :: h in held ==> Rank(h) < Rank(op.l)) else op.l in held
  {
    assert [op][1..] == [];
    assert Obeys(held, [op]) ==
           match op
           case Acquire(l) => (forall h :: h in held ==> Rank(h) < Rank(l)) && Obeys(held + {l}, [op][1..])
           case Release(l) => l in held && Obeys(held - {l}, [op][1..]);
  }

  lemma {:induction false} LockedNests(held: set<Lock>, l: Lock, body: seq<Op>)
    requires forall h :: h in held ==> Rank(h) < Rank(l)
    requires Nests(held + {l}, body) || (held == {} && Nests({l}, body))
    ensures Nests(held, Locked(l, body))
  {
    Concat(held, [Acquire(l)] + body, [Release(l)]);
    Concat(held, [Acquire(l)], body);
    Single(held, Acquire(l));
    Single(held + {l}, Release(l));
    assert held + {l} - {l} == held;
    assert {} + {l} == {l};
  }

  lemma {:induction false} CallsNest(held: set<Lock>)
    requires Limiter !in held && Log !in held
    ensures Nests(held, LogCall()) && Nests(held, LimiterCall()) && Nests(held, [])
  {
    LockedNests(held, Log, []);
    LockedNests(held, Limiter, []);
  }

  lemma {:induction false} TimesNests(held: set<Lock>, n: nat, body: seq<Op>)
    requires Nests(held, body)
    ensures Nests(held, Times(n, body))
  {
    if n > 0 {
      TimesNests(held, n - 1, body);
      NestsConcat(held, body, Times(n - 1, body));
    }
  }

  lemma {:induction false} RemoveNests(list: seq<Entry>, id: int)
    ensures Nests({}, RemoveOps(list, id))
  {
    CallsNest({Connection});
    LockedNests({}, Connection, if FirstWithId(list, id) < |list| then LimiterCall() else []);
  }

  lemma {:induction false} AcceptNests(p: Pass)
    requires p.AcceptPass?
    ensures Nests({}, Ops(p))
  {
    CallsNest({});
    LockedNests({}, Connection, []);
    RemoveNests(p.list, p.id);
    var link := if p.allowed && p.gotMemory then Locked(Connection, []) else [];
    var undo := if p.registered then [] else RemoveOps(p.list, p.id) + LogCall();
    NestsConcat({}, RemoveOps(p.list, p.id), LogCall());
    NestsConcat({}, LimiterCall(), link);
    NestsConcat({}, LimiterCall() + link, LogCall());
    NestsConcat({}, LimiterCall() + link + LogCall(), undo);
    NestsConcat({}, Locked(Connection, []), if p.portTaken then [] else LimiterCall() + link + LogCall() + undo);
  }

  lemma {:induction false} CheckNests(id: int, alarm: bool)
    requires ValidId(id)
    ensures Nests({Connection}, CheckOps(id, alarm))
  {
    CallsNest({Connection} + {Data});
    LockedNests({Connection}, Data, if alarm then LogCall() else []);
  }

  lemma {:induction false} CheckAllNests(list: seq<Entry>, alarm: Entry -> bool)
    requires forall e :: e in list && IsChecked(e) ==> ValidId(e.conn.sensorId)
    ensures Nests({Connection}, CheckAllOps(list, alarm))
  {
    if list != [] {
      CheckAllNests(list[1..], alarm);
      if IsChecked(list[0]) {
        CheckNests(list[0].conn.sensorId, alarm(list[0]));
        NestsConcat({Connection}, CheckOps(list[0].conn.sensorId, alarm(list[0])), CheckAllOps(list[1..], alarm));
      } else {
        assert [] + CheckAllOps(list[1..], alarm) == CheckAllOps(list[1..], alarm);
      }
    }
  }

  lemma {:induction false} SweepNests(list: seq<Entry>, now: int)
    ensures Nests({}, Ops(SweepPass(list, now)))
  {
    CallsNest({Connection});
    NestsConcat({Connection}, LimiterCall(), LogCall());
    TimesNests({Connection}, |Expired(list, now)|, LimiterCall() + LogCall());
    LockedNests({}, Connection, Times(|Expired(list, now)|, LimiterCall() + LogCall()));
  }

  lemma {:induction false} DrainNests(failures: nat)
    ensures Nests({}, Ops(StorageDrainPass(failures)))
  {
    CallsNest({Storage});
    TimesNests({Storage}, failures, LogCall());
    LockedNests({}, Storage, Times(failures, LogCall()));
  }

  lemma {:induction false} PassNests(p: Pass)
    requires Sound(p)
    ensures Nests({}, Ops(p))
  {
    CallsNest({});
    CallsNest({Connection});
    CallsNest({Storage});
    LockedNests({}, Connection, []);
    LockedNests({}, Storage, []);
    match p
    case AcceptPass(_, _, _, _, _, _) => AcceptNests(p);
    case TerminatePass(list, id) =>
      RemoveNests(list, id);
      NestsConcat({}, RemoveOps(list, id), LogCall());
    case DisconnectPass(found, broken, list, id) =>
      RemoveNests(list, id);
      NestsConcat({}, LogCall(), RemoveOps(list, id));
      NestsConcat({}, Locked(Connection, []), if found && broken then LogCall() + RemoveOps(list, id) else []);
    case SweepPass(list, now) => SweepNests(list, now);
    case DataPass(list, alarm) =>
      CheckAllNests(list, alarm);
      LockedNests({}, Connection, CheckAllOps(list, alarm));
    case StorageAddPass(gotMemory) => LockedNests({}, Storage, if gotMemory then [] else LogCall());
    case StorageDrainPass(failures) => DrainNests(failures);
    case StorageConnectPass(_) =>
    case StatusPass => NestsConcat({}, Locked(Connection, []), Locked(Storage, []));
  }

  lemma {:induction false} ThreadNests(passes: seq<Pass>)
    requires forall p :: p in passes ==> Sound(p)
    ensures Disciplined({}, ThreadOps(passes))
  {
    if passes != [] {
      PassNests(passes[0]);
      ThreadNests(passes[1..]);
      NestsConcat({}, Ops(passes[0]), ThreadOps(passes[1..]));
    }
  }

  /**
   The gateway does not deadlock: any number of threads, each making any number
   of passes, under any schedule, as long as the data check only meets ids in
   its table.
   */
  lemma {:induction false} GatewayNeverDeadlocks(threads: seq<seq<Pass>>, schedule: seq<nat>)
    requires forall i :: 0 <= i < |threads| ==> forall p :: p in threads[i] ==> Sound(p)
    ensures var programs := seq(|threads|, i requires 0 <= i < |threads| => ThreadOps(threads[i]));
      var ts := Run(Start(programs), schedule);
      Done(ts) || exists t: nat :: Enabled(ts, t)
  {
    var programs := seq(|threads|, i requires 0 <= i < |threads| => ThreadOps(threads[i]));
    forall i | 0 <= i < |programs|
      ensures Disciplined({}, programs[i])
    {
      ThreadNests(threads[i]);
    }
    NoDeadlock(programs, schedule);
  }
}
