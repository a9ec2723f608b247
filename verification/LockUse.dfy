/**
 What the lock programs of the gateway's passes contain: every mutex that a pass
 takes, how often, and which ones it holds meanwhile.
 */
module LockUse {
  import opened SensorConnections
  import opened Temperature
  import opened LockOrder

  /** A mutex is taken while those of `under` are held. */
  datatype Taking = Taking(lock: Lock, under: set<Lock>)

  function Takings(held: set<Lock>, p: seq<Op>): multiset<Taking>
    decreases |p|
  {
    if p == [] then multiset{}
    else (if p[0].Acquire? then multiset{Taking(p[0].l, held)} else multiset{}) + Takings(After(held, p[0]), p[1..])
  }

  lemma {:induction false} TakingsConcat(held: set<Lock>, p: seq<Op>, q: seq<Op>)
    ensures Takings(held, p + q) == Takings(held, p) + Takings(HeldAfter(held, p), q)
    decreases |p|
  {
    if p == [] {
      assert p + q == q;
    } else {
      assert (p + q)[1..] == p[1..] + q;
      TakingsConcat(After(held, p[0]), p[1..], q);
    }
  }

  lemma {:induction false} TakingsSingle(held: set<Lock>, op: Op)
    ensures Takings(held, [op]) == if op.Acquire? then multiset{Taking(op.l, held)} else multiset{}
  {
    assert [op][1..] == [];
  }

  lemma {:induction false} LockedTakings(held: set<Lock>, l: Lock, body: seq<Op>)
    ensures Takings(held, Locked(l, body)) == multiset{Taking(l, held)} + Takings(held + {l}, body)
  {
    TakingsConcat(held, [Acquire(l)] + body, [Release(l)]);
    TakingsConcat(held, [Acquire(l)], body);
    TakingsSingle(held, Acquire(l));
    TakingsSingle(HeldAfter(held, [Acquire(l)] + body), Release(l));
    Single(held, Acquire(l));
  }

  function Many(n: nat, x: Taking): multiset<Taking> {
    multiset{}[x := n]
  }

  /** One short call of the log or the limiter: it takes its own mutex once and gives it back. */
  lemma {:induction false} CallTakings(held: set<Lock>)
    requires Log !in held && Limiter !in held
    ensures Takings(held, LogCall()) == multiset{Taking(Log, held)} && HeldAfter(held, LogCall()) == held
    ensures Takings(held, LimiterCall()) == multiset{Taking(Limiter, held)} && HeldAfter(held, LimiterCall()) == held
  {
    LockedTakings(held, Log, []);
    LockedTakings(held, Limiter, []);
    CallsNest(held);
  }

  /** Two bodies one after the other, the first of which gives back what it takes. */
  lemma {:induction false} TakingsOf(held: set<Lock>, p: seq<Op>, q: seq<Op>)
    requires HeldAfter(held, p) == held
    ensures Takings(held, p + q) == Takings(held, p) + Takings(held, q) && HeldAfter(held, p + q) == HeldAfter(held, q)
  {
    TakingsConcat(held, p, q);
    Concat(held, p, q);
  }

  // ---- Pass by pass ----

  lemma {:induction false} SweepCalls(n: nat)
    ensures Takings({Connection}, Times(n, LimiterCall() + LogCall()))
         == Many(n, Taking(Limiter, {Connection})) + Many(n, Taking(Log, {Connection}))
  {
    if n > 0 {
      SweepCalls(n - 1);
      CallTakings({Connection});
      TakingsOf({Connection}, LimiterCall(), LogCall());
      TakingsOf({Connection}, LimiterCall() + LogCall(), Times(n - 1, LimiterCall() + LogCall()));
    }
  }

  /** The sweep takes the connection mutex once and, inside it, limiter and log once for every expired connection. */
  lemma {:induction false} SweepTakings(list: seq<Entry>, now: int)
    ensures var n := |Expired(list, now)|;
      Takings({}, Ops(SweepPass(list, now)))
      == multiset{Taking(Connection, {})} + Many(n, Taking(Limiter, {Connection})) + Many(n, Taking(Log, {Connection}))
  {
    var n := |Expired(list, now)|;
    OuterTakings(Connection, Times(n, LimiterCall() + LogCall()));
    SweepCalls(n);
  }

  /** A removal calls the limiter, inside the connection mutex, exactly if some sensor of the list has the id. */
  lemma {:induction false} RemoveTakings(list: seq<Entry>, id: int)
    ensures Takings({}, RemoveOps(list, id))
         == multiset{Taking(Connection, {})}
            + if exists k :: 0 <= k < |list| && list[k].conn.sensorId == id then multiset{Taking(Limiter, {Connection})}
              else multiset{}
    ensures HeldAfter({}, RemoveOps(list, id)) == {}
  {
    OuterTakings(Connection, if FirstWithId(list, id) < |list| then LimiterCall() else []);
    CallTakings({Connection});
    RemoveNests(list, id);
  }

  lemma {:induction false} SectionTakings(l: Lock)
    ensures Takings({}, Locked(l, [])) == multiset{Taking(l, {})} && HeldAfter({}, Locked(l, [])) == {}
  {
    LockedTakings({}, l, []);
    LockedNests({}, l, []);
  }

  lemma {:induction false} UndoTakings(list: seq<Entry>, id: int)
    ensures Takings({}, RemoveOps(list, id) + LogCall()) == Takings({}, RemoveOps(list, id)) + multiset{Taking(Log, {})}
  {
    RemoveTakings(list, id);
    CallTakings({});
    TakingsOf({}, RemoveOps(list, id), LogCall());
  }

  lemma {:induction false} AddTakings(linked: bool)
    ensures var link := if linked then Locked(Connection, []) else [];
      && Takings({}, LimiterCall() + link + LogCall())
         == multiset{Taking(Limiter, {}), Taking(Log, {})} + (if linked then multiset{Taking(Connection, {})} else multiset{})
      && HeldAfter({}, LimiterCall() + link + LogCall()) == {}
  {
    var link := if linked then Locked(Connection, []) else [];
    SectionTakings(Connection);
    CallTakings({});
    TakingsOf({}, LimiterCall(), link);
    TakingsOf({}, LimiterCall() + link, LogCall());
  }

  /**
   An accept checks the port in a section of its own.  Unless the port is taken
   it asks the limiter with no mutex held, links the node in a second section
   exactly if the limiter agreed and a node was allocated, and logs; a failed
   registration removes and logs again.
   */
  lemma {:induction false} AcceptTakings(p: Pass)
    requires p.AcceptPass?
    ensures Takings({}, Ops(p))
         == multiset{Taking(Connection, {})}
            + if p.portTaken then multiset{}
              else
                multiset{Taking(Limiter, {}), Taking(Log, {})}
                + (if p.allowed && p.gotMemory then multiset{Taking(Connection, {})} else multiset{})
                + if p.registered then multiset{} else Takings({}, RemoveOps(p.list, p.id)) + multiset{Taking(Log, {})}
  {
    SectionTakings(Connection);
    AddTakings(p.allowed && p.gotMemory);
    UndoTakings(p.list, p.id);
    var add := LimiterCall() + (if p.allowed && p.gotMemory then Locked(Connection, []) else []) + LogCall();
    var undo := if p.registered then [] else RemoveOps(p.list, p.id) + LogCall();
    TakingsOf({}, add, undo);
    TakingsOf({}, Locked(Connection, []), if p.portTaken then [] else add + undo);
  }

  /** The two removers: a typed terminate, and a disconnect that finds its sensor and a broken socket. */
  lemma {:induction false} RemoverTakings(p: Pass)
    requires p.TerminatePass? || p.DisconnectPass?
    ensures Takings({}, Ops(p))
         == if p.TerminatePass? then Takings({}, RemoveOps(p.list, p.id)) + multiset{Taking(Log, {})}
            else
              multiset{Taking(Connection, {})}
              + if p.found && p.broken then multiset{Taking(Log, {})} + Takings({}, RemoveOps(p.list, p.id)) else multiset{}
  {
    SectionTakings(Connection);
    CallTakings({});
    RemoveTakings(p.list, p.id);
    TakingsOf({}, RemoveOps(p.list, p.id), LogCall());
    TakingsOf({}, LogCall(), RemoveOps(p.list, p.id));
    if p.DisconnectPass? {
      TakingsOf({}, Locked(Connection, []), if p.found && p.broken then LogCall() + RemoveOps(p.list, p.id) else []);
    }
  }

  lemma {:induction false} DrainCalls(n: nat)
    ensures Takings({Storage}, Times(n, LogCall())) == Many(n, Taking(Log, {Storage}))
  {
    if n > 0 {
      DrainCalls(n - 1);
      CallTakings({Storage});
      TakingsOf({Storage}, LogCall(), Times(n - 1, LogCall()));
    }
  }

  /** A section entered with nothing held. */
  lemma {:induction false} OuterTakings(l: Lock, body: seq<Op>)
    ensures Takings({}, Locked(l, body)) == multiset{Taking(l, {})} + Takings({l}, body)
  {
    LockedTakings({}, l, body);
    assert {} + {l} == {l};
  }

  /** A drain logs once for every failed insert, inside the storage mutex. */
  lemma {:induction false} DrainTakings(failures: nat)
    ensures Takings({}, Ops(StorageDrainPass(failures))) == multiset{Taking(Storage, {})} + Many(failures, Taking(Log, {Storage}))
  {
    OuterTakings(Storage, Times(failures, LogCall()));
    DrainCalls(failures);
  }

  /** An addition logs only if there was no memory. */
  lemma {:induction false} AdditionTakings(gotMemory: bool)
    ensures Takings({}, Ops(StorageAddPass(gotMemory)))
         == multiset{Taking(Storage, {})} + if gotMemory then multiset{} else multiset{Taking(Log, {Storage})}
  {
    OuterTakings(Storage, if gotMemory then [] else LogCall());
    CallTakings({Storage});
  }

  /** A connect logs only if it worked. */
  lemma {:induction false} ConnectTakings(connected: bool)
    ensures Takings({}, Ops(StorageConnectPass(connected))) == if connected then multiset{Taking(Log, {})} else multiset{}
  {
    CallTakings({});
  }

  /** A status request takes the two mutexes one after the other. */
  lemma {:induction false} StatusTakings()
    ensures Takings({}, Ops(StatusPass)) == multiset{Taking(Connection, {})} + multiset{Taking(Storage, {})}
  {
    SectionTakings(Connection);
    SectionTakings(Storage);
    TakingsOf({}, Locked(Connection, []), Locked(Storage, []));
  }

  // ---- The data pass ----

  /** The active sensors of the list that have a reading. */
  function NumSampled(list: seq<Entry>): nat {
    if list == [] then 0
    else (if list[0].conn.isActive && list[0].latest.isValid then 1 else 0) + NumSampled(list[1..])
  }

  /** Those of them whose check raises an alarm. */
  function NumAlarms(list: seq<Entry>, alarm: Entry -> bool): nat {
    if list == [] then 0
    else (if list[0].conn.isActive && list[0].latest.isValid && alarm(list[0]) then 1 else 0) + NumAlarms(list[1..], alarm)
  }

  lemma {:induction false} CheckTakings(id: int, alarm: bool)
    requires ValidId(id)
    ensures Takings({Connection}, CheckOps(id, alarm))
         == multiset{Taking(Data, {Connection})} + if alarm then multiset{Taking(Log, {Connection, Data})} else multiset{}
    ensures HeldAfter({Connection}, CheckOps(id, alarm)) == {Connection}
  {
    LockedTakings({Connection}, Data, if alarm then LogCall() else []);
    assert {Connection} + {Data} == {Connection, Data};
    CallTakings({Connection, Data});
    CheckNests(id, alarm);
  }

  /** What one entry adds. */
  function CheckOne(e: Entry, alarm: Entry -> bool): multiset<Taking> {
    (if IsChecked(e) then multiset{Taking(Data, {Connection})} else multiset{})
    + if IsChecked(e) && alarm(e) then multiset{Taking(Log, {Connection, Data})} else multiset{}
  }

  lemma ManyMore(more: bool, n: nat, x: Taking)
    ensures (if more then multiset{x} else multiset{}) + Many(n, x) == Many((if more then 1 else 0) + n, x)
  {
  }

  lemma Regroup(a: multiset<Taking>, b: multiset<Taking>, c: multiset<Taking>, d: multiset<Taking>)
    ensures (a + b) + (c + d) == (a + c) + (b + d)
  {
  }

  lemma {:induction false} CheckOneTakings(e: Entry, alarm: Entry -> bool, rest: seq<Op>)
    requires IsChecked(e) ==> ValidId(e.conn.sensorId)
    ensures Takings({Connection}, (if IsChecked(e) then CheckOps(e.conn.sensorId, alarm(e)) else []) + rest)
         == CheckOne(e, alarm) + Takings({Connection}, rest)
  {
    if IsChecked(e) {
      CheckTakings(e.conn.sensorId, alarm(e));
      TakingsOf({Connection}, CheckOps(e.conn.sensorId, alarm(e)), rest);
    } else {
      assert [] + rest == rest;
    }
  }

  function CheckAll(list: seq<Entry>, alarm: Entry -> bool): multiset<Taking> {
    if list == [] then multiset{} else CheckOne(list[0], alarm) + CheckAll(list[1..], alarm)
  }

  lemma {:induction false} CheckAllTakings(list: seq<Entry>, alarm: Entry -> bool)
    requires forall e :: e in list && IsChecked(e) ==> ValidId(e.conn.sensorId)
    ensures Takings({Connection}, CheckAllOps(list, alarm)) == CheckAll(list, alarm)
  {
    if list != [] {
      CheckAllTakings(list[1..], alarm);
      CheckOneTakings(list[0], alarm, CheckAllOps(list[1..], alarm));
    }
  }

  lemma {:induction false} CheckAllCounts(list: seq<Entry>, alarm: Entry -> bool)
    ensures CheckAll(list, alarm)
         == Many(NumSampled(list), Taking(Data, {Connection})) + Many(NumAlarms(list, alarm), Taking(Log, {Connection, Data}))
  {
    if list != [] {
      var e, tail := list[0], list[1..];
      var data, log := Taking(Data, {Connection}), Taking(Log, {Connection, Data});
      CheckAllCounts(tail, alarm);
      Regroup(if IsChecked(e) then multiset{data} else multiset{},
              if IsChecked(e) && alarm(e) then multiset{log} else multiset{},
              Many(NumSampled(tail), data), Many(NumAlarms(tail, alarm), log));
      ManyMore(IsChecked(e), NumSampled(tail), data);
      ManyMore(IsChecked(e) && alarm(e), NumAlarms(tail, alarm), log);
    }
  }

  /**
   A data pass over known ids takes the data mutex once for every active sensor
   with a reading, inside the connection mutex, and the log once for every
   alarm, inside both.
   */
  lemma {:induction false} DataTakings(list: seq<Entry>, alarm: Entry -> bool)
    requires Sound(DataPass(list, alarm))
    ensures Takings({}, Ops(DataPass(list, alarm)))
         == multiset{Taking(Connection, {})}
            + Many(NumSampled(list), Taking(Data, {Connection})) + Many(NumAlarms(list, alarm), Taking(Log, {Connection, Data}))
  {
    OuterTakings(Connection, CheckAllOps(list, alarm));
    CheckAllTakings(list, alarm);
    CheckAllCounts(list, alarm);
    Grouped(multiset{Taking(Connection, {})}, Many(NumSampled(list), Taking(Data, {Connection})),
            Many(NumAlarms(list, alarm), Taking(Log, {Connection, Data})));
  }

  lemma Grouped(a: multiset<Taking>, b: multiset<Taking>, c: multiset<Taking>)
    ensures a + b + c == a + (b + c)
  {
  }

  /** The sampled sensors with an id that the table lacks. */
  function NumBad(list: seq<Entry>): nat {
    if list == [] then 0
    else
      (if list[0].conn.isActive && list[0].latest.isValid && !(0 <= list[0].conn.sensorId < MAX_CONNECTIONS) then 1 else 0)
      + NumBad(list[1..])
  }

  lemma {:induction false} CountConcat(p: seq<Op>, q: seq<Op>, op: Op)
    ensures multiset(p + q)[op] == multiset(p)[op] + multiset(q)[op]
  {
  }

  lemma {:induction false} LogCounts(op: Op)
    ensures multiset(LogCall())[op] == if op == Acquire(Log) || op == Release(Log) then 1 else 0
  {
    assert LogCall() == [Acquire(Log), Release(Log)];
  }

  lemma {:induction false} CheckCounts(id: int, alarm: bool, op: Op)
    requires op == Acquire(Data) || op == Release(Data)
    ensures multiset(CheckOps(id, alarm))[op] == if op == Acquire(Data) || 0 <= id < MAX_CONNECTIONS then 1 else 0
  {
    var body := if alarm then LogCall() else [];
    LogCounts(op);
    CountConcat([Acquire(Data)], LogCall(), op);
    CountConcat([Acquire(Data)] + body, [Release(Data)], op);
    CountConcat([Acquire(Data)], body, op);
  }

  /** With unknown ids: every sampled sensor takes the data mutex, and each one with such an id keeps it. */
  lemma {:induction false} DataCounts(list: seq<Entry>, alarm: Entry -> bool)
    ensures multiset(CheckAllOps(list, alarm))[Acquire(Data)] == NumSampled(list)
    ensures multiset(CheckAllOps(list, alarm))[Release(Data)] == NumSampled(list) - NumBad(list)
  {
    if list != [] {
      var e, rest := list[0], CheckAllOps(list[1..], alarm);
      var first := if IsChecked(e) then CheckOps(e.conn.sensorId, alarm(e)) else [];
      DataCounts(list[1..], alarm);
      CheckCounts(e.conn.sensorId, alarm(e), Acquire(Data));
      CheckCounts(e.conn.sensorId, alarm(e), Release(Data));
      CountConcat(first, rest, Acquire(Data));
      CountConcat(first, rest, Release(Data));
    }
  }
}
