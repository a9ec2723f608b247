/**
 The lock programs and the step relation describe the same code: what a thread
 does to the connection mutex and to the limiter while it runs undisturbed, read
 off the steps, is its lock program without the calls to the log.
 */
module LockTrace {
  import opened IpLimiter
  import opened SensorConnections
  import opened GatewayThreads
  import opened GatewaySolo
  import L = LockOrder

  // ---- What a step does to the mutexes ----

  /** The removal is about to give the node under its cursor back. */
  predicate Finds(g: Gateway, r: Removal) {
    r.Looking? && r.at < |g.list| && Matches(r.goal, g.list[r.at].conn)
  }

  predicate CallsLimiter(g: Gateway, a: Action) {
    match a
    case AskLimiter => g.acceptor.Numbered?
    case AcceptorRemovalStep => g.acceptor.Removing? && Finds(g, g.acceptor.removal)
    case RemoverStep(t) => t < |g.removers| && g.removers[t].Inside? && Finds(g, g.removers[t].removal)
    case _ => false
  }

  /** The limiter's table changes in no other step. */
  lemma {:induction false} OnlyCallsChangeTable(g: Gateway, a: Action)
    ensures Step(g, a).table != g.table ==> CallsLimiter(g, a)
  {
  }

  /**
   Taking and giving back the connection mutex is a change of its owner; the
   port check does both in one step; a call of the limiter takes its mutex
   once.
   */
  function Emits(g: Gateway, a: Action): seq<L.Op> {
    if a.CheckPort? then (if g.acceptor.Waiting? && g.owner.Nobody? then L.Locked(L.Connection, []) else [])
    else if CallsLimiter(g, a) then L.LimiterCall()
    else if g.owner.Nobody? && !Step(g, a).owner.Nobody? then [L.Acquire(L.Connection)]
    else if !g.owner.Nobody? && Step(g, a).owner.Nobody? then [L.Release(L.Connection)]
    else []
  }

  function Trace(g: Gateway, actions: seq<Action>): seq<L.Op>
    decreases |actions|
  {
    if actions == [] then [] else Emits(g, actions[0]) + Trace(Step(g, actions[0]), actions[1..])
  }

  lemma {:induction false} TraceConcat(g: Gateway, a: seq<Action>, b: seq<Action>)
    ensures Trace(g, a + b) == Trace(g, a) + Trace(Run(g, a), b)
    decreases |a|
  {
    if a == [] {
      assert a + b == b;
    } else {
      var g' := Step(g, a[0]);
      assert (a + b)[1..] == a[1..] + b && (a + b)[0] == a[0];
      TraceConcat(g', a[1..], b);
      Assoc(Emits(g, a[0]), Trace(g', a[1..]), Trace(Run(g', a[1..]), b));
    }
  }

  lemma Assoc(p: seq<L.Op>, q: seq<L.Op>, r: seq<L.Op>)
    ensures p + q + r == p + (q + r)
  {
  }

  lemma {:induction false} TraceOne(g: Gateway, a: Action)
    ensures Trace(g, [a]) == Emits(g, a)
  {
    assert [a][1..] == [];
    assert Trace(g, [a]) == Emits(g, a) + Trace(Step(g, a), [a][1..]);
  }

  // ---- Removals ----

  /** The mover holds the connection mutex. */
  predicate Holding(g: Gateway, m: Mover) {
    Exists(g, m) && g.owner == if m.ByRemover? then TheRemover(m.t) else TheAcceptor
  }

  function Emitted(g: Gateway, m: Mover, n: nat): seq<L.Op> {
    Trace(g, Steps(m, n))
  }

  lemma {:induction false} EmittedMore(g: Gateway, m: Mover, k: nat, n: nat)
    ensures Emitted(g, m, k + n) == Emitted(g, m, k) + Emitted(Advanced(g, m, k), m, n)
  {
    assert Steps(m, k + n) == Steps(m, k) + Steps(m, n);
    TraceConcat(g, Steps(m, k), Steps(m, n));
  }

  lemma {:induction false} EmittedOne(g: Gateway, m: Mover)
    ensures Emitted(g, m, 1) == Emits(g, StepOf(m)) && Advanced(g, m, 1) == Step(g, StepOf(m))
  {
    assert Steps(m, 1) == [StepOf(m)];
    TraceOne(g, StepOf(m));
    RunOne(g, StepOf(m));
  }

  lemma {:induction false} PassingEmits(g: Gateway, m: Mover, goal: Goal, k: nat)
    requires Holding(g, m) && (k < |g.list| ==> !Matches(goal, g.list[k].conn))
    ensures Emitted(At(g, m, Looking(goal, k)), m, 1) == []
    ensures Advanced(At(g, m, Looking(goal, k)), m, 1)
         == At(g, m, if k < |g.list| then Looking(goal, k + 1) else Finished)
  {
    EmittedOne(At(g, m, Looking(goal, k)), m);
    StepOver(g, m, goal, k);
  }

  lemma ReleasingEmits(g: Gateway, m: Mover, goal: Goal, k: nat)
    requires Holding(g, m) && k < |g.list| && Matches(goal, g.list[k].conn)
    ensures Emits(At(g, m, Looking(goal, k)), StepOf(m)) == L.LimiterCall()
  {
  }

  lemma UnlinkingEmits(g: Gateway, m: Mover, goal: Goal, k: nat)
    requires Holding(g, m)
    ensures Emits(At(g, m, GivenBack(goal, k)), StepOf(m)) == []
    ensures Emits(At(g, m, Unlinked(goal, k)), StepOf(m)) == []
  {
  }

  /** Taking out one connection calls the limiter once. */
  lemma {:induction false} TakingOutEmits(g: Gateway, m: Mover, goal: Goal, k: nat)
    requires Holding(g, m) && k < |g.list| && Matches(goal, g.list[k].conn)
    ensures Emitted(At(g, m, Looking(goal, k)), m, 3) == L.LimiterCall()
  {
    var g1 := g.(table := Release(g.table, g.list[k].conn.ip));
    var g2 := g1.(list := Without(g.list, k));
    GiveBackStep(g, m, goal, k);
    ReleasingEmits(g, m, goal, k);
    UnlinkStep(g1, m, goal, k);
    UnlinkingEmits(g1, m, goal, k);
    UnlinkingEmits(g2, m, goal, k);
    EmittedOne(At(g, m, Looking(goal, k)), m);
    EmittedMore(At(g, m, Looking(goal, k)), m, 1, 2);
    EmittedOne(At(g1, m, GivenBack(goal, k)), m);
    EmittedMore(At(g1, m, GivenBack(goal, k)), m, 1, 1);
    EmittedOne(At(g2, m, Unlinked(goal, k)), m);
  }

  lemma {:induction false} SweepEmits(g: Gateway, m: Mover, now: int, k: nat) returns (n: nat)
    requires Holding(g, m) && k <= |g.list|
    ensures SweepsIn(g, m, now, k, n) && SweepCalls(g, m, now, k, n)
    decreases |g.list| - k, 1
  {
    if k == |g.list| {
      n := 1;
      SweptAll(g, m, now);
      PassingEmits(g, m, IdleSince(now), k);
    } else if TimedOut(g.list[k].conn, now) {
      n := SweepTakesEmits(g, m, now, k);
    } else {
      n := SweepSkipsEmits(g, m, now, k);
    }
  }

  /** What the rest of a sweep emits: the limiter once for every expired connection from `k` on. */
  predicate SweepCalls(g: Gateway, m: Mover, now: int, k: nat, n: nat)
    requires Exists(g, m) && k <= |g.list|
  {
    Emitted(At(g, m, Looking(IdleSince(now), k)), m, n) == L.Times(|Expired(g.list[k..], now)|, L.LimiterCall())
  }

  lemma {:induction false} TakingCalls(g: Gateway, m: Mover, now: int, k: nat, rest: nat)
    requires Holding(g, m) && k < |g.list| && TimedOut(g.list[k].conn, now) && SweepCalls(Gone(g, k), m, now, k, rest)
    ensures SweepCalls(g, m, now, k, 3 + rest)
  {
    TakeOut(g, m, IdleSince(now), k);
    TakingOutEmits(g, m, IdleSince(now), k);
    EmittedMore(At(g, m, Looking(IdleSince(now), k)), m, 3, rest);
    ExpiredAt(g.list, k, now);
  }

  lemma {:induction false} SkippingCalls(g: Gateway, m: Mover, now: int, k: nat, rest: nat)
    requires Holding(g, m) && k < |g.list| && !TimedOut(g.list[k].conn, now) && SweepCalls(g, m, now, k + 1, rest)
    ensures SweepCalls(g, m, now, k, 1 + rest)
  {
    PassingEmits(g, m, IdleSince(now), k);
    EmittedMore(At(g, m, Looking(IdleSince(now), k)), m, 1, rest);
    ExpiredAt(g.list, k, now);
  }

  lemma {:induction false} SweepTakesEmits(g: Gateway, m: Mover, now: int, k: nat) returns (n: nat)
    requires Holding(g, m) && k < |g.list| && TimedOut(g.list[k].conn, now)
    ensures SweepsIn(g, m, now, k, n) && SweepCalls(g, m, now, k, n)
    decreases |g.list| - k, 0
  {
    var rest := SweepEmits(Gone(g, k), m, now, k);
    n := 3 + rest;
    SweepTakes(g, m, now, k, rest);
    TakingCalls(g, m, now, k, rest);
  }

  lemma {:induction false} SweepSkipsEmits(g: Gateway, m: Mover, now: int, k: nat) returns (n: nat)
    requires Holding(g, m) && k < |g.list| && !TimedOut(g.list[k].conn, now)
    ensures SweepsIn(g, m, now, k, n) && SweepCalls(g, m, now, k, n)
    decreases |g.list| - k, 0
  {
    var rest := SweepEmits(g, m, now, k + 1);
    n := 1 + rest;
    SweepSkips(g, m, now, k, rest);
    SkippingCalls(g, m, now, k, rest);
  }

  lemma {:induction false} ExpiredAt(list: seq<Entry>, k: nat, now: int)
    requires k < |list|
    ensures |Expired(list[k..], now)| == |Expired(list[k + 1..], now)| + If(TimedOut(list[k].conn, now))
    ensures Without(list, k)[k..] == list[k + 1..]
  {
    assert list[k..][1..] == list[k + 1..];
  }

  lemma {:induction false} FindEmits(g: Gateway, m: Mover, id: int, k: nat) returns (n: nat)
    requires Holding(g, m) && k <= FirstWithId(g.list, id)
    ensures Advanced(At(g, m, Looking(ById(id), k)), m, n) == At(Removed(g, id), m, Finished)
    ensures Emitted(At(g, m, Looking(ById(id), k)), m, n)
         == if FirstWithId(g.list, id) < |g.list| then L.LimiterCall() else []
    decreases |g.list| - k, 1
  {
    if k < FirstWithId(g.list, id) {
      n := FindOverEmits(g, m, id, k);
    } else if k < |g.list| {
      n := 3;
      FoundAt(g, m, id, k);
      TakingOutEmits(g, m, ById(id), k);
    } else {
      n := 1;
      FoundNone(g, m, id);
      PassingEmits(g, m, ById(id), k);
    }
  }

  lemma {:induction false} FindOverEmits(g: Gateway, m: Mover, id: int, k: nat) returns (n: nat)
    requires Holding(g, m) && k < FirstWithId(g.list, id)
    ensures Advanced(At(g, m, Looking(ById(id), k)), m, n) == At(Removed(g, id), m, Finished)
    ensures Emitted(At(g, m, Looking(ById(id), k)), m, n)
         == if FirstWithId(g.list, id) < |g.list| then L.LimiterCall() else []
    decreases |g.list| - k, 0
  {
    var rest := FindEmits(g, m, id, k + 1);
    n := 1 + rest;
    AdvanceOver(g, m, ById(id), k, rest);
    OverEmits(g, m, ById(id), k, rest);
  }

  lemma {:induction false} OverEmits(g: Gateway, m: Mover, goal: Goal, k: nat, rest: nat)
    requires Holding(g, m) && k < |g.list| && !Matches(goal, g.list[k].conn)
    ensures Emitted(At(g, m, Looking(goal, k)), m, 1 + rest) == Emitted(At(g, m, Looking(goal, k + 1)), m, rest)
  {
    PassingEmits(g, m, goal, k);
    EmittedMore(At(g, m, Looking(goal, k)), m, 1, rest);
  }

  // ---- Whole passes ----

  /** A lock program without its calls to the log, which `GatewayThreads` does not have. */
  function Quiet(p: seq<L.Op>): seq<L.Op> {
    if p == [] then [] else (if p[0].l == L.Log then [] else [p[0]]) + Quiet(p[1..])
  }

  lemma {:induction false} QuietConcat(p: seq<L.Op>, q: seq<L.Op>)
    ensures Quiet(p + q) == Quiet(p) + Quiet(q)
  {
    if p == [] {
      assert p + q == q;
    } else {
      assert (p + q)[1..] == p[1..] + q;
      QuietConcat(p[1..], q);
    }
  }

  lemma {:induction false} QuietOne(op: L.Op)
    ensures Quiet([op]) == if op.l == L.Log then [] else [op]
  {
    assert [op][1..] == [];
    assert Quiet([op]) == (if op.l == L.Log then [] else [op]) + Quiet([op][1..]);
  }

  lemma {:induction false} QuietLocked(l: L.Lock, body: seq<L.Op>)
    ensures Quiet(L.Locked(l, body)) == if l == L.Log then Quiet(body) else L.Locked(l, Quiet(body))
  {
    QuietConcat([L.Acquire(l)] + body, [L.Release(l)]);
    QuietConcat([L.Acquire(l)], body);
    QuietOne(L.Acquire(l));
    QuietOne(L.Release(l));
  }

  lemma {:induction false} QuietCalls()
    ensures Quiet(L.LogCall()) == [] && Quiet(L.LimiterCall()) == L.LimiterCall()
  {
    QuietLocked(L.Log, []);
    QuietLocked(L.Limiter, []);
  }

  lemma {:induction false} QuietTimes(n: nat)
    ensures Quiet(L.Times(n, L.LimiterCall() + L.LogCall())) == L.Times(n, L.LimiterCall())
  {
    if n > 0 {
      QuietTimes(n - 1);
      QuietConcat(L.LimiterCall() + L.LogCall(), L.Times(n - 1, L.LimiterCall() + L.LogCall()));
      QuietConcat(L.LimiterCall(), L.LogCall());
      QuietCalls();
    }
  }

  lemma {:induction false} QuietRemove(list: seq<Entry>, id: int)
    ensures Quiet(L.RemoveOps(list, id)) == L.RemoveOps(list, id)
  {
    QuietLocked(L.Connection, if FirstWithId(list, id) < |list| then L.LimiterCall() else []);
    QuietCalls();
  }

  lemma {:induction false} EnteringEmits(g: Gateway, t: nat, goal: Goal)
    requires Ready(g, t)
    ensures Emits(g, StartRemoval(t, goal)) == [L.Acquire(L.Connection)]
    ensures Step(g, StartRemoval(t, goal)) == At(g.(owner := TheRemover(t)), ByRemover(t), Looking(goal, 0))
  {
  }

  lemma {:induction false} LeavingEmits(end: Gateway, t: nat)
    requires Ready(end, t)
    ensures Emits(At(end.(owner := TheRemover(t)), ByRemover(t), Finished), RemoverStep(t)) == [L.Release(L.Connection)]
  {
  }

  /** Entering, `n` steps, and leaving emits the mutex around what the steps emit. */
  lemma {:induction false} SoloEmits(g: Gateway, t: nat, goal: Goal, n: nat, end: Gateway)
    requires Ready(g, t) && Ready(end, t) && end.removers == g.removers
    requires Advanced(At(g.(owner := TheRemover(t)), ByRemover(t), Looking(goal, 0)), ByRemover(t), n)
          == At(end.(owner := TheRemover(t)), ByRemover(t), Finished)
    ensures Trace(g, Solo(t, goal, n))
         == L.Locked(L.Connection, Emitted(At(g.(owner := TheRemover(t)), ByRemover(t), Looking(goal, 0)), ByRemover(t), n))
  {
    var inside := At(g.(owner := TheRemover(t)), ByRemover(t), Looking(goal, 0));
    var done := At(end.(owner := TheRemover(t)), ByRemover(t), Finished);
    RunOne(g, StartRemoval(t, goal));
    RunConcat(g, [StartRemoval(t, goal)], Steps(ByRemover(t), n));
    TraceConcat(g, [StartRemoval(t, goal)] + Steps(ByRemover(t), n), [RemoverStep(t)]);
    TraceConcat(g, [StartRemoval(t, goal)], Steps(ByRemover(t), n));
    TraceOne(g, StartRemoval(t, goal));
    TraceOne(done, RemoverStep(t));
    EnteringEmits(g, t, goal);
    LeavingEmits(end, t);
  }

  lemma {:induction false} QuietSweep(list: seq<Entry>, now: int)
    ensures Quiet(L.Ops(L.SweepPass(list, now))) == L.Locked(L.Connection, L.Times(|Expired(list, now)|, L.LimiterCall()))
  {
    QuietTimes(|Expired(list, now)|);
    QuietLocked(L.Connection, L.Times(|Expired(list, now)|, L.LimiterCall() + L.LogCall()));
  }

  lemma {:induction false} SweepFromHead(g: Gateway, m: Mover, now: int) returns (n: nat)
    requires Holding(g, m)
    ensures Advanced(At(g, m, Looking(IdleSince(now), 0)), m, n) == At(Swept(g, 0, now), m, Finished)
    ensures Emitted(At(g, m, Looking(IdleSince(now), 0)), m, n) == L.Times(|Expired(g.list, now)|, L.LimiterCall())
  {
    n := SweepEmits(g, m, now, 0);
    assert g.list[0..] == g.list;
  }

  /** A sweep's steps are its lock program: the mutex, and in it the limiter once for every connection it unlinks. */
  lemma {:induction false} SweepTrace(g: Gateway, t: nat, now: int) returns (n: nat)
    requires Ready(g, t)
    ensures Run(g, Solo(t, IdleSince(now), n)) == Swept(g, 0, now) && Swept(g, 0, now).list == Survivors(g.list, now)
    ensures Trace(g, Solo(t, IdleSince(now), n)) == Quiet(L.Ops(L.SweepPass(g.list, now)))
  {
    n := SweepFromHead(g.(owner := TheRemover(t)), ByRemover(t), now);
    assert g.list[0..] == g.list && [] + Survivors(g.list, now) == Survivors(g.list, now);
    SoloRun(g, t, IdleSince(now), n, Swept(g, 0, now));
    SoloEmits(g, t, IdleSince(now), n, Swept(g, 0, now));
    QuietSweep(g.list, now);
  }

  /** So are those of a terminate. */
  lemma {:induction false} TerminateTrace(g: Gateway, t: nat, id: int) returns (n: nat)
    requires Ready(g, t)
    ensures Run(g, Solo(t, ById(id), n)) == Removed(g, id)
    ensures Trace(g, Solo(t, ById(id), n)) == Quiet(L.Ops(L.TerminatePass(g.list, id)))
  {
    n := FindEmits(g.(owner := TheRemover(t)), ByRemover(t), id, 0);
    SoloRun(g, t, ById(id), n, Removed(g, id));
    SoloEmits(g, t, ById(id), n, Removed(g, id));
    QuietConcat(L.RemoveOps(g.list, id), L.LogCall());
    QuietRemove(g.list, id);
    QuietCalls();
  }

  // ---- Accepts ----

  lemma {:induction false} TraceTwo(g: Gateway, a: seq<Action>)
    requires |a| == 2
    ensures Trace(g, a) == Emits(g, a[0]) + Emits(Step(g, a[0]), a[1])
  {
    assert a == [a[0]] + [a[1]];
    RunOne(g, a[0]);
    TraceConcat(g, [a[0]], [a[1]]);
    TraceOne(g, a[0]);
    TraceOne(Step(g, a[0]), a[1]);
  }

  lemma {:induction false} TraceThree(g: Gateway, a: seq<Action>)
    requires |a| == 3
    ensures Trace(g, a) == Emits(g, a[0]) + Emits(Step(g, a[0]), a[1]) + Emits(Step(Step(g, a[0]), a[1]), a[2])
  {
    assert a == [a[0], a[1]] + [a[2]];
    RunTwo(g, [a[0], a[1]]);
    TraceConcat(g, [a[0], a[1]], [a[2]]);
    TraceTwo(g, [a[0], a[1]]);
    TraceOne(Step(Step(g, a[0]), a[1]), a[2]);
  }

  lemma {:induction false} AskEmits(g: Gateway, fd: int, ip: Ip, port: int, now: int)
    requires Idle(g) && !PortConnected(g.list, port)
    ensures Trace(g, ToLimiter(fd, ip, port, now)) == L.Locked(L.Connection, []) + L.LimiterCall()
  {
    TraceThree(g, ToLimiter(fd, ip, port, now));
    var checked := g.(acceptor := Checked(fd, ip, port));
    assert Step(g, CheckPort(fd, ip, port)) == checked;
    assert Step(checked, ReadId(now)) == checked.(acceptor := Numbered(NewConnection(fd, ip, port, g.activeCount, now)));
  }

  lemma {:induction false} LinkEmits(g: Gateway)
    requires g.owner.Nobody? && (g.acceptor.Admitted? || g.acceptor.Registering?)
    ensures Trace(g, TO_LIST + TO_EPOLL) == if g.acceptor.Admitted? then L.Locked(L.Connection, []) else []
  {
    TraceConcat(g, TO_LIST, TO_EPOLL);
    RunThree(g, TO_LIST);
    TraceThree(g, TO_LIST);
    TraceTwo(Run(g, TO_LIST), TO_EPOLL);
  }

  /** Up to the registration: the check, the limiter, and the linking if the limiter agreed. */
  lemma {:induction false} OpenEmits(g: Gateway, fd: int, ip: Ip, port: int, now: int)
    requires Idle(g) && !PortConnected(g.list, port)
    ensures Trace(g, Accept(fd, ip, port, now))
         == L.Locked(L.Connection, []) + L.LimiterCall()
            + if Admits(g.table, ip) then L.Locked(L.Connection, []) else []
  {
    SoloAsk(g, fd, ip, port, now);
    AskEmits(g, fd, ip, port, now);
    TraceConcat(g, ToLimiter(fd, ip, port, now), TO_LIST + TO_EPOLL);
    LinkEmits(Run(g, ToLimiter(fd, ip, port, now)));
  }

  lemma {:induction false} QuietUndo(list: seq<Entry>, id: int)
    ensures Quiet(L.RemoveOps(list, id) + L.LogCall()) == L.RemoveOps(list, id)
  {
    QuietRemove(list, id);
    QuietCalls();
    QuietConcat(L.RemoveOps(list, id), L.LogCall());
  }

  lemma {:induction false} QuietAdd(link: seq<L.Op>)
    requires Quiet(link) == link
    ensures Quiet(L.LimiterCall() + link + L.LogCall()) == L.LimiterCall() + link
  {
    QuietCalls();
    QuietConcat(L.LimiterCall() + link, L.LogCall());
    QuietConcat(L.LimiterCall(), link);
  }

  lemma {:induction false} QuietThree(p: seq<L.Op>, q: seq<L.Op>, r: seq<L.Op>)
    ensures Quiet(p + (q + r)) == Quiet(p) + Quiet(q) + Quiet(r)
  {
    QuietConcat(p, q + r);
    QuietConcat(q, r);
  }

  lemma {:induction false} QuietAccept(allowed: bool, gotMemory: bool, registered: bool, list: seq<Entry>, id: int)
    ensures Quiet(L.Ops(L.AcceptPass(false, allowed, gotMemory, registered, list, id)))
         == L.Locked(L.Connection, []) + L.LimiterCall()
            + (if allowed && gotMemory then L.Locked(L.Connection, []) else [])
            + if registered then [] else L.RemoveOps(list, id)
  {
    var section := L.Locked(L.Connection, []);
    var link := if allowed && gotMemory then section else [];
    var undo := if registered then [] else L.RemoveOps(list, id) + L.LogCall();
    QuietLocked(L.Connection, []);
    QuietAdd(link);
    QuietUndo(list, id);
    QuietThree(section, L.LimiterCall() + link + L.LogCall(), undo);
    assert section + (L.LimiterCall() + link) == section + L.LimiterCall() + link;
  }

  /** An accept's steps are its lock program, whether the limiter agrees or not. */
  lemma {:induction false} AcceptTrace(g: Gateway, fd: int, ip: Ip, port: int, now: int)
    requires Idle(g) && !PortConnected(g.list, port)
    ensures Trace(g, Accept(fd, ip, port, now) + [Register(true)])
         == Quiet(L.Ops(L.AcceptPass(false, Admits(g.table, ip), true, true, [], 0)))
  {
    SoloAcceptOpen(g, fd, ip, port, now);
    OpenEmits(g, fd, ip, port, now);
    TraceConcat(g, Accept(fd, ip, port, now), [Register(true)]);
    TraceOne(Run(g, Accept(fd, ip, port, now)), Register(true));
    QuietAccept(Admits(g.table, ip), true, true, [], 0);
  }

  /** The port check that finds its port taken is the whole program. */
  lemma {:induction false} TakenTrace(g: Gateway, fd: int, ip: Ip, port: int)
    requires Idle(g) && PortConnected(g.list, port)
    ensures Run(g, [CheckPort(fd, ip, port)]) == g
    ensures Trace(g, [CheckPort(fd, ip, port)]) == L.Ops(L.AcceptPass(true, false, false, true, [], 0))
  {
    RunOne(g, CheckPort(fd, ip, port));
    TraceOne(g, CheckPort(fd, ip, port));
  }

  /** An admitted accept that finds no memory asks the limiter and takes the mutex no second time. */
  lemma {:induction false} NoMemoryTrace(g: Gateway, fd: int, ip: Ip, port: int, now: int)
    requires Idle(g) && Accepts(g, ip, port)
    ensures Trace(g, ToLimiter(fd, ip, port, now) + TO_NOTHING)
         == Quiet(L.Ops(L.AcceptPass(false, true, false, true, [], 0)))
  {
    SoloAsk(g, fd, ip, port, now);
    AskEmits(g, fd, ip, port, now);
    TraceConcat(g, ToLimiter(fd, ip, port, now), TO_NOTHING);
    NothingEmits(Run(g, ToLimiter(fd, ip, port, now)));
    QuietAccept(true, false, true, [], 0);
  }

  lemma {:induction false} NothingEmits(g: Gateway)
    requires g.acceptor.Admitted?
    ensures Trace(g, TO_NOTHING) == []
  {
    TraceTwo(g, TO_NOTHING);
  }

  lemma {:induction false} LeavingUndo(undoing: Gateway, id: int) returns (run: seq<Action>)
    requires undoing.owner.TheAcceptor?
    ensures var looking := At(undoing, ByAcceptor, Looking(ById(id), 0));
      && Run(looking, run) == Removed(undoing, id).(owner := Nobody, acceptor := Waiting)
      && Trace(looking, run)
         == (if FirstWithId(undoing.list, id) < |undoing.list| then L.LimiterCall() else []) + [L.Release(L.Connection)]
  {
    var looking := At(undoing, ByAcceptor, Looking(ById(id), 0));
    var done := At(Removed(undoing, id), ByAcceptor, Finished);
    var n := FindEmits(undoing, ByAcceptor, id, 0);
    UndoEnds(undoing, id);
    UndoLeaves(Removed(undoing, id));
    RunConcat(looking, Steps(ByAcceptor, n), [AcceptorRemovalStep]);
    TraceConcat(looking, Steps(ByAcceptor, n), [AcceptorRemovalStep]);
    TraceOne(done, AcceptorRemovalStep);
    run := Steps(ByAcceptor, n) + [AcceptorRemovalStep];
  }

  lemma {:induction false} UndoLeaves(end: Gateway)
    requires end.owner.TheAcceptor?
    ensures Emits(At(end, ByAcceptor, Finished), AcceptorRemovalStep) == [L.Release(L.Connection)]
  {
  }

  /** The undoing of an accept is one removal. */
  lemma {:induction false} UndoTrace(g: Gateway) returns (undo: seq<Action>)
    requires g.owner.Nobody? && g.acceptor.Undoing?
    ensures Run(g, undo) == Removed(g, g.acceptor.id).(acceptor := Waiting)
    ensures Trace(g, undo) == L.RemoveOps(g.list, g.acceptor.id)
  {
    var id := g.acceptor.id;
    var leaving := LeavingUndo(g.(owner := TheAcceptor, acceptor := Waiting), id);
    UndoingEmits(g);
    RunOne(g, StartUndo);
    TraceOne(g, StartUndo);
    undo := [StartUndo] + leaving;
    RunConcat(g, [StartUndo], leaving);
    TraceConcat(g, [StartUndo], leaving);
  }

  lemma {:induction false} UndoingEmits(g: Gateway)
    requires g.owner.Nobody? && g.acceptor.Undoing?
    ensures Emits(g, StartUndo) == [L.Acquire(L.Connection)]
    ensures Step(g, StartUndo)
         == At(g.(owner := TheAcceptor, acceptor := Waiting), ByAcceptor, Looking(ById(g.acceptor.id), 0))
  {
  }

  lemma {:induction false} FailingEmits(open: Gateway) returns (undo: seq<Action>)
    requires open.owner.Nobody? && open.acceptor.Registering?
    ensures Trace(open, [Register(false)] + undo) == L.RemoveOps(open.list, open.acceptor.id)
  {
    var failed := open.(acceptor := Undoing(open.acceptor.id, open.acceptor.port));
    undo := UndoTrace(failed);
    RunOne(open, Register(false));
    TraceOne(open, Register(false));
    assert Step(open, Register(false)) == failed && Emits(open, Register(false)) == [];
    TraceConcat(open, [Register(false)], undo);
    assert [] + Trace(failed, undo) == Trace(failed, undo);
  }

  /** An accept whose registration fails: its whole program, the removal on the list it finds included. */
  lemma {:induction false} FailedTrace(g: Gateway, fd: int, ip: Ip, port: int, now: int) returns (undo: seq<Action>)
    requires Idle(g) && !PortConnected(g.list, port)
    ensures var list := if Admits(g.table, ip) then Joined(g, fd, ip, port, now).list else g.list;
      Trace(g, Accept(fd, ip, port, now) + ([Register(false)] + undo))
      == Quiet(L.Ops(L.AcceptPass(false, Admits(g.table, ip), true, false, list, g.activeCount)))
  {
    SoloAcceptOpen(g, fd, ip, port, now);
    OpenEmits(g, fd, ip, port, now);
    var open := Run(g, Accept(fd, ip, port, now));
    undo := FailingEmits(open);
    TraceConcat(g, Accept(fd, ip, port, now), [Register(false)] + undo);
    QuietAccept(Admits(g.table, ip), true, false, open.list, g.activeCount);
  }

}
