/**
 The step relation of `GatewayThreads` and the list operations of
 `SensorConnections` describe the same code: a thread that runs without
 interference does in steps what the method does in one call.  With that, what
 an accepted connection does to the sensor ids.
 */
module GatewaySolo {
  import opened IpLimiter
  import opened SensorConnections
  import opened GatewayThreads

  lemma {:induction false} RunConcat(g: Gateway, a: seq<Action>, b: seq<Action>)
    ensures Run(g, a + b) == Run(Run(g, a), b)
    decreases |a|
  {
    if a == [] {
      assert a + b == b;
    } else {
      assert (a + b)[1..] == a[1..] + b;
      RunConcat(Step(g, a[0]), a[1..], b);
    }
  }

  lemma {:induction false} RunOne(g: Gateway, a: Action)
    ensures Run(g, [a]) == Step(g, a)
  {
    assert [a][1..] == [];
    assert Run(g, [a]) == Run(Step(g, a), [a][1..]);
  }

  /** Who runs a removal: a remover thread, or the acceptor undoing its own accept. */
  datatype Mover = ByRemover(t: nat) | ByAcceptor

  function StepOf(m: Mover): Action {
    match m
    case ByRemover(t) => RemoverStep(t)
    case ByAcceptor => AcceptorRemovalStep
  }

  function Steps(m: Mover, n: nat): seq<Action> {
    seq(n, _ => StepOf(m))
  }

  /** `n` steps of the mover, all at once. */
  function Advanced(g: Gateway, m: Mover, n: nat): Gateway {
    Run(g, Steps(m, n))
  }

  lemma {:induction false} AdvanceOne(g: Gateway, m: Mover, n: nat)
    ensures Advanced(g, m, n + 1) == Advanced(Step(g, StepOf(m)), m, n)
  {
    assert Steps(m, n + 1)[1..] == Steps(m, n);
  }

  lemma {:induction false} AdvanceMore(g: Gateway, m: Mover, k: nat, n: nat)
    ensures Advanced(g, m, k + n) == Advanced(Advanced(g, m, k), m, n)
  {
    assert Steps(m, k + n) == Steps(m, k) + Steps(m, n);
    RunConcat(g, Steps(m, k), Steps(m, n));
  }

  predicate Exists(g: Gateway, m: Mover) {
    m.ByRemover? ==> m.t < |g.removers|
  }

  /** The gateway with the mover at place `r` of its removal. */
  function At(g: Gateway, m: Mover, r: Removal): Gateway
    requires Exists(g, m)
  {
    match m
    case ByRemover(t) => g.(removers := g.removers[t := Inside(r)])
    case ByAcceptor => g.(acceptor := Removing(r))
  }

  /** The step over a connection that is not looked for, and the one past the last connection. */
  lemma StepOver(g: Gateway, m: Mover, goal: Goal, k: nat)
    requires Exists(g, m) && (k < |g.list| ==> !Matches(goal, g.list[k].conn))
    ensures Step(At(g, m, Looking(goal, k)), StepOf(m))
         == At(g, m, if k < |g.list| then Looking(goal, k + 1) else Finished)
  {
  }

  lemma {:induction false} AdvanceOver(g: Gateway, m: Mover, goal: Goal, k: nat, n: nat)
    requires Exists(g, m) && (k < |g.list| ==> !Matches(goal, g.list[k].conn))
    ensures Advanced(At(g, m, Looking(goal, k)), m, 1 + n)
         == Advanced(At(g, m, if k < |g.list| then Looking(goal, k + 1) else Finished), m, n)
  {
    StepOver(g, m, goal, k);
    AdvanceOne(At(g, m, Looking(goal, k)), m, n);
  }

  /** What the list, the limiter and the counter are once the connection at `k` is gone. */
  function Gone(g: Gateway, k: nat): Gateway
    requires k < |g.list|
  {
    g.(list := Without(g.list, k), table := Release(g.table, g.list[k].conn.ip), activeCount := g.activeCount - 1)
  }

  lemma GiveBackStep(g: Gateway, m: Mover, goal: Goal, k: nat)
    requires Exists(g, m) && k < |g.list| && Matches(goal, g.list[k].conn)
    ensures Step(At(g, m, Looking(goal, k)), StepOf(m))
         == At(g.(table := Release(g.table, g.list[k].conn.ip)), m, GivenBack(goal, k))
  {
  }

  lemma UnlinkStep(g: Gateway, m: Mover, goal: Goal, k: nat)
    requires Exists(g, m) && k < |g.list|
    ensures Step(At(g, m, GivenBack(goal, k)), StepOf(m))
         == At(g.(list := Without(g.list, k)), m, Unlinked(goal, k))
  {
  }

  lemma LowerStep(g: Gateway, m: Mover, goal: Goal, k: nat)
    requires Exists(g, m)
    ensures Step(At(g, m, Unlinked(goal, k)), StepOf(m))
         == At(g.(activeCount := g.activeCount - 1), m, if goal.ById? then Finished else Looking(goal, k))
  {
  }

  /** The three steps that take out the connection under the cursor. */
  lemma {:induction false} TakeOut(g: Gateway, m: Mover, goal: Goal, k: nat)
    requires Exists(g, m) && k < |g.list| && Matches(goal, g.list[k].conn)
    ensures Advanced(At(g, m, Looking(goal, k)), m, 3)
         == At(Gone(g, k), m, if goal.ById? then Finished else Looking(goal, k))
  {
    var g1 := g.(table := Release(g.table, g.list[k].conn.ip));
    var g2 := g1.(list := Without(g.list, k));
    GiveBackStep(g, m, goal, k);
    UnlinkStep(g1, m, goal, k);
    LowerStep(g2, m, goal, k);
    AdvanceOne(At(g, m, Looking(goal, k)), m, 2);
    AdvanceOne(At(g1, m, GivenBack(goal, k)), m, 1);
    AdvanceOne(At(g2, m, Unlinked(goal, k)), m, 0);
  }

  /** What the gateway is once every connection of the list from `k` on has been visited by a sweep. */
  function Swept(g: Gateway, k: nat, now: int): Gateway
    requires k <= |g.list|
  {
    g.(list := g.list[..k] + Survivors(g.list[k..], now),
       table := ReleaseAll(g.table, Expired(g.list[k..], now)),
       activeCount := g.activeCount - |Expired(g.list[k..], now)|)
  }

  lemma {:induction false} SweptSkip(g: Gateway, k: nat, now: int)
    requires k < |g.list| && !TimedOut(g.list[k].conn, now)
    ensures Swept(g, k, now) == Swept(g, k + 1, now)
  {
    assert g.list[k..][1..] == g.list[k + 1..];
    assert g.list[..k] + ([g.list[k]] + Survivors(g.list[k + 1..], now))
        == g.list[..k + 1] + Survivors(g.list[k + 1..], now);
  }

  lemma {:induction false} SweptTake(g: Gateway, k: nat, now: int)
    requires k < |g.list| && TimedOut(g.list[k].conn, now)
    ensures Swept(g, k, now) == Swept(Gone(g, k), k, now)
  {
    var tail := g.list[k + 1..];
    assert g.list[k..][1..] == tail;
    assert Without(g.list, k)[k..] == tail;
    assert Without(g.list, k)[..k] == g.list[..k];
    var gone := Expired(tail, now);
    assert ([g.list[k]] + gone)[1..] == gone;
  }

  /** From the connection at `k`, `n` steps complete the sweep. */
  ghost predicate SweepsIn(g: Gateway, m: Mover, now: int, k: nat, n: nat)
    requires Exists(g, m) && k <= |g.list|
  {
    Advanced(At(g, m, Looking(IdleSince(now), k)), m, n) == At(Swept(g, k, now), m, Finished)
  }

  lemma {:induction false} SweptAll(g: Gateway, m: Mover, now: int)
    requires Exists(g, m)
    ensures SweepsIn(g, m, now, |g.list|, 1)
  {
    AdvanceOver(g, m, IdleSince(now), |g.list|, 0);
    assert g.list[..|g.list|] + Survivors(g.list[|g.list|..], now) == g.list;
    assert Swept(g, |g.list|, now) == g;
  }

  lemma {:induction false} SweepTakes(g: Gateway, m: Mover, now: int, k: nat, rest: nat)
    requires Exists(g, m) && k < |g.list| && TimedOut(g.list[k].conn, now)
    requires SweepsIn(Gone(g, k), m, now, k, rest)
    ensures SweepsIn(g, m, now, k, 3 + rest)
  {
    TakeOut(g, m, IdleSince(now), k);
    SweptTake(g, k, now);
    AdvanceMore(At(g, m, Looking(IdleSince(now), k)), m, 3, rest);
  }

  lemma {:induction false} SweepSkips(g: Gateway, m: Mover, now: int, k: nat, rest: nat)
    requires Exists(g, m) && k < |g.list| && !TimedOut(g.list[k].conn, now)
    requires SweepsIn(g, m, now, k + 1, rest)
    ensures SweepsIn(g, m, now, k, 1 + rest)
  {
    SweptSkip(g, k, now);
    AdvanceOver(g, m, IdleSince(now), k, rest);
  }

  lemma {:induction false} SoloSweepFrom(g: Gateway, m: Mover, now: int, k: nat) returns (n: nat)
    requires Exists(g, m) && k <= |g.list|
    ensures SweepsIn(g, m, now, k, n)
    decreases |g.list| - k, 1
  {
    if k == |g.list| {
      n := 1;
      SweptAll(g, m, now);
    } else if TimedOut(g.list[k].conn, now) {
      n := SoloSweepTaking(g, m, now, k);
    } else {
      n := SoloSweepOver(g, m, now, k);
    }
  }

  lemma {:induction false} SoloSweepTaking(g: Gateway, m: Mover, now: int, k: nat) returns (n: nat)
    requires Exists(g, m) && k < |g.list| && TimedOut(g.list[k].conn, now)
    ensures SweepsIn(g, m, now, k, n)
    decreases |g.list| - k, 0
  {
    var rest := SoloSweepFrom(Gone(g, k), m, now, k);
    SweepTakes(g, m, now, k, rest);
    n := 3 + rest;
  }

  lemma {:induction false} SoloSweepOver(g: Gateway, m: Mover, now: int, k: nat) returns (n: nat)
    requires Exists(g, m) && k < |g.list| && !TimedOut(g.list[k].conn, now)
    ensures SweepsIn(g, m, now, k, n)
    decreases |g.list| - k, 0
  {
    var rest := SoloSweepFrom(g, m, now, k + 1);
    SweepSkips(g, m, now, k, rest);
    n := 1 + rest;
  }

  /** The gateway once the first connection with this id is gone, if there is one. */
  function Removed(g: Gateway, id: int): Gateway {
    var f := FirstWithId(g.list, id);
    if f < |g.list| then Gone(g, f) else g
  }

  lemma {:induction false} FoundAt(g: Gateway, m: Mover, id: int, k: nat)
    requires Exists(g, m) && k == FirstWithId(g.list, id) < |g.list|
    ensures Advanced(At(g, m, Looking(ById(id), k)), m, 3) == At(Removed(g, id), m, Finished)
  {
    TakeOut(g, m, ById(id), k);
    assert Removed(g, id) == Gone(g, k);
  }

  lemma {:induction false} FoundNone(g: Gateway, m: Mover, id: int)
    requires Exists(g, m) && FirstWithId(g.list, id) == |g.list|
    ensures Advanced(At(g, m, Looking(ById(id), |g.list|)), m, 1) == At(Removed(g, id), m, Finished)
  {
    AdvanceOver(g, m, ById(id), |g.list|, 0);
    assert Removed(g, id) == g;
  }

  lemma {:induction false} SoloFindFrom(g: Gateway, m: Mover, id: int, k: nat) returns (n: nat)
    requires Exists(g, m) && k <= FirstWithId(g.list, id)
    ensures Advanced(At(g, m, Looking(ById(id), k)), m, n) == At(Removed(g, id), m, Finished)
    decreases |g.list| - k, 1
  {
    if k < FirstWithId(g.list, id) {
      n := SoloFindOver(g, m, id, k);
    } else if k < |g.list| {
      n := 3;
      FoundAt(g, m, id, k);
    } else {
      n := 1;
      FoundNone(g, m, id);
    }
  }

  lemma {:induction false} SoloFindOver(g: Gateway, m: Mover, id: int, k: nat) returns (n: nat)
    requires Exists(g, m) && k < FirstWithId(g.list, id)
    ensures Advanced(At(g, m, Looking(ById(id), k)), m, n) == At(Removed(g, id), m, Finished)
    decreases |g.list| - k, 0
  {
    var rest := SoloFindFrom(g, m, id, k + 1);
    AdvanceOver(g, m, ById(id), k, rest);
    n := 1 + rest;
  }

  /** Nobody holds the list mutex and remover `t` is outside. */
  predicate Ready(g: Gateway, t: nat) {
    g.owner.Nobody? && t < |g.removers| && g.removers[t].Outside?
  }

  /** Enter, run `n` steps, and leave. */
  function Solo(t: nat, goal: Goal, n: nat): seq<Action> {
    [StartRemoval(t, goal)] + Steps(ByRemover(t), n) + [RemoverStep(t)]
  }

  lemma {:induction false} SoloRun(g: Gateway, t: nat, goal: Goal, n: nat, end: Gateway)
    requires Ready(g, t) && Ready(end, t) && end.removers == g.removers
    requires Advanced(At(g.(owner := TheRemover(t)), ByRemover(t), Looking(goal, 0)), ByRemover(t), n)
          == At(end.(owner := TheRemover(t)), ByRemover(t), Finished)
    ensures Run(g, Solo(t, goal, n)) == end
  {
    var inside := At(g.(owner := TheRemover(t)), ByRemover(t), Looking(goal, 0));
    var done := At(end.(owner := TheRemover(t)), ByRemover(t), Finished);
    RunConcat(g, [StartRemoval(t, goal)] + Steps(ByRemover(t), n), [RemoverStep(t)]);
    RunConcat(g, [StartRemoval(t, goal)], Steps(ByRemover(t), n));
    RunOne(g, StartRemoval(t, goal));
    RunOne(done, RemoverStep(t));
    assert Step(g, StartRemoval(t, goal)) == inside;
    assert end.removers[t := Outside] == end.removers;
    assert done.removers[t := Outside] == end.removers;
  }

  /** An undisturbed sweep, step by step, is `CleanupInactive`: same list, same limiter table, same count. */
  lemma {:induction false} SoloSweep(g: Gateway, t: nat, now: int) returns (n: nat)
    requires Ready(g, t)
    ensures Run(g, Solo(t, IdleSince(now), n))
         == g.(list := Survivors(g.list, now), table := ReleaseAll(g.table, Expired(g.list, now)),
               activeCount := g.activeCount - |Expired(g.list, now)|)
  {
    n := SoloSweepFrom(g.(owner := TheRemover(t)), ByRemover(t), now, 0);
    assert g.list[0..] == g.list && [] + Survivors(g.list, now) == Survivors(g.list, now);
    SoloRun(g, t, IdleSince(now), n, Swept(g, 0, now));
  }

  /** An undisturbed removal by id, step by step, is `RemoveConnection`. */
  lemma {:induction false} SoloRemove(g: Gateway, t: nat, id: int) returns (n: nat)
    requires Ready(g, t)
    ensures Run(g, Solo(t, ById(id), n)) == Removed(g, id)
    ensures Removed(g, id).list == RemoveById(g.list, id)
  {
    n := SoloFindFrom(g.(owner := TheRemover(t)), ByRemover(t), id, 0);
    SoloRun(g, t, ById(id), n, Removed(g, id));
  }

  // ---- An accept, and its undoing ----

  predicate Accepts(g: Gateway, ip: Ip, port: int) {
    !PortConnected(g.list, port) && Admits(g.table, ip)
  }

  function ToLimiter(fd: int, ip: Ip, port: int, now: int): seq<Action> {
    [CheckPort(fd, ip, port), ReadId(now), AskLimiter]
  }

  const TO_LIST: seq<Action> := [Allocate(true), LockList, LinkNode]
  const TO_EPOLL: seq<Action> := [RaiseCount, UnlockList]

  lemma {:induction false} RunThree(g: Gateway, a: seq<Action>)
    requires |a| == 3
    ensures Run(g, a) == Step(Step(Step(g, a[0]), a[1]), a[2])
  {
    assert a == [a[0]] + ([a[1]] + [a[2]]);
    RunConcat(g, [a[0]], [a[1]] + [a[2]]);
    RunOne(g, a[0]);
    RunConcat(Step(g, a[0]), [a[1]], [a[2]]);
    RunOne(Step(g, a[0]), a[1]);
    RunOne(Step(Step(g, a[0]), a[1]), a[2]);
  }

  lemma {:induction false} RunTwo(g: Gateway, a: seq<Action>)
    requires |a| == 2
    ensures Run(g, a) == Step(Step(g, a[0]), a[1])
  {
    assert a == [a[0]] + [a[1]];
    RunConcat(g, [a[0]], [a[1]]);
    RunOne(g, a[0]);
    RunOne(Step(g, a[0]), a[1]);
  }

  predicate Idle(g: Gateway) {
    g.owner.Nobody? && g.acceptor.Waiting?
  }

  /** The gateway once a connection was accepted: a node at the head, with the number of connections as its id. */
  function Joined(g: Gateway, fd: int, ip: Ip, port: int, now: int): Gateway {
    g.(list := [Entry(NewConnection(fd, ip, port, g.activeCount, now), InitialData(g.activeCount, now))] + g.list,
       table := Admit(g.table, ip), activeCount := g.activeCount + 1)
  }

  lemma {:induction false} SoloAsk(g: Gateway, fd: int, ip: Ip, port: int, now: int)
    requires Idle(g) && !PortConnected(g.list, port)
    ensures Run(g, ToLimiter(fd, ip, port, now))
         == if Admits(g.table, ip)
            then g.(table := Admit(g.table, ip), acceptor := Admitted(NewConnection(fd, ip, port, g.activeCount, now)))
            else g.(acceptor := Registering(g.activeCount, port))
  {
    var conn := NewConnection(fd, ip, port, g.activeCount, now);
    RunThree(g, ToLimiter(fd, ip, port, now));
    assert Step(g, CheckPort(fd, ip, port)) == g.(acceptor := Checked(fd, ip, port));
    assert Step(g.(acceptor := Checked(fd, ip, port)), ReadId(now)) == g.(acceptor := Numbered(conn));
  }

  lemma {:induction false} SoloLink(g: Gateway, conn: SensorConnection)
    requires g.owner.Nobody? && g.acceptor == Admitted(conn)
    ensures Run(g, TO_LIST + TO_EPOLL)
         == g.(list := [Entry(conn, InitialData(conn.sensorId, conn.connectedTime))] + g.list,
               activeCount := g.activeCount + 1, acceptor := Registering(conn.sensorId, conn.port))
  {
    var g1 := g.(acceptor := Linking(conn), owner := TheAcceptor);
    var g2 := g1.(acceptor := Linked(conn.sensorId, conn.port),
                  list := [Entry(conn, InitialData(conn.sensorId, conn.connectedTime))] + g.list);
    RunConcat(g, TO_LIST, TO_EPOLL);
    RunThree(g, TO_LIST);
    assert Step(g, Allocate(true)) == g.(acceptor := Allocated(conn));
    assert Step(g.(acceptor := Allocated(conn)), LockList) == g1;
    assert Step(g1, LinkNode) == g2;
    RunTwo(g2, TO_EPOLL);
    var g3 := g2.(activeCount := g.activeCount + 1, acceptor := Counted(conn.sensorId, conn.port));
    assert Step(g2, RaiseCount) == g3;
    assert Step(g3, UnlockList) == g3.(owner := Nobody, acceptor := Registering(conn.sensorId, conn.port));
  }

  /** While epoll registration is outstanding, the steps of linking are not enabled. */
  lemma {:induction false} NothingToLink(g: Gateway)
    requires g.acceptor.Registering?
    ensures Run(g, TO_LIST + TO_EPOLL) == g
  {
    RunConcat(g, TO_LIST, TO_EPOLL);
    RunThree(g, TO_LIST);
    RunTwo(g, TO_EPOLL);
  }

  function Accept(fd: int, ip: Ip, port: int, now: int): seq<Action> {
    ToLimiter(fd, ip, port, now) + (TO_LIST + TO_EPOLL)
  }

  /** The undisturbed accept up to the epoll registration: linked if the limiter agrees, else nothing. */
  lemma {:induction false} SoloAcceptOpen(g: Gateway, fd: int, ip: Ip, port: int, now: int)
    requires Idle(g) && !PortConnected(g.list, port)
    ensures Run(g, Accept(fd, ip, port, now))
         == (if Admits(g.table, ip) then Joined(g, fd, ip, port, now) else g).(acceptor := Registering(g.activeCount, port))
  {
    SoloAsk(g, fd, ip, port, now);
    RunConcat(g, ToLimiter(fd, ip, port, now), TO_LIST + TO_EPOLL);
    var asked := Run(g, ToLimiter(fd, ip, port, now));
    if Admits(g.table, ip) {
      SoloLink(asked, asked.acceptor.conn);
    } else {
      NothingToLink(asked);
    }
  }

  /** An undisturbed accept is `AddConnection` with the number of connections as the id. */
  lemma {:induction false} SoloAccept(g: Gateway, fd: int, ip: Ip, port: int, now: int)
    requires Idle(g) && Accepts(g, ip, port)
    ensures Run(g, Accept(fd, ip, port, now) + [Register(true)]) == Joined(g, fd, ip, port, now)
  {
    SoloAcceptOpen(g, fd, ip, port, now);
    RunConcat(g, Accept(fd, ip, port, now), [Register(true)]);
    RunOne(Run(g, Accept(fd, ip, port, now)), Register(true));
  }

  /** The undoing of an accept once its registration has failed, with the list mutex free. */
  lemma {:induction false} UndoFrom(g: Gateway) returns (run: seq<Action>)
    requires g.owner.Nobody? && g.acceptor.Undoing?
    ensures Run(g, run) == Removed(g, g.acceptor.id).(acceptor := Waiting)
  {
    var id := g.acceptor.id;
    var undoing := g.(owner := TheAcceptor, acceptor := Waiting);
    var looking := At(undoing, ByAcceptor, Looking(ById(id), 0));
    var n := SoloFindFrom(undoing, ByAcceptor, id, 0);
    RunOne(g, StartUndo);
    UndoEnds(undoing, id);
    RunConcat(looking, Steps(ByAcceptor, n), [AcceptorRemovalStep]);
    run := [StartUndo] + (Steps(ByAcceptor, n) + [AcceptorRemovalStep]);
    RunConcat(g, [StartUndo], Steps(ByAcceptor, n) + [AcceptorRemovalStep]);
  }

  lemma {:induction false} UndoEnds(g: Gateway, id: int)
    requires g.owner.TheAcceptor?
    ensures Run(At(Removed(g, id), ByAcceptor, Finished), [AcceptorRemovalStep])
         == Removed(g, id).(owner := Nobody, acceptor := Waiting)
  {
    RunOne(At(Removed(g, id), ByAcceptor, Finished), AcceptorRemovalStep);
  }

  /** From an outstanding registration that fails: the acceptor removes by the id it had read. */
  lemma {:induction false} SoloUndo(g: Gateway, id: int, port: int) returns (run: seq<Action>)
    requires Idle(g)
    ensures Run(g.(acceptor := Registering(id, port)), run) == Removed(g, id)
  {
    var open, failed := g.(acceptor := Registering(id, port)), g.(acceptor := Undoing(id, port));
    RunOne(open, Register(false));
    var undo := UndoFrom(failed);
    run := [Register(false)] + undo;
    RunConcat(open, [Register(false)], undo);
  }

  /**
   The undoing after a failed epoll registration removes by id.  If the
   connection was linked, exactly it goes again and everything is as before.
   If the limiter had refused it, the first sensor that carries the number of
   connections as its id is disconnected in its place: unlinked, given back to
   the limiter and taken off the counter, and only if there is none, nothing.
   */
  lemma {:induction false} FailedRegistration(g: Gateway, fd: int, ip: Ip, port: int, now: int) returns (run: seq<Action>)
    requires Idle(g) && !PortConnected(g.list, port) && WellFormed(g.table)
    ensures Admits(g.table, ip) ==>
      && Run(g, Accept(fd, ip, port, now) + run) == g.(table := Release(Admit(g.table, ip), ip))
      && (forall q: Ip :: CountOf(Release(Admit(g.table, ip), ip), q) == CountOf(g.table, q))
    ensures !Admits(g.table, ip) ==>
      && Run(g, Accept(fd, ip, port, now) + run) == Removed(g, g.activeCount)
      && (Run(g, Accept(fd, ip, port, now) + run) == g <==>
            forall k :: 0 <= k < |g.list| ==> g.list[k].conn.sensorId != g.activeCount)
  {
    SoloAcceptOpen(g, fd, ip, port, now);
    if Admits(g.table, ip) {
      var joined := Joined(g, fd, ip, port, now);
      run := SoloUndo(joined, g.activeCount, port);
      RunConcat(g, Accept(fd, ip, port, now), run);
      assert FirstWithId(joined.list, g.activeCount) == 0;
      assert Without(joined.list, 0) == g.list;
      ReleaseUndoesAdmit(g.table, ip);
    } else {
      run := SoloUndo(g, g.activeCount, port);
      RunConcat(g, Accept(fd, ip, port, now), run);
    }
  }

  // ---- The undoing amid other threads ----

  /** The accept is past the limiter and the allocation, linked or not, and not yet through. */
  predicate Opened(a: Acceptor) {
    a.Linked? || a.Counted? || a.Registering? || a.Undoing?
  }

  /** The accept's own node, the one with its port, is linked: it was linked and nobody took it out again. */
  predicate OwnLinked(g: Gateway) {
    Opened(g.acceptor) && exists k :: 0 <= k < |g.list| && g.list[k].conn.port == g.acceptor.port
  }

  /** Only the node at the head can be it, and it carries the accept's id. */
  ghost predicate OwnFirst(g: Gateway) {
    Opened(g.acceptor) ==>
      forall k :: 0 <= k < |g.list| && g.list[k].conn.port == g.acceptor.port ==>
        k == 0 && g.list[k].conn.sensorId == g.acceptor.id
  }

  lemma {:induction false} RemovalKeepsOwn(g: Gateway, r: Removal, g': Gateway)
    requires OwnFirst(g) && g'.list == RemovalStep(g, r).0.list
    requires g'.acceptor == g.acceptor || g'.acceptor.Removing? || g'.acceptor.Waiting?
    ensures OwnFirst(g')
  {
    if r.GivenBack? && r.at < |g.list| {
      WithoutAt(g.list, r.at);
      assert forall k :: 0 <= k < |g'.list| ==> g'.list[k] == g.list[if k < r.at then k else k + 1];
    }
  }

  lemma {:induction false} AcceptorKeepsOwn(g: Gateway, a: Action)
    requires Inv(g) && OwnFirst(g)
    requires a.AskLimiter? || a.Allocate? || a.RaiseCount? || a.UnlockList? || a.Register?
    ensures OwnFirst(Step(g, a))
  {
    if g.acceptor.Numbered? || g.acceptor.Admitted? {
      assert forall k :: 0 <= k < |g.list| ==> !Reserved(g.acceptor, g.list[k].conn.port);
    }
  }

  lemma {:induction false} LinkKeepsOwn(g: Gateway)
    requires Inv(g) && OwnFirst(g)
    ensures OwnFirst(Step(g, LinkNode))
  {
    var list := Step(g, LinkNode).list;
    if g.acceptor.Linking? {
      forall k | 1 <= k < |list|
        ensures list[k].conn.port != g.acceptor.conn.port
      {
        assert list[k] == g.list[k - 1];
        assert !Reserved(g.acceptor, g.list[k - 1].conn.port);
      }
    }
  }

  lemma {:induction false} StepKeepsOwn(g: Gateway, a: Action)
    requires Inv(g) && OwnFirst(g)
    ensures OwnFirst(Step(g, a))
  {
    match a
    case AcceptorRemovalStep => if g.acceptor.Removing? { RemovalKeepsOwn(g, g.acceptor.removal, Step(g, a)); }
    case RemoverStep(t) =>
      if t < |g.removers| && g.removers[t].Inside? { RemovalKeepsOwn(g, g.removers[t].removal, Step(g, a)); }
    case LinkNode => LinkKeepsOwn(g);
    case AskLimiter => AcceptorKeepsOwn(g, a);
    case Allocate(_) => AcceptorKeepsOwn(g, a);
    case RaiseCount => AcceptorKeepsOwn(g, a);
    case UnlockList => AcceptorKeepsOwn(g, a);
    case Register(_) => AcceptorKeepsOwn(g, a);
    case _ =>
  }

  lemma {:induction false} RunKeepsOwn(g: Gateway, actions: seq<Action>)
    requires Inv(g) && OwnFirst(g)
    ensures OwnFirst(Run(g, actions))
    decreases |actions|
  {
    if actions != [] {
      StepKeepsInv(g, actions[0]);
      StepKeepsOwn(g, actions[0]);
      RunKeepsOwn(Step(g, actions[0]), actions[1..]);
    }
  }

  /**
   The undoing in any reachable state, whatever removers did since the node was
   linked: it takes out the accept's own node if that is still linked, and else
   the first other sensor with the id that was read, if there is one.  So no
   other sensor is hit exactly when the own node is still linked or no linked
   sensor carries the id.
   */
  lemma {:induction false} UndoHitsOwnIff(n: nat, actions: seq<Action>) returns (undo: seq<Action>)
    requires var g := Run(Init(n), actions); g.owner.Nobody? && g.acceptor.Undoing?
    ensures var g, g' := Run(Init(n), actions), Run(Init(n), actions + undo);
      var f := FirstWithId(g.list, g.acceptor.id);
      && g' == Removed(g, g.acceptor.id).(acceptor := Waiting)
      && (OwnLinked(g) ==> f == 0 < |g.list| && g.list[0].conn.port == g.acceptor.port && g'.list == g.list[1..])
      && (!OwnLinked(g) && f < |g.list| ==> g.list[f].conn.port != g.acceptor.port && g'.list == Without(g.list, f))
      && (OthersStay(g, g') <==> OwnLinked(g) || f == |g.list|)
  {
    var g := Run(Init(n), actions);
    RunKeepsOwn(Init(n), actions);
    Reachable(n, actions);
    undo := UndoFrom(g);
    RunConcat(Init(n), actions, undo);
    var f := FirstWithId(g.list, g.acceptor.id);
    if f < |g.list| {
      WithoutAt(g.list, f);
      OthersStayIff(g, Without(g.list, f), f);
    }
  }

  /** Every sensor but the accept's own is still linked. */
  ghost predicate OthersStay(g: Gateway, g': Gateway)
    requires g.acceptor.Undoing?
  {
    forall k :: 0 <= k < |g.list| && g.list[k].conn.port != g.acceptor.port ==> g.list[k] in g'.list
  }

  lemma {:induction false} OthersStayIff(g: Gateway, list: seq<Entry>, f: nat)
    requires g.acceptor.Undoing? && Ports(g) && f < |g.list| && list == Without(g.list, f)
    ensures (forall k :: 0 <= k < |g.list| && g.list[k].conn.port != g.acceptor.port ==> g.list[k] in list)
       <==> g.list[f].conn.port == g.acceptor.port
  {
    WithoutAt(g.list, f);
    forall j | 0 <= j < |list|
      ensures list[j] != g.list[f]
    {
      assert list[j] == g.list[if j < f then j else j + 1];
    }
    forall k | 0 <= k < |g.list| && k != f
      ensures g.list[k] in list
    {
      assert list[if k < f then k else k - 1] == g.list[k];
    }
  }

  // ---- Sensor ids ----

  ghost predicate DistinctIds(list: seq<Entry>) {
    forall i, j :: 0 <= i < j < |list| ==> list[i].conn.sensorId != list[j].conn.sensorId
  }

  /** Before the node is linked: no linked sensor carries the id that was read for it. */
  ghost predicate NewId(g: Gateway) {
    g.acceptor.Linking? ==> forall k :: 0 <= k < |g.list| ==> g.list[k].conn.sensorId != g.acceptor.conn.sensorId
  }

  lemma {:induction false} LinkKeepsIdsIff(g: Gateway)
    requires DistinctIds(g.list)
    ensures DistinctIds(Step(g, LinkNode).list) <==> NewId(g)
  {
    var list := Step(g, LinkNode).list;
    if g.acceptor.Linking? {
      assert forall k :: 1 <= k < |list| ==> list[k] == g.list[k - 1];
      if k :| 0 <= k < |g.list| && g.list[k].conn.sensorId == g.acceptor.conn.sensorId {
        assert list[k + 1].conn.sensorId == list[0].conn.sensorId;
      }
    }
  }

  lemma {:induction false} WithoutKeepsIds(list: seq<Entry>, at: nat)
    requires DistinctIds(list) && at < |list|
    ensures DistinctIds(Without(list, at))
  {
    var rest := Without(list, at);
    assert forall k :: 0 <= k < |rest| ==> rest[k] == list[if k < at then k else k + 1];
  }

  lemma {:induction false} RemovalKeepsIds(g: Gateway, r: Removal)
    requires DistinctIds(g.list)
    ensures DistinctIds(RemovalStep(g, r).0.list)
  {
    if r.GivenBack? && r.at < |g.list| {
      WithoutKeepsIds(g.list, r.at);
    }
  }

  lemma {:induction false} OthersKeepIds(g: Gateway, a: Action)
    requires DistinctIds(g.list) && !a.LinkNode?
    ensures DistinctIds(Step(g, a).list)
  {
    match a
    case AcceptorRemovalStep => if g.acceptor.Removing? { RemovalKeepsIds(g, g.acceptor.removal); }
    case RemoverStep(t) => if t < |g.removers| && g.removers[t].Inside? { RemovalKeepsIds(g, g.removers[t].removal); }
    case _ =>
  }

  ghost predicate AlwaysDistinct(g: Gateway, actions: seq<Action>)
    decreases |actions|
  {
    DistinctIds(g.list) && (actions == [] || AlwaysDistinct(Step(g, actions[0]), actions[1..]))
  }

  ghost predicate LinksNewIds(g: Gateway, actions: seq<Action>)
    decreases |actions|
  {
    actions == [] || ((actions[0].LinkNode? ==> NewId(g)) && LinksNewIds(Step(g, actions[0]), actions[1..]))
  }

  /**
   The documentation calls the id unique.  It is the number of connections when
   the acceptor read it, without the lock.  In every interleaving ids stay
   distinct all along if and only if, whenever a node is linked, no linked
   sensor carries the id that was read for it.
   */
  lemma {:induction false} IdsStayDistinctIff(g: Gateway, actions: seq<Action>)
    requires DistinctIds(g.list)
    ensures AlwaysDistinct(g, actions) <==> LinksNewIds(g, actions)
    decreases |actions|
  {
    if actions != [] {
      if actions[0].LinkNode? {
        LinkKeepsIdsIff(g);
      } else {
        OthersKeepIds(g, actions[0]);
      }
      if DistinctIds(Step(g, actions[0]).list) {
        IdsStayDistinctIff(Step(g, actions[0]), actions[1..]);
      }
    }
  }

  /** For an accept that nobody interrupts the number read is the number of connections. */
  lemma {:induction false} SoloIdsStayDistinctIff(g: Gateway, fd: int, ip: Ip, port: int, now: int)
    requires Idle(g) && Accepts(g, ip, port) && DistinctIds(g.list)
    ensures DistinctIds(Run(g, Accept(fd, ip, port, now) + [Register(true)]).list)
       <==> forall k :: 0 <= k < |g.list| ==> g.list[k].conn.sensorId != g.activeCount
  {
    SoloAccept(g, fd, ip, port, now);
    LinkKeepsIdsIff(g.(acceptor := Linking(NewConnection(fd, ip, port, g.activeCount, now))));
  }

  lemma {:induction false} AppendAccept(n: nat, run: seq<Action>, fd: int, ip: Ip, port: int, now: int) returns (run': seq<Action>)
    requires Idle(Run(Init(n), run)) && Accepts(Run(Init(n), run), ip, port)
    ensures Run(Init(n), run') == Joined(Run(Init(n), run), fd, ip, port, now)
  {
    var g := Run(Init(n), run);
    SoloAccept(g, fd, ip, port, now);
    run' := run + (Accept(fd, ip, port, now) + [Register(true)]);
    RunConcat(Init(n), run, Accept(fd, ip, port, now) + [Register(true)]);
  }

  /** Two accepts, one removal and a third accept leave two sensors with id 1. */
  lemma {:induction false} IdsRepeat(a: Ip, now: int) returns (run: seq<Action>)
    ensures !DistinctIds(Run(Init(1), run).list)
  {
    var g0 := Init(1);
    AdmitCounts(g0.table, a);
    var one := AppendAccept(1, [], 4, a, 1, now);
    var g1 := Run(g0, one);
    AdmitCounts(g1.table, a);
    var two := AppendAccept(1, one, 5, a, 2, now);
    var g2 := Run(g0, two);
    assert FirstWithId(g2.list, 0) == 1;
    var n := SoloRemove(g2, 0, 0);
    RunConcat(g0, two, Solo(0, ById(0), n));
    ReleaseCounts(g2.table, a);
    var g3 := Run(g0, two + Solo(0, ById(0), n));
    assert g3.list == [g2.list[0]];
    run := AppendAccept(1, two + Solo(0, ById(0), n), 6, a, 3, now);
    assert Run(g0, run).list[0].conn.sensorId == Run(g0, run).list[1].conn.sensorId;
  }

  // ---- Failed allocations ----

  const TO_NOTHING: seq<Action> := [Allocate(false), Register(true)]

  /** An accept that is admitted and then finds no memory leaves only the limiter raised. */
  lemma {:induction false} FailedAllocation(g: Gateway, fd: int, ip: Ip, port: int, now: int)
    requires Idle(g) && Accepts(g, ip, port)
    ensures Run(g, ToLimiter(fd, ip, port, now) + TO_NOTHING)
         == g.(table := Admit(g.table, ip), lost := g.lost + multiset{ip})
  {
    SoloAsk(g, fd, ip, port, now);
    var asked := Run(g, ToLimiter(fd, ip, port, now));
    RunConcat(g, ToLimiter(fd, ip, port, now), TO_NOTHING);
    RunTwo(asked, TO_NOTHING);
  }

  /** Failed allocations alone reach a state with nobody connected where this address is refused for ever. */
  lemma {:induction false} LockedOutByFailures(ip: Ip, now: int) returns (run: seq<Action>)
    ensures Run(Init(0), run).list == [] && |Run(Init(0), run).table| == 1
    ensures forall more: seq<Action> :: !Admits(Run(Run(Init(0), run), more).table, ip)
  {
    run := FailuresFrom(ip, now, MAX_CONNECTIONS_PER_IP);
    forall more: seq<Action>
      ensures !Admits(Run(Run(Init(0), run), more).table, ip)
    {
      LostFiveIsRefused(0, run, more, ip);
    }
  }

  lemma {:induction false} FailuresFrom(ip: Ip, now: int, k: nat) returns (run: seq<Action>)
    requires k <= MAX_CONNECTIONS_PER_IP
    ensures var g := Run(Init(0), run);
      && Idle(g) && g.list == [] && WellFormed(g.table) && CountOf(g.table, ip) == k == g.lost[ip]
      && |g.table| == (if k == 0 then 0 else 1) && (k > 0 ==> Known(g.table, ip))
  {
    run := [];
    if k > 0 {
      var before := FailuresFrom(ip, now, k - 1);
      var g := Run(Init(0), before);
      AdmitCounts(g.table, ip);
      FailedAllocation(g, 0, ip, 0, now);
      run := before + (ToLimiter(0, ip, 0, now) + TO_NOTHING);
      RunConcat(Init(0), before, ToLimiter(0, ip, 0, now) + TO_NOTHING);
    }
  }

  // ---- A refused accept that disconnects another sensor ----

  /** `k` sensors from `a` are linked in front of `list`, numbered on from `base`, with ports of their own. */
  ghost predicate LinkedFrom(g: Gateway, a: Ip, list: seq<Entry>, base: int, k: nat) {
    && Idle(g) && Ready(g, 0) && WellFormed(g.table)
    && |g.table| + If(!Known(g.table, a)) < MAX_UNIQUE_IPS
    && CountOf(g.table, a) == k && g.activeCount == base + k
    && |g.list| == |list| + k && g.list[k..] == list
    && (forall i :: 0 <= i < k ==> g.list[i].conn.sensorId == g.list[i].conn.port == base + k - 1 - i)
    && (forall i :: 0 <= i < |list| ==> list[i].conn.port < base)
  }

  lemma {:induction false} JoinedIsLinkedFrom(g: Gateway, a: Ip, list: seq<Entry>, base: int, k: nat, now: int)
    requires LinkedFrom(g, a, list, base, k) && k < MAX_CONNECTIONS_PER_IP
    ensures Accepts(g, a, g.activeCount)
    ensures LinkedFrom(Joined(g, 0, a, g.activeCount, now), a, list, base, k + 1)
  {
    var g' := Joined(g, 0, a, g.activeCount, now);
    AdmitCounts(g.table, a);
    assert forall i :: 1 <= i < |g'.list| ==> g'.list[i] == g.list[i - 1];
    assert forall i :: k <= i < |g.list| ==> g.list[i] == list[i - k];
  }

  lemma {:induction false} LinkMore(before: seq<Action>, a: Ip, k: nat, now: int) returns (run: seq<Action>)
    requires k <= MAX_CONNECTIONS_PER_IP
    requires var g := Run(Init(1), before); LinkedFrom(g, a, g.list, g.activeCount, 0)
    ensures var g := Run(Init(1), before); LinkedFrom(Run(Init(1), run), a, g.list, g.activeCount, k)
    decreases k
  {
    run := before;
    if k > 0 {
      var start := Run(Init(1), before);
      var fewer := LinkMore(before, a, k - 1, now);
      var g := Run(Init(1), fewer);
      JoinedIsLinkedFrom(g, a, start.list, start.activeCount, k - 1, now);
      run := AppendAccept(1, fewer, 0, a, g.activeCount, now);
    }
  }

  /** One sensor from `b` and five from `a` connect, and that from `b` leaves again. */
  lemma {:induction false} FiveAreLinked(a: Ip, b: Ip, now: int) returns (run: seq<Action>)
    requires a != b
    ensures var g := Run(Init(1), run);
      && Idle(g) && WellFormed(g.table) && !Admits(g.table, a)
      && |g.list| == g.activeCount == MAX_CONNECTIONS_PER_IP && g.list[0].conn.sensorId == g.activeCount
      && forall k :: 0 <= k < |g.list| ==> g.list[k].conn.port <= MAX_CONNECTIONS_PER_IP
  {
    var g0 := Init(1);
    AdmitCounts(g0.table, b);
    var one := AppendAccept(1, [], 0, b, 0, now);
    var six := LinkMore(one, a, MAX_CONNECTIONS_PER_IP, now);
    var g := Run(g0, six);
    assert g.list[MAX_CONNECTIONS_PER_IP] == g.list[MAX_CONNECTIONS_PER_IP..][0];
    assert FirstWithId(g.list, 0) == MAX_CONNECTIONS_PER_IP;
    var n := SoloRemove(g, 0, 0);
    run := six + Solo(0, ById(0), n);
    RunConcat(g0, six, Solo(0, ById(0), n));
    ReleaseCounts(g.table, b);
  }

  /**
   It happens: a sixth connection from `a` is refused, its epoll registration
   fails, and the undoing disconnects the sensor that connected last.
   */
  lemma {:induction false} RefusedAcceptHitsAnother(a: Ip, b: Ip, now: int)
    returns (before: seq<Action>, undo: seq<Action>)
    requires a != b
    ensures var port := MAX_CONNECTIONS_PER_IP + 1; var g := Run(Init(1), before);
      && Idle(g) && !PortConnected(g.list, port) && !Admits(g.table, a) && |g.list| == MAX_CONNECTIONS_PER_IP
      && Run(Init(1), before + (Accept(0, a, port, now) + undo)).list == g.list[1..]
  {
    before := FiveAreLinked(a, b, now);
    var port := MAX_CONNECTIONS_PER_IP + 1;
    var g := Run(Init(1), before);
    undo := FailedRegistration(g, 0, a, port, now);
    RunConcat(Init(1), before, Accept(0, a, port, now) + undo);
    assert FirstWithId(g.list, g.activeCount) == 0;
  }
}
