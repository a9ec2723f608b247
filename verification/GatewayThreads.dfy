/**
 The threads that share the gateway's connection list and IP limiter.

 One acceptor checks the port, reads an id, asks the limiter, allocates and
 links a node.  Any number of removers (terminate command, disconnect, timeout
 sweep) unlink nodes.  The list mutex is an explicit owner; a limiter call is
 one step because its mutex is never held across another lock or list access.
 Every step is a function of the state and an action; an action that is not
 enabled leaves the state alone, so a run is any sequence of actions.
 */
module GatewayThreads {
  import opened IpLimiter
  import opened SensorConnections

  /** What a remover looks for: `remove_connection` takes an id, the sweep takes a time. */
  datatype Goal = ById(id: int) | IdleSince(now: int)

  predicate Matches(goal: Goal, c: SensorConnection) {
    match goal
    case ById(id) => c.sensorId == id
    case IdleSince(now) => TimedOut(c, now)
  }

  /** The places inside a removal; the list mutex is held at all of them. */
  datatype Removal =
    | Looking(goal: Goal, at: nat)
    | GivenBack(goal: Goal, at: nat)  // limiter told, node still linked
    | Unlinked(goal: Goal, at: nat)   // node gone, active_count not yet lowered
    | Finished

  datatype Remover = Outside | Inside(removal: Removal)

  /** The places of `handle_new_connection` and the `add_connection` it calls. */
  datatype Acceptor =
    | Waiting
    | Checked(fd: int, ip: Ip, port: int)  // the port was free
    | Numbered(conn: SensorConnection)     // active_count was read as the id
    | Admitted(conn: SensorConnection)     // the limiter said yes
    | Allocated(conn: SensorConnection)    // a node exists
    | Linking(conn: SensorConnection)      // list mutex taken
    | Linked(id: int, port: int)           // node at the head, active_count not yet raised
    | Counted(id: int, port: int)          // list mutex still held
    | Registering(id: int, port: int)      // epoll registration outstanding
    | Undoing(id: int, port: int)          // registration failed, about to remove
    | Removing(removal: Removal)           // inside remove_connection

  datatype Owner = Nobody | TheAcceptor | TheRemover(t: nat)

  datatype Gateway = Gateway(
    list: seq<Entry>, activeCount: int, table: seq<IpEntry>, owner: Owner,
    acceptor: Acceptor, removers: seq<Remover>, lost: multiset<Ip>)  // lost: admitted, but the allocation failed

  datatype Action =
    | CheckPort(fd: int, ip: Ip, port: int)
    | ReadId(now: int)
    | AskLimiter
    | Allocate(gotMemory: bool)
    | LockList
    | LinkNode
    | RaiseCount
    | UnlockList
    | Register(registered: bool)
    | StartUndo
    | AcceptorRemovalStep
    | StartRemoval(t: nat, goal: Goal)
    | RemoverStep(t: nat)
    | Refresh(id: int, data: SensorData, now: int)  // a simulated reading arrives, without any lock

  function Init(n: nat): Gateway {
    Gateway([], 0, [], Nobody, Waiting, seq(n, _ => Outside), multiset{})
  }

  function NewConnection(fd: int, ip: Ip, port: int, id: int, now: int): SensorConnection {
    SensorConnection(fd, ip, port, id, true, now, now, Connected)
  }

  function InitialData(id: int, now: int): SensorData {
    SensorData(now, id, 0.0, false)
  }

  /** One step inside a removal that has not finished. */
  function RemovalStep(g: Gateway, r: Removal): (Gateway, Removal) {
    match r
    case Looking(goal, at) =>
      if at >= |g.list| then (g, Finished)
      else if Matches(goal, g.list[at].conn) then
        (g.(table := Release(g.table, g.list[at].conn.ip)), GivenBack(goal, at))
      else (g, Looking(goal, at + 1))
    case GivenBack(goal, at) =>
      (if at < |g.list| then g.(list := Without(g.list, at)) else g, Unlinked(goal, at))
    case Unlinked(goal, at) =>
      (g.(activeCount := g.activeCount - 1), if goal.ById? then Finished else Looking(goal, at))
    case Finished => (g, Finished)
  }

  function Step(g: Gateway, a: Action): Gateway {
    match (a, g.acceptor)
    case (CheckPort(fd, ip, port), Waiting) =>
      if g.owner.Nobody? && !PortConnected(g.list, port) then g.(acceptor := Checked(fd, ip, port)) else g
    case (ReadId(now), Checked(fd, ip, port)) =>
      g.(acceptor := Numbered(NewConnection(fd, ip, port, g.activeCount, now)))
    case (AskLimiter, Numbered(conn)) =>
      if Admits(g.table, conn.ip) then g.(table := Admit(g.table, conn.ip), acceptor := Admitted(conn))
      else g.(acceptor := Registering(conn.sensorId, conn.port))
    case (Allocate(gotMemory), Admitted(conn)) =>
      if gotMemory then g.(acceptor := Allocated(conn))
      else g.(acceptor := Registering(conn.sensorId, conn.port), lost := g.lost + multiset{conn.ip})
    case (LockList, Allocated(conn)) =>
      if g.owner.Nobody? then g.(owner := TheAcceptor, acceptor := Linking(conn)) else g
    case (LinkNode, Linking(conn)) =>
      g.(list := [Entry(conn, InitialData(conn.sensorId, conn.connectedTime))] + g.list, acceptor := Linked(conn.sensorId, conn.port))
    case (RaiseCount, Linked(id, port)) =>
      g.(activeCount := g.activeCount + 1, acceptor := Counted(id, port))
    case (UnlockList, Counted(id, port)) =>
      g.(owner := Nobody, acceptor := Registering(id, port))
    case (Register(registered), Registering(id, port)) =>
      g.(acceptor := if registered then Waiting else Undoing(id, port))
    case (StartUndo, Undoing(id, _)) =>
      if g.owner.Nobody? then g.(owner := TheAcceptor, acceptor := Removing(Looking(ById(id), 0))) else g
    case (AcceptorRemovalStep, Removing(r)) =>
      if r.Finished? then g.(owner := Nobody, acceptor := Waiting)
      else var (g', r') := RemovalStep(g, r); g'.(acceptor := Removing(r'))
    case (StartRemoval(t, goal), _) =>
      if t < |g.removers| && g.removers[t].Outside? && g.owner.Nobody?
      then g.(owner := TheRemover(t), removers := g.removers[t := Inside(Looking(goal, 0))])
      else g
    case (RemoverStep(t), _) =>
      if t < |g.removers| && g.removers[t].Inside? then
        var r := g.removers[t].removal;
        if r.Finished? then g.(owner := Nobody, removers := g.removers[t := Outside])
        else var (g', r') := RemovalStep(g, r); g'.(removers := g.removers[t := Inside(r')])
      else g
    case (Refresh(id, data, now), _) =>
      g.(list := Refreshed(g.list, id, data, now))
    case _ => g
  }

  function Run(g: Gateway, actions: seq<Action>): Gateway
    decreases |actions|
  {
    if actions == [] then g else Run(Step(g, actions[0]), actions[1..])
  }

  /**
   A new sensor is active and connected, outlives every sweep of its first 30
   seconds and none later unless it sends, and has no reading to be checked yet.
   */
  lemma {:induction false} NewSensorSurvives(fd: int, ip: Ip, port: int, id: int, now: int, later: int, list: seq<Entry>)
    ensures var e := Entry(NewConnection(fd, ip, port, id, now), InitialData(id, now));
      && e.conn.socketFd == fd && e.conn.ip == ip && e.conn.port == port && e.conn.sensorId == id
      && e.conn.connectedTime == now && e.conn.isActive && e.conn.status == Connected
      && !e.latest.isValid && e.latest.sensorId == id && e.latest.timestamp == now
      && Survivors([e] + list, later) == (if later - now <= 30 then [e] else []) + Survivors(list, later)
  {
    var e := Entry(NewConnection(fd, ip, port, id, now), InitialData(id, now));
    SurvivorsAround([], e, list, later);
    assert [] + [e] + list == [e] + list;
  }

  // ---- What every reachable state satisfies ----

  /** The removal that holds the list mutex, if one does. */
  function Current(g: Gateway): Removal {
    match g.owner
    case TheAcceptor => if g.acceptor.Removing? then g.acceptor.removal else Finished
    case TheRemover(t) => if t < |g.removers| && g.removers[t].Inside? then g.removers[t].removal else Finished
    case Nobody => Finished
  }

  predicate AcceptorHolds(a: Acceptor) {
    a.Linking? || a.Linked? || a.Counted? || a.Removing?
  }

  /** The list mutex excludes: exactly its owner is at a place that holds it. */
  ghost predicate Exclusion(g: Gateway) {
    && (g.owner.TheAcceptor? <==> AcceptorHolds(g.acceptor))
    && (forall t :: 0 <= t < |g.removers| ==> (g.removers[t].Inside? <==> g.owner == TheRemover(t)))
    && (g.owner.TheRemover? ==> g.owner.t < |g.removers|)
    && (Current(g).GivenBack? ==> Current(g).at < |g.list|)
  }

  /** 1 if a connection from `ip` was admitted but is not linked yet. */
  function Pending(g: Gateway, ip: Ip): nat {
    If((g.acceptor.Admitted? || g.acceptor.Allocated? || g.acceptor.Linking?) && g.acceptor.conn.ip == ip)
  }

  /** 1 if a linked connection from `ip` was already given back to the limiter. */
  function Leaving(g: Gateway, ip: Ip): nat {
    var r := Current(g);
    If(r.GivenBack? && r.at < |g.list| && g.list[r.at].conn.ip == ip)
  }

  /** What the limiter counts for `ip` is what is linked, on its way in, or lost, less what is on its way out. */
  ghost predicate Balanced(g: Gateway, ip: Ip) {
    && CountOf(g.table, ip) + Leaving(g, ip) == NumFrom(g.list, ip) + Pending(g, ip) + g.lost[ip]
    && NumFrom(g.list, ip) <= MAX_CONNECTIONS_PER_IP
  }

  ghost predicate Accounts(g: Gateway) {
    && WellFormed(g.table)
    && (forall ip: Ip :: Balanced(g, ip))
    && g.activeCount + If(g.acceptor.Linked?) == |g.list| + If(Current(g).Unlinked?)
  }

  ghost predicate AllKnown(g: Gateway) {
    && (forall k :: 0 <= k < |g.list| ==> Known(g.table, g.list[k].conn.ip))
    && (g.acceptor.Admitted? || g.acceptor.Allocated? || g.acceptor.Linking? ==> Known(g.table, g.acceptor.conn.ip))
  }

  /** The port the acceptor found free and still means to use. */
  ghost predicate Reserved(a: Acceptor, port: int) {
    match a
    case Checked(_, _, p) => p == port
    case Numbered(conn) => conn.port == port
    case Admitted(conn) => conn.port == port
    case Allocated(conn) => conn.port == port
    case Linking(conn) => conn.port == port
    case _ => false
  }

  ghost predicate Ports(g: Gateway) {
    && (forall k :: 0 <= k < |g.list| ==> g.list[k].conn.status == Connected)
    && (forall i, j :: 0 <= i < j < |g.list| ==> g.list[i].conn.port != g.list[j].conn.port)
    && (forall k :: 0 <= k < |g.list| ==> !Reserved(g.acceptor, g.list[k].conn.port))
    && (match g.acceptor
        case Numbered(conn) => conn.status == Connected
        case Admitted(conn) => conn.status == Connected
        case Allocated(conn) => conn.status == Connected
        case Linking(conn) => conn.status == Connected
        case _ => true)
  }

  ghost predicate Inv(g: Gateway) {
    Exclusion(g) && Accounts(g) && AllKnown(g) && Ports(g)
  }

  // ---- Every step keeps it ----

  lemma {:induction false} RefreshKeepsNumFrom(list: seq<Entry>, k: nat, e: Entry, ip: Ip)
    requires k < |list| && e.conn.ip == list[k].conn.ip
    ensures NumFrom(list[k := e], ip) == NumFrom(list, ip)
  {
    NumFromWithout(list, k, ip);
    NumFromWithout(list[k := e], k, ip);
    assert Without(list[k := e], k) == Without(list, k);
  }

  lemma {:induction false} RefreshKeepsAccounts(g: Gateway, g': Gateway, id: int, data: SensorData, now: int)
    requires Accounts(g) && g' == g.(list := Refreshed(g.list, id, data, now))
    ensures Accounts(g')
  {
    var k := FirstWithId(g.list, id);
    forall ip: Ip
      ensures Balanced(g', ip)
    {
      assert Balanced(g, ip);
      if k < |g.list| {
        RefreshKeepsNumFrom(g.list, k, g'.list[k], ip);
      }
    }
  }

  lemma {:induction false} RefreshKeepsInv(g: Gateway, id: int, data: SensorData, now: int)
    requires Inv(g)
    ensures Inv(g.(list := Refreshed(g.list, id, data, now)))
  {
    RefreshKeepsAccounts(g, g.(list := Refreshed(g.list, id, data, now)), id, data, now);
  }

  /** Between `g` and `g'` the limiter and the places of the threads move together for `ip`. */
  ghost predicate Rebooked(g: Gateway, g': Gateway, ip: Ip) {
    CountOf(g'.table, ip) + Leaving(g', ip) - Pending(g', ip) - g'.lost[ip]
    == CountOf(g.table, ip) + Leaving(g, ip) - Pending(g, ip) - g.lost[ip]
  }

  /** Steps that leave the list alone keep the accounts if the limiter and the places of the threads move together. */
  lemma {:induction false} Rebook(g: Gateway, g': Gateway)
    requires Accounts(g) && g'.list == g.list && WellFormed(g'.table)
    requires forall ip: Ip :: Rebooked(g, g', ip)
    requires g'.activeCount + If(g'.acceptor.Linked?) - If(Current(g').Unlinked?)
          == g.activeCount + If(g.acceptor.Linked?) - If(Current(g).Unlinked?)
    ensures Accounts(g')
  {
    forall ip: Ip
      ensures Balanced(g', ip)
    {
      assert Balanced(g, ip) && Rebooked(g, g', ip);
    }
  }

  /** A remover that turns to the limiter finds a positive count there. */
  lemma {:induction false} LeaverIsCounted(g: Gateway, at: nat)
    requires Inv(g) && at < |g.list| && !Current(g).GivenBack?
    ensures CountOf(g.table, g.list[at].conn.ip) > 0
  {
    var ip := g.list[at].conn.ip;
    NumFromMember(g.list, at);
    assert Balanced(g, ip);
  }

  /** The limiter call of a removal: it lowers a positive count, and the node it is for stays linked. */
  ghost predicate GivesBack(g: Gateway, g': Gateway) {
    && Current(g).Looking? && Current(g).at < |g.list|
    && g'.list == g.list && g'.activeCount == g.activeCount && g'.lost == g.lost && g'.owner == g.owner
    && g'.table == Release(g.table, g.list[Current(g).at].conn.ip)
    && Current(g') == GivenBack(Current(g).goal, Current(g).at)
    && (g'.acceptor == g.acceptor || (g.acceptor.Removing? && g'.acceptor.Removing?))
  }

  lemma {:induction false} GiveBackKeepsAccounts(g: Gateway, g': Gateway)
    requires Inv(g) && GivesBack(g, g')
    ensures Accounts(g')
  {
    LeaverIsCounted(g, Current(g).at);
    ReleaseCounts(g.table, g.list[Current(g).at].conn.ip);
    Rebook(g, g');
  }

  lemma {:induction false} GiveBackKeepsPorts(g: Gateway, g': Gateway)
    requires AllKnown(g) && Ports(g) && WellFormed(g.table) && GivesBack(g, g')
    ensures AllKnown(g') && Ports(g')
  {
    ReleaseCounts(g.table, g.list[Current(g).at].conn.ip);
  }

  /** Taking a node out of the list leaves ports distinct and addresses known. */
  lemma {:induction false} UnlinkKeepsPorts(g: Gateway, g': Gateway, at: nat)
    requires AllKnown(g) && Ports(g) && at < |g.list| && g'.list == Without(g.list, at) && g'.table == g.table
    requires g'.acceptor == g.acceptor || (g.acceptor.Removing? && g'.acceptor.Removing?)
    ensures AllKnown(g') && Ports(g')
  {
    assert forall k :: 0 <= k < |g'.list| ==> g'.list[k] == g.list[if k < at then k else k + 1];
  }

  lemma {:induction false} UnlinkKeepsAccounts(g: Gateway, g': Gateway)
    requires Inv(g) && Current(g).GivenBack?
    requires
      && g'.list == Without(g.list, Current(g).at)
      && g'.activeCount == g.activeCount && g'.lost == g.lost && g'.owner == g.owner && g'.table == g.table
      && Current(g') == Unlinked(Current(g).goal, Current(g).at)
      && (g'.acceptor == g.acceptor || (g.acceptor.Removing? && g'.acceptor.Removing?))
    ensures Accounts(g')
  {
    var at := Current(g).at;
    forall q: Ip
      ensures Balanced(g', q)
    {
      NumFromWithout(g.list, at, q);
      assert Balanced(g, q);
    }
  }

  /** The other steps of a removal move a cursor or the counter. */
  lemma {:induction false} QuietRemovalStep(g: Gateway, g': Gateway)
    requires Inv(g) && g'.list == g.list && g'.table == g.table && g'.lost == g.lost
    requires !g.acceptor.Linked? && !g'.acceptor.Linked?
    requires !Current(g).GivenBack? && !Current(g').GivenBack? && !Current(g').Unlinked?
    requires g'.activeCount == g.activeCount - If(Current(g).Unlinked?)
    requires g'.acceptor == g.acceptor || (g.acceptor.Removing? && (g'.acceptor.Removing? || g'.acceptor.Waiting?))
    ensures Accounts(g') && AllKnown(g') && Ports(g')
  {
    Rebook(g, g');
  }

  /** `g'` is `g` after one step of the removal that holds the list mutex, whoever runs it. */
  ghost predicate RemovalMoves(g: Gateway, g': Gateway) {
    var (h, r) := RemovalStep(g, Current(g));
    && g'.list == h.list && g'.table == h.table && g'.activeCount == h.activeCount && g'.lost == g.lost
    && Current(g') == r
    && (if Current(g).Finished? then
          g'.acceptor == g.acceptor || (g.acceptor.Removing? && g'.acceptor.Waiting?)
        else
          g'.owner == g.owner && (g'.acceptor == g.acceptor || (g.acceptor.Removing? && g'.acceptor.Removing?)))
  }

  lemma {:induction false} RemovalKeepsBooks(g: Gateway, g': Gateway)
    requires Inv(g) && !g.acceptor.Linked? && RemovalMoves(g, g')
    ensures Accounts(g') && AllKnown(g') && Ports(g')
  {
    match Current(g)
    case Looking(goal, at) =>
      if at < |g.list| && Matches(goal, g.list[at].conn) {
        GiveBackKeepsAccounts(g, g');
        GiveBackKeepsPorts(g, g');
      } else {
        QuietRemovalStep(g, g');
      }
    case GivenBack(goal, at) =>
      UnlinkKeepsAccounts(g, g');
      UnlinkKeepsPorts(g, g', at);
    case Unlinked(goal, at) =>
      QuietRemovalStep(g, g');
    case Finished =>
      QuietRemovalStep(g, g');
  }

  lemma {:induction false} RemoverMoves(g: Gateway, t: nat)
    requires Exclusion(g) && t < |g.removers| && g.removers[t].Inside?
    ensures Exclusion(Step(g, RemoverStep(t)))
    ensures RemovalMoves(g, Step(g, RemoverStep(t))) && !g.acceptor.Linked?
  {
    assert g.owner == TheRemover(t);
  }

  lemma {:induction false} RemoverKeepsInv(g: Gateway, t: nat)
    requires Inv(g) && t < |g.removers| && g.removers[t].Inside?
    ensures Inv(Step(g, RemoverStep(t)))
  {
    var g' := Step(g, RemoverStep(t));
    RemoverMoves(g, t);
    RemovalKeepsBooks(g, g');
  }

  lemma UndoMoves(g: Gateway)
    requires Exclusion(g) && g.acceptor.Removing?
    ensures Exclusion(Step(g, AcceptorRemovalStep)) && RemovalMoves(g, Step(g, AcceptorRemovalStep))
  {
  }

  lemma {:induction false} UndoKeepsInv(g: Gateway)
    requires Inv(g) && g.acceptor.Removing?
    ensures Inv(Step(g, AcceptorRemovalStep))
  {
    var g' := Step(g, AcceptorRemovalStep);
    UndoMoves(g);
    RemovalKeepsBooks(g, g');
  }

  lemma {:induction false} AdmitKeepsInv(g: Gateway, conn: SensorConnection)
    requires Inv(g) && g.acceptor == Numbered(conn) && Admits(g.table, conn.ip)
    ensures Inv(g.(table := Admit(g.table, conn.ip), acceptor := Admitted(conn)))
  {
    var g' := g.(table := Admit(g.table, conn.ip), acceptor := Admitted(conn));
    AdmitCounts(g.table, conn.ip);
    assert Current(g') == Current(g);
    Rebook(g, g');
  }

  lemma {:induction false} RefuseKeepsInv(g: Gateway, conn: SensorConnection, lost: multiset<Ip>)
    requires Inv(g)
    requires (g.acceptor == Numbered(conn) && lost == g.lost)
          || (g.acceptor == Admitted(conn) && lost == g.lost + multiset{conn.ip})
    ensures Inv(g.(acceptor := Registering(conn.sensorId, conn.port), lost := lost))
  {
    var g' := g.(acceptor := Registering(conn.sensorId, conn.port), lost := lost);
    assert Current(g') == Current(g);
    Rebook(g, g');
  }

  lemma {:induction false} AllocateKeepsInv(g: Gateway, conn: SensorConnection)
    requires Inv(g) && g.acceptor == Admitted(conn)
    ensures Inv(g.(acceptor := Allocated(conn)))
  {
    var g' := g.(acceptor := Allocated(conn));
    assert Current(g') == Current(g);
    Rebook(g, g');
  }

  lemma {:induction false} LinkKeepsInv(g: Gateway)
    requires Inv(g) && g.acceptor.Linking?
    ensures Inv(Step(g, LinkNode))
  {
    LinkKeepsAccounts(g, Step(g, LinkNode));
    LinkKeepsKnown(g, Step(g, LinkNode));
    LinkKeepsPorts(g, Step(g, LinkNode));
  }

  /** The list that linking makes: the new node, and the old ones one place on. */
  lemma {:induction false} LinkedList(g: Gateway, k: nat)
    requires g.acceptor.Linking? && k < |Step(g, LinkNode).list|
    ensures Step(g, LinkNode).list[k].conn == if k == 0 then g.acceptor.conn else g.list[k - 1].conn
  {
  }

  lemma {:induction false} LinkKeepsKnown(g: Gateway, g': Gateway)
    requires AllKnown(g) && g.acceptor.Linking? && g' == Step(g, LinkNode)
    ensures AllKnown(g')
  {
    forall k | 0 <= k < |g'.list|
      ensures Known(g'.table, g'.list[k].conn.ip)
    {
      LinkedList(g, k);
    }
  }

  lemma {:induction false} LinkKeepsPorts(g: Gateway, g': Gateway)
    requires Ports(g) && g.acceptor.Linking? && g' == Step(g, LinkNode)
    ensures Ports(g')
  {
    forall k | 0 <= k < |g'.list|
      ensures g'.list[k].conn.status == Connected
    {
      LinkedList(g, k);
    }
    forall i, j | 0 <= i < j < |g'.list|
      ensures g'.list[i].conn.port != g'.list[j].conn.port
    {
      LinkedList(g, i);
      LinkedList(g, j);
      assert !Reserved(g.acceptor, g.list[j - 1].conn.port);
    }
  }

  /** The new node is what was pending for its address. */
  lemma {:induction false} LinkCounts(g: Gateway, q: Ip)
    requires g.acceptor.Linking? && g.owner.TheAcceptor?
    ensures var g' := Step(g, LinkNode);
      && NumFrom(g'.list, q) + Pending(g', q) == NumFrom(g.list, q) + Pending(g, q)
      && Leaving(g', q) == Leaving(g, q) == 0
  {
    assert Step(g, LinkNode).list[1..] == g.list;
  }

  lemma {:induction false} LinkKeepsAccounts(g: Gateway, g': Gateway)
    requires Inv(g) && g.acceptor.Linking? && g' == Step(g, LinkNode)
    ensures Accounts(g')
  {
    forall q: Ip
      ensures Balanced(g', q)
    {
      LinkCounts(g, q);
      CountBounded(g.table, q);
      assert Balanced(g, q);
    }
  }

  lemma {:induction false} CheckKeepsInv(g: Gateway, fd: int, ip: Ip, port: int)
    requires Inv(g)
    ensures Inv(Step(g, CheckPort(fd, ip, port)))
  {
    Rebook(g, Step(g, CheckPort(fd, ip, port)));
  }

  lemma {:induction false} NumberKeepsInv(g: Gateway, now: int)
    requires Inv(g)
    ensures Inv(Step(g, ReadId(now)))
  {
    Rebook(g, Step(g, ReadId(now)));
  }

  lemma {:induction false} LockKeepsInv(g: Gateway)
    requires Inv(g)
    ensures Inv(Step(g, LockList))
  {
    Rebook(g, Step(g, LockList));
  }

  lemma {:induction false} CountKeepsInv(g: Gateway)
    requires Inv(g)
    ensures Inv(Step(g, RaiseCount))
  {
    Rebook(g, Step(g, RaiseCount));
  }

  lemma {:induction false} UnlockKeepsInv(g: Gateway)
    requires Inv(g)
    ensures Inv(Step(g, UnlockList))
  {
    var g' := Step(g, UnlockList);
    assert Current(g') == if g' == g then Current(g) else Finished;
    Rebook(g, g');
  }

  /** After the registration the acceptor holds no lock, waits for no count and means to use no port. */
  lemma {:induction false} RegisterKeepsPlaces(g: Gateway, registered: bool)
    requires Exclusion(g) && AllKnown(g) && Ports(g)
    ensures var g' := Step(g, Register(registered));
      Current(g') == Current(g) && Exclusion(g') && AllKnown(g') && Ports(g')
  {
  }

  lemma {:induction false} RegisterKeepsInv(g: Gateway, registered: bool)
    requires Inv(g)
    ensures Inv(Step(g, Register(registered)))
  {
    RegisterKeepsPlaces(g, registered);
    Rebook(g, Step(g, Register(registered)));
  }

  lemma {:induction false} StartUndoKeepsInv(g: Gateway)
    requires Inv(g)
    ensures Inv(Step(g, StartUndo))
  {
    var g' := Step(g, StartUndo);
    assert Current(g') == if g' == g then Current(g) else Looking(ById(g.acceptor.id), 0);
    Rebook(g, g');
  }

  lemma {:induction false} StartRemovalKeepsInv(g: Gateway, t: nat, goal: Goal)
    requires Inv(g)
    ensures Inv(Step(g, StartRemoval(t, goal)))
  {
    var g' := Step(g, StartRemoval(t, goal));
    assert Current(g') == if g' == g then Current(g) else Looking(goal, 0);
    Rebook(g, g');
  }

  lemma {:induction false} StepKeepsInv(g: Gateway, a: Action)
    requires Inv(g)
    ensures Inv(Step(g, a))
  {
    match a
    case AcceptorRemovalStep => if g.acceptor.Removing? { UndoKeepsInv(g); }
    case RemoverStep(t) => if t < |g.removers| && g.removers[t].Inside? { RemoverKeepsInv(g, t); }
    case AskLimiter =>
      if g.acceptor.Numbered? {
        if Admits(g.table, g.acceptor.conn.ip) {
          AdmitKeepsInv(g, g.acceptor.conn);
        } else {
          RefuseKeepsInv(g, g.acceptor.conn, g.lost);
        }
      }
    case Allocate(gotMemory) =>
      if g.acceptor.Admitted? {
        var conn := g.acceptor.conn;
        if gotMemory {
          AllocateKeepsInv(g, conn);
        } else {
          RefuseKeepsInv(g, conn, g.lost + multiset{conn.ip});
        }
      }
    case LinkNode => if g.acceptor.Linking? { LinkKeepsInv(g); }
    case Refresh(id, data, now) => RefreshKeepsInv(g, id, data, now);
    case StartUndo => StartUndoKeepsInv(g);
    case CheckPort(fd, ip, port) => CheckKeepsInv(g, fd, ip, port);
    case ReadId(now) => NumberKeepsInv(g, now);
    case LockList => LockKeepsInv(g);
    case RaiseCount => CountKeepsInv(g);
    case StartRemoval(t, goal) => StartRemovalKeepsInv(g, t, goal);
    case UnlockList => UnlockKeepsInv(g);
    case Register(registered) => RegisterKeepsInv(g, registered);
  }

  lemma {:induction false} RunKeepsInv(g: Gateway, actions: seq<Action>)
    requires Inv(g)
    ensures Inv(Run(g, actions))
    decreases |actions|
  {
    if actions != [] {
      StepKeepsInv(g, actions[0]);
      RunKeepsInv(Step(g, actions[0]), actions[1..]);
    }
  }

  // ---- Theorems about every run ----

  /** Every run, from an empty gateway with any number of removers, keeps all invariants. */
  lemma {:induction false} Reachable(n: nat, actions: seq<Action>)
    ensures Inv(Run(Init(n), actions))
  {
    RunKeepsInv(Init(n), actions);
  }

  /** Connected sensors have pairwise distinct ports, whatever the interleaving. */
  lemma {:induction false} PortsStayDistinct(n: nat, actions: seq<Action>, i: nat, j: nat)
    requires i < j < |Run(Init(n), actions).list|
    ensures Run(Init(n), actions).list[i].conn.port != Run(Init(n), actions).list[j].conn.port
  {
    Reachable(n, actions);
  }

  /** The port check lets a connection on exactly when no linked sensor, in any place of the list, has its port. */
  lemma {:induction false} PortCheckIff(n: nat, actions: seq<Action>, fd: int, ip: Ip, port: int)
    requires Run(Init(n), actions).owner.Nobody? && Run(Init(n), actions).acceptor.Waiting?
    ensures var g := Run(Init(n), actions); var g' := Step(g, CheckPort(fd, ip, port));
      && (g'.acceptor == Checked(fd, ip, port) <==> forall k :: 0 <= k < |g.list| ==> g.list[k].conn.port != port)
      && ((exists k :: 0 <= k < |g.list| && g.list[k].conn.port == port) ==> g' == g)
      && g' == g.(acceptor := g'.acceptor)
  {
    Reachable(n, actions);
    var g := Run(Init(n), actions);
    if k :| 0 <= k < |g.list| && g.list[k].conn.port == port {
      assert g.list[k].conn.status == Connected;
    }
  }

  /**
   The limiter's count of an address is its linked nodes, plus an admission
   not yet linked, plus admissions whose allocation failed, minus a node
   given back but not yet unlinked.  At rest, with no failed allocation, the
   two agree.
   */
  lemma {:induction false} LimiterMatchesList(n: nat, actions: seq<Action>, ip: Ip)
    ensures var g := Run(Init(n), actions);
      && CountOf(g.table, ip) == NumFrom(g.list, ip) + Pending(g, ip) + g.lost[ip] - Leaving(g, ip)
      && (g.owner.Nobody? && g.acceptor.Waiting? ==> CountOf(g.table, ip) == NumFrom(g.list, ip) + g.lost[ip])
  {
    Reachable(n, actions);
    assert Balanced(Run(Init(n), actions), ip);
  }

  /** An admission whose allocation failed is never given back. */
  lemma {:induction false} LostNeverShrinks(g: Gateway, actions: seq<Action>, ip: Ip)
    ensures g.lost[ip] <= Run(g, actions).lost[ip]
    decreases |actions|
  {
    if actions != [] {
      LostNeverShrinks(Step(g, actions[0]), actions[1..], ip);
    }
  }

  /**
   At rest, an address is refused exactly when its linked nodes and its failed
   allocations together are five, or it is unknown and the table is full.
   */
  lemma {:induction false} RefusedAtRestIff(n: nat, actions: seq<Action>, ip: Ip)
    requires Run(Init(n), actions).owner.Nobody? && Run(Init(n), actions).acceptor.Waiting?
    ensures var g := Run(Init(n), actions);
      !Admits(g.table, ip)
      <==> NumFrom(g.list, ip) + g.lost[ip] == MAX_CONNECTIONS_PER_IP || (!Known(g.table, ip) && |g.table| == MAX_UNIQUE_IPS)
  {
    Reachable(n, actions);
    var g := Run(Init(n), actions);
    assert Balanced(g, ip);
    CountBounded(g.table, ip);
  }

  /** Five failed allocations shut an address out for ever, in every state of every run that follows. */
  lemma {:induction false} LostFiveIsRefused(n: nat, actions: seq<Action>, more: seq<Action>, ip: Ip)
    requires Run(Init(n), actions).lost[ip] >= MAX_CONNECTIONS_PER_IP
    ensures !Admits(Run(Run(Init(n), actions), more).table, ip)
  {
    Reachable(n, actions);
    RunKeepsInv(Run(Init(n), actions), more);
    LostNeverShrinks(Run(Init(n), actions), more, ip);
    var g := Run(Run(Init(n), actions), more);
    assert Balanced(g, ip);
    CountBounded(g.table, ip);
    if Leaving(g, ip) == 1 {
      NumFromMember(g.list, Current(g).at);
    }
  }

  function Elsewhere(list: seq<Entry>, ip: Ip): seq<Entry> {
    if list == [] then []
    else if list[0].conn.ip == ip then Elsewhere(list[1..], ip)
    else [list[0]] + Elsewhere(list[1..], ip)
  }

  lemma {:induction false} ElsewhereCounts(list: seq<Entry>, ip: Ip, q: Ip)
    ensures |list| == |Elsewhere(list, ip)| + NumFrom(list, ip)
    ensures NumFrom(Elsewhere(list, ip), q) == if q == ip then 0 else NumFrom(list, q)
  {
    if list != [] {
      ElsewhereCounts(list[1..], ip, q);
      var rest := Elsewhere(list[1..], ip);
      assert ([list[0]] + rest)[1..] == rest;
    }
  }

  predicate AllFrom(list: seq<Entry>, ips: seq<Ip>) {
    list == [] || (list[0].conn.ip in ips && AllFrom(list[1..], ips))
  }

  lemma {:induction false} AllFromIndices(list: seq<Entry>, ips: seq<Ip>)
    requires forall k :: 0 <= k < |list| ==> list[k].conn.ip in ips
    ensures AllFrom(list, ips)
  {
    if list != [] {
      AllFromIndices(list[1..], ips);
    }
  }

  lemma {:induction false} ElsewhereAllFrom(list: seq<Entry>, ips: seq<Ip>)
    requires ips != [] && AllFrom(list, ips)
    ensures AllFrom(Elsewhere(list, ips[0]), ips[1..])
  {
    if list != [] {
      ElsewhereAllFrom(list[1..], ips);
      var rest := Elsewhere(list[1..], ips[0]);
      assert ([list[0]] + rest)[1..] == rest;
    }
  }

  lemma {:induction false} ListBound(ips: seq<Ip>, list: seq<Entry>, cap: nat)
    requires AllFrom(list, ips)
    requires forall ip: Ip :: NumFrom(list, ip) <= cap
    ensures |list| <= cap * |ips|
    decreases |ips|
  {
    if ips != [] {
      var rest := Elsewhere(list, ips[0]);
      ElsewhereCounts(list, ips[0], ips[0]);
      forall q: Ip
        ensures NumFrom(rest, q) <= cap
      {
        ElsewhereCounts(list, ips[0], q);
      }
      ElsewhereAllFrom(list, ips);
      ListBound(ips[1..], rest, cap);
      assert |list| <= cap * |ips[1..]| + cap == cap * (|ips[1..]| + 1);
    }
  }

  /**
   No address ever has more than five linked sensors, the limiter never holds
   more than 256 distinct addresses with counts in [0, 5], and whenever the
   list mutex is free `active_count` is the length of the list, at most 5 * 256.
   */
  lemma {:induction false} ConnectionBounds(n: nat, actions: seq<Action>)
    ensures var g := Run(Init(n), actions);
      && WellFormed(g.table)
      && (forall ip: Ip :: NumFrom(g.list, ip) <= MAX_CONNECTIONS_PER_IP)
      && |g.list| <= MAX_CONNECTIONS_PER_IP * MAX_UNIQUE_IPS
      && (g.owner.Nobody? ==> g.activeCount == |g.list|)
  {
    Reachable(n, actions);
    var g := Run(Init(n), actions);
    var ips := seq(|g.table|, i requires 0 <= i < |g.table| => g.table[i].ip);
    forall k | 0 <= k < |g.list|
      ensures g.list[k].conn.ip in ips
    {
      var i := IndexOf(g.table, g.list[k].conn.ip);
      assert ips[i] == g.list[k].conn.ip;
    }
    AllFromIndices(g.list, ips);
    forall ip: Ip
      ensures NumFrom(g.list, ip) <= MAX_CONNECTIONS_PER_IP
    {
      assert Balanced(g, ip);
    }
    ListBound(ips, g.list, MAX_CONNECTIONS_PER_IP);
  }
}
