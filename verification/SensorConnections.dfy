/**
 The gateway's list of sensor connections: specification functions on
 sequences, and the linked list that is walked and unlinked in place.
 */
module SensorConnections {
  import opened IpLimiter

  const CONNECTION_TIMEOUT_SECONDS: int := 30

  datatype Status = Connected | Disconnected | Timeout

  datatype SensorConnection = SensorConnection(
    socketFd: int, ip: Ip, port: int, sensorId: int,
    isActive: bool, connectedTime: int, lastActiveTime: int, status: Status)

  datatype SensorData = SensorData(timestamp: int, sensorId: int, temperature: real, isValid: bool)

  /** What one list node carries. */
  datatype Entry = Entry(conn: SensorConnection, latest: SensorData)

  // ---- Specification functions ----

  /** The first entry with this id, or the length of the list. */
  function FirstWithId(list: seq<Entry>, id: int): (k: nat)
    ensures k <= |list|
    ensures k < |list| ==> list[k].conn.sensorId == id
    ensures forall j :: 0 <= j < k ==> list[j].conn.sensorId != id
  {
    if list == [] then 0 else if list[0].conn.sensorId == id then 0 else 1 + FirstWithId(list[1..], id)
  }

  function Without<T>(s: seq<T>, k: nat): seq<T>
    requires k < |s|
  {
    s[..k] + s[k + 1..]
  }

  lemma WithoutAt<T>(s: seq<T>, k: nat)
    requires k < |s|
    ensures |Without(s, k)| == |s| - 1
    ensures forall i :: 0 <= i < k ==> Without(s, k)[i] == s[i]
    ensures forall i :: k <= i < |s| - 1 ==> Without(s, k)[i] == s[i + 1]
  {
  }

  function RemoveById(list: seq<Entry>, id: int): seq<Entry> {
    var k := FirstWithId(list, id);
    if k < |list| then Without(list, k) else list
  }

  predicate TimedOut(c: SensorConnection, now: int) {
    c.isActive && now - c.lastActiveTime > CONNECTION_TIMEOUT_SECONDS
  }

  function Survivors(list: seq<Entry>, now: int): seq<Entry> {
    if list == [] then []
    else if TimedOut(list[0].conn, now) then Survivors(list[1..], now)
    else [list[0]] + Survivors(list[1..], now)
  }

  function Expired(list: seq<Entry>, now: int): seq<Entry> {
    if list == [] then []
    else if TimedOut(list[0].conn, now) then [list[0]] + Expired(list[1..], now)
    else Expired(list[1..], now)
  }

  /** The number of entries from one address. */
  function NumFrom(list: seq<Entry>, ip: Ip): nat {
    if list == [] then 0 else If(list[0].conn.ip == ip) + NumFrom(list[1..], ip)
  }

  /** The limiter table after the connections of `list` are given back, head first. */
  function ReleaseAll(es: seq<IpEntry>, list: seq<Entry>): seq<IpEntry>
    decreases |list|
  {
    if list == [] then es else ReleaseAll(Release(es, list[0].conn.ip), list[1..])
  }

  predicate PortConnected(list: seq<Entry>, port: int) {
    exists k :: 0 <= k < |list| && list[k].conn.port == port && list[k].conn.status == Connected
  }

  /** The list after a new reading reached the first sensor with this id. */
  function Refreshed(list: seq<Entry>, id: int, data: SensorData, now: int): seq<Entry> {
    var k := FirstWithId(list, id);
    if k < |list| then list[k := Entry(list[k].conn.(lastActiveTime := now), data)] else list
  }

  // ---- Properties of the specification ----

  lemma {:induction false} NumFromConcat(a: seq<Entry>, b: seq<Entry>, ip: Ip)
    ensures NumFrom(a + b, ip) == NumFrom(a, ip) + NumFrom(b, ip)
  {
    if a == [] {
      assert a + b == b;
    } else {
      assert (a + b)[1..] == a[1..] + b;
      NumFromConcat(a[1..], b, ip);
    }
  }

  lemma {:induction false} NumFromWithout(list: seq<Entry>, k: nat, ip: Ip)
    requires k < |list|
    ensures NumFrom(Without(list, k), ip) == NumFrom(list, ip) - If(list[k].conn.ip == ip)
  {
    assert list == list[..k] + ([list[k]] + list[k + 1..]);
    NumFromConcat(list[..k], [list[k]] + list[k + 1..], ip);
    NumFromConcat([list[k]], list[k + 1..], ip);
    NumFromConcat(list[..k], list[k + 1..], ip);
  }

  lemma {:induction false} NumFromMember(list: seq<Entry>, k: nat)
    requires k < |list|
    ensures NumFrom(list, list[k].conn.ip) >= 1
  {
    if k > 0 {
      NumFromMember(list[1..], k - 1);
    }
  }

  lemma {:induction false} SurvivorsConcat(a: seq<Entry>, b: seq<Entry>, now: int)
    ensures Survivors(a + b, now) == Survivors(a, now) + Survivors(b, now)
  {
    if a == [] {
      assert a + b == b;
    } else {
      assert (a + b)[1..] == a[1..] + b;
      SurvivorsConcat(a[1..], b, now);
    }
  }

  lemma {:induction false} ExpiredConcat(a: seq<Entry>, b: seq<Entry>, now: int)
    ensures Expired(a + b, now) == Expired(a, now) + Expired(b, now)
  {
    if a == [] {
      assert a + b == b;
    } else {
      assert (a + b)[1..] == a[1..] + b;
      ExpiredConcat(a[1..], b, now);
    }
  }

  lemma {:induction false} ReleaseAllConcat(es: seq<IpEntry>, a: seq<Entry>, b: seq<Entry>)
    ensures ReleaseAll(es, a + b) == ReleaseAll(ReleaseAll(es, a), b)
    decreases |a|
  {
    if a == [] {
      assert a + b == b;
    } else {
      assert (a + b)[1..] == a[1..] + b;
      ReleaseAllConcat(Release(es, a[0].conn.ip), a[1..], b);
    }
  }

  /**
   The sweep is an order-preserving split: entry `k` of the list reappears
   among the survivors if it is alive and among the expired if not, at the
   place given by the number of its like before it; nothing else appears.
   */
  lemma {:induction false} SweepSplits(list: seq<Entry>, now: int, k: nat)
    requires k < |list|
    ensures |Survivors(list, now)| + |Expired(list, now)| == |list|
    ensures !TimedOut(list[k].conn, now) ==>
      Survivors(list[..k], now) + [list[k]] <= Survivors(list, now)
    ensures TimedOut(list[k].conn, now) ==>
      Expired(list[..k], now) + [list[k]] <= Expired(list, now)
  {
    assert list == list[..k] + ([list[k]] + list[k + 1..]);
    SurvivorsConcat(list[..k], [list[k]] + list[k + 1..], now);
    ExpiredConcat(list[..k], [list[k]] + list[k + 1..], now);
    SplitLength(list, now);
  }

  lemma {:induction false} SurvivorsAlive(list: seq<Entry>, now: int)
    ensures forall e :: e in Survivors(list, now) ==> e in list && !TimedOut(e.conn, now)
    ensures forall e :: e in Expired(list, now) ==> e in list && TimedOut(e.conn, now)
  {
    if list != [] {
      SurvivorsAlive(list[1..], now);
    }
  }

  lemma SplitLength(list: seq<Entry>, now: int)
    ensures |Survivors(list, now)| + |Expired(list, now)| == |list|
  {
  }

  /** What is still linked, and how often each address was given back, after `done` visits of a sweep. */
  ghost function StillLinked(was: seq<Entry>, now: int, done: nat): seq<Entry>
    requires done <= |was|
  {
    Survivors(was[..done], now) + was[done..]
  }

  ghost function Given(was: seq<Entry>, now: int, done: nat, table: seq<IpEntry>): seq<IpEntry>
    requires done <= |was|
  {
    ReleaseAll(table, Expired(was[..done], now))
  }

  lemma {:induction false} SweepBounds(was: seq<Entry>, now: int, table: seq<IpEntry>)
    ensures StillLinked(was, now, 0) == was && Given(was, now, 0, table) == table
    ensures StillLinked(was, now, |was|) == Survivors(was, now)
    ensures Given(was, now, |was|, table) == ReleaseAll(table, Expired(was, now))
  {
    assert was[..|was|] == was;
  }

  /** One visit of the sweep, seen on sequences. */
  lemma {:induction false} SweepVisit(was: seq<Entry>, now: int, done: nat, table: seq<IpEntry>)
    requires done < |was|
    ensures |Survivors(was[..done], now)| < |StillLinked(was, now, done)|
    ensures StillLinked(was, now, done)[|Survivors(was[..done], now)|] == was[done]
    ensures TimedOut(was[done].conn, now) ==>
      && StillLinked(was, now, done + 1) == Without(StillLinked(was, now, done), |Survivors(was[..done], now)|)
      && |Survivors(was[..done + 1], now)| == |Survivors(was[..done], now)|
      && Given(was, now, done + 1, table) == Release(Given(was, now, done, table), was[done].conn.ip)
    ensures !TimedOut(was[done].conn, now) ==>
      && StillLinked(was, now, done + 1) == StillLinked(was, now, done)
      && |Survivors(was[..done + 1], now)| == |Survivors(was[..done], now)| + 1
      && Given(was, now, done + 1, table) == Given(was, now, done, table)
  {
    var e := was[done];
    var live, gone := Survivors([e], now), Expired([e], now);
    assert was[..done + 1] == was[..done] + [e];
    SurvivorsConcat(was[..done], [e], now);
    ExpiredConcat(was[..done], [e], now);
    ReleaseAllConcat(table, Expired(was[..done], now), gone);
    ReleaseSingle(Given(was, now, done, table), e);
    if TimedOut(e.conn, now) {
      assert live == [] && gone == [e];
    } else {
      assert live == [e] && gone == [];
      assert StillLinked(was, now, done + 1) == Survivors(was[..done], now) + ([e] + was[done + 1..]);
    }
  }

  lemma {:induction false} ReleaseSingle(es: seq<IpEntry>, e: Entry)
    ensures ReleaseAll(es, [e]) == Release(es, e.conn.ip)
  {
    var rest := [e][1..];
    assert rest == [];
    assert ReleaseAll(es, [e]) == ReleaseAll(Release(es, e.conn.ip), rest);
  }

  lemma {:induction false} NumFromSplit(list: seq<Entry>, now: int, ip: Ip)
    ensures NumFrom(list, ip) == NumFrom(Survivors(list, now), ip) + NumFrom(Expired(list, now), ip)
  {
    if list != [] {
      NumFromSplit(list[1..], now, ip);
      NumFromConcat(if TimedOut(list[0].conn, now) then [] else [list[0]], Survivors(list[1..], now), ip);
      NumFromConcat(if TimedOut(list[0].conn, now) then [list[0]] else [], Expired(list[1..], now), ip);
    }
  }

  /** Giving back a list of connections lowers each address by exactly its share of the list. */
  lemma {:induction false} ReleaseAllCounts(es: seq<IpEntry>, list: seq<Entry>)
    requires WellFormed(es)
    requires forall ip: Ip :: CountOf(es, ip) >= NumFrom(list, ip)
    ensures WellFormed(ReleaseAll(es, list))
    ensures forall ip: Ip :: CountOf(ReleaseAll(es, list), ip) == CountOf(es, ip) - NumFrom(list, ip)
    decreases |list|
  {
    if list != [] {
      var first := list[0].conn.ip;
      var es' := Release(es, first);
      ReleaseCounts(es, first);
      assert CountOf(es, first) >= NumFrom(list, first) >= 1;
      forall ip: Ip
        ensures CountOf(es', ip) >= NumFrom(list[1..], ip)
      {
        assert CountOf(es, ip) >= NumFrom(list, ip);
      }
      ReleaseAllCounts(es', list[1..]);
    }
  }

  /** A connection is swept exactly if it is active and has been idle for more than 30 seconds. */
  lemma {:induction false} SweepRemovesIff(list: seq<Entry>, now: int, e: Entry)
    ensures e in Expired(list, now) <==> e in list && e.conn.isActive && now - e.conn.lastActiveTime > 30
    ensures e in Survivors(list, now) <==> e in list && !(e.conn.isActive && now - e.conn.lastActiveTime > 30)
  {
    if list != [] {
      SweepRemovesIff(list[1..], now, e);
    }
  }

  /** A removal by id takes out the first sensor that has it, and only that one. */
  lemma {:induction false} RemoveTakesFirst(list: seq<Entry>, id: int, k: nat)
    requires k < |list| && list[k].conn.sensorId == id && forall j :: 0 <= j < k ==> list[j].conn.sensorId != id
    ensures RemoveById(list, id) == list[..k] + list[k + 1..]
  {
    assert FirstWithId(list, id) == k;
  }

  lemma {:induction false} RemoveMisses(list: seq<Entry>, id: int)
    requires forall j :: 0 <= j < |list| ==> list[j].conn.sensorId != id
    ensures RemoveById(list, id) == list
  {
  }

  /** A reading reaches the first sensor with the id and no other; an unknown id reaches nobody. */
  lemma {:induction false} ReadingReachesFirst(list: seq<Entry>, id: int, data: SensorData, now: int, k: nat)
    requires k < |list|
    ensures |Refreshed(list, id, data, now)| == |list|
    ensures list[k].conn.sensorId == id && (forall j :: 0 <= j < k ==> list[j].conn.sensorId != id) ==>
      Refreshed(list, id, data, now)[k] == Entry(list[k].conn.(lastActiveTime := now), data)
    ensures list[k].conn.sensorId != id || (exists j :: 0 <= j < k && list[j].conn.sensorId == id) ==>
      Refreshed(list, id, data, now)[k] == list[k]
  {
    var f := FirstWithId(list, id);
    if j :| 0 <= j < k && list[j].conn.sensorId == id {
      assert f <= j;
    }
  }

  /** The limiter and the list agree when every address is counted once per node. */
  ghost predicate InStep(es: seq<IpEntry>, list: seq<Entry>) {
    WellFormed(es) && forall ip: Ip :: CountOf(es, ip) == NumFrom(list, ip)
  }

  /** A sweep lowers the list and each address by exactly the expired connections, so agreement is kept. */
  lemma {:induction false} SweepKeepsStep(es: seq<IpEntry>, list: seq<Entry>, now: int)
    requires InStep(es, list)
    ensures InStep(ReleaseAll(es, Expired(list, now)), Survivors(list, now))
    ensures forall ip: Ip ::
      CountOf(ReleaseAll(es, Expired(list, now)), ip) == CountOf(es, ip) - NumFrom(Expired(list, now), ip)
  {
    forall ip: Ip
      ensures NumFrom(list, ip) == NumFrom(Survivors(list, now), ip) + NumFrom(Expired(list, now), ip)
    {
      NumFromSplit(list, now, ip);
    }
    forall ip: Ip
      ensures CountOf(es, ip) >= NumFrom(Expired(list, now), ip)
    {
      assert CountOf(es, ip) == NumFrom(list, ip);
    }
    ReleaseAllCounts(es, Expired(list, now));
    forall ip: Ip
      ensures CountOf(ReleaseAll(es, Expired(list, now)), ip) == NumFrom(Survivors(list, now), ip)
    {
      assert CountOf(es, ip) == NumFrom(list, ip);
    }
  }

  lemma {:induction false} SurvivorsAround(a: seq<Entry>, e: Entry, b: seq<Entry>, now: int)
    ensures Survivors(a + [e] + b, now)
         == Survivors(a, now) + (if TimedOut(e.conn, now) then [] else [e]) + Survivors(b, now)
  {
    SurvivorsConcat(a + [e], b, now);
    SurvivorsConcat(a, [e], now);
    assert [e][1..] == [];
    assert Survivors([e], now) == if TimedOut(e.conn, now) then [] else [e];
  }

  /**
   A reading protects its sensor from the sweep for 30 seconds and no longer:
   the refreshed entry survives exactly until then, and what happens to the
   others is not affected.
   */
  lemma {:induction false} FreshReadingSurvives(list: seq<Entry>, id: int, data: SensorData, now: int, later: int)
    returns (e: Entry)
    requires var k := FirstWithId(list, id); k < |list| && list[k].conn.isActive
    ensures e == Entry(list[FirstWithId(list, id)].conn.(lastActiveTime := now), data)
    ensures var k, kept := FirstWithId(list, id), if later - now <= CONNECTION_TIMEOUT_SECONDS then [e] else [];
      Survivors(Refreshed(list, id, data, now), later)
      == Survivors(list[..k], later) + kept + Survivors(list[k + 1..], later)
  {
    var k := FirstWithId(list, id);
    e := Entry(list[k].conn.(lastActiveTime := now), data);
    assert list[k := e] == list[..k] + [e] + list[k + 1..];
    SurvivorsAround(list[..k], e, list[k + 1..], later);
  }

  // ---- The list itself ----

  class ConnectionNode {
    var connection: SensorConnection
    var latestData: SensorData
    var next: ConnectionNode?

    constructor (connection: SensorConnection, data: SensorData)
      ensures this.connection == connection && latestData == data && next == null
    {
      this.connection := connection;
      latestData := data;
      next := null;
    }
  }

  class ConnectionManager {
    var head: ConnectionNode?
    var activeCount: int
    const limiter: IpLimiterManager
    ghost var nodes: seq<ConnectionNode>  // the chain, head first
    ghost var Repr: set<ConnectionNode>   // the nodes it is made of
    ghost var list: seq<Entry>            // what the chain carries

    /** `nodes` is the chain from `head`, without repetition, and `list` is what it carries. */
    ghost predicate Chained()
      reads this`head, this`nodes, this`list, this`Repr, Repr
    {
      && (forall i :: 0 <= i < |nodes| ==> nodes[i] in Repr)
      && head == (if nodes == [] then null else nodes[0])
      && (forall i {:trigger nodes[i].next} :: 0 <= i < |nodes| ==> nodes[i].next == if i + 1 < |nodes| then nodes[i + 1] else null)
      && (forall i, j :: 0 <= i < j < |nodes| ==> nodes[i] != nodes[j])
      && |list| == |nodes|
      && (forall i :: 0 <= i < |nodes| ==> list[i] == Entry(nodes[i].connection, nodes[i].latestData))
    }

    ghost predicate Valid()
      reads this, Repr, limiter, limiter.entries
    {
      Chained() && activeCount == |list| && limiter.Valid()
    }

    constructor ()
      ensures Valid() && list == [] && limiter.Table() == [] && fresh(limiter) && fresh(limiter.entries)
    {
      head := null;
      activeCount := 0;
      limiter := new IpLimiterManager();
      nodes := [];
      list := [];
      Repr := {};
    }

    /** The tail shared by `add_connection`: push the new node at the head. */
    method Push(node: ConnectionNode)
      requires Chained() && node !in Repr
      modifies this`head, this`activeCount, this`nodes, this`list, this`Repr, node`next
      ensures Chained() && Repr == old(Repr) + {node}
      ensures list == [Entry(node.connection, node.latestData)] + old(list)
      ensures activeCount == old(activeCount) + 1
    {
      node.next := head;
      head := node;
      activeCount := activeCount + 1;
      nodes := [node] + nodes;
      Repr := Repr + {node};
      list := [Entry(node.connection, node.latestData)] + list;
      forall i | 0 <= i < |nodes|
        ensures nodes[i].next == if i + 1 < |nodes| then nodes[i + 1] else null
      {
        if i > 0 {
          assert nodes[i] == old(nodes)[i - 1];
          assert old(nodes[i - 1].next) == nodes[i].next;
        }
      }
    }

    /** `gotMemory` is the outcome of the node allocation. */
    method AddConnection(connection: SensorConnection, data: SensorData, gotMemory: bool) returns (ok: bool)
      requires Valid()
      modifies this`head, this`activeCount, this`nodes, this`list, this`Repr, limiter`size, limiter.entries
      ensures Valid() && fresh(Repr - old(Repr))
      ensures ok == (old(Admits(limiter.Table(), connection.ip)) && gotMemory)
      ensures limiter.Table() == if old(Admits(limiter.Table(), connection.ip))
                                 then Admit(old(limiter.Table()), connection.ip) else old(limiter.Table())
      ensures list == if ok then [Entry(connection, data)] + old(list) else old(list)
    {
      var allowed := limiter.AllowConnection(connection.ip);
      if !allowed {
        return false;
      }
      if !gotMemory {
        return false;
      }
      var node := new ConnectionNode(connection, data);
      Push(node);
      return true;
    }

    /** Take `current` out of the chain; `prev` is the node before it. */
    method Unlink(prev: ConnectionNode?, current: ConnectionNode, ghost k: nat)
      requires Chained() && k < |nodes| && nodes[k] == current
      requires prev == if k == 0 then null else nodes[k - 1]
      modifies this`head, this`activeCount, this`nodes, this`list, Repr
      ensures Chained()
      ensures nodes == Without(old(nodes), k) && list == Without(old(list), k)
      ensures activeCount == old(activeCount) - 1
    {
      assert current.next == if k + 1 < |nodes| then nodes[k + 1] else null;
      if prev != null {
        prev.next := current.next;
      } else {
        head := current.next;
      }
      activeCount := activeCount - 1;
      WithoutAt(nodes, k);
      WithoutAt(list, k);
      nodes := Without(nodes, k);
      list := Without(list, k);
    }

    method RemoveConnection(sensorId: int)
      requires Valid()
      modifies this`head, this`activeCount, this`nodes, this`list, Repr, limiter.entries
      ensures Valid() && list == RemoveById(old(list), sensorId)
      ensures limiter.Table() ==
              var k := FirstWithId(old(list), sensorId);
              if k < |old(list)| then Release(old(limiter.Table()), old(list)[k].conn.ip) else old(limiter.Table())
    {
      var current, prev := head, null;
      ghost var k := 0;
      while current != null
        invariant Valid() && list == old(list) && nodes == old(nodes) && limiter.Table() == old(limiter.Table())
        invariant k <= |nodes|
        invariant current == if k < |nodes| then nodes[k] else null
        invariant prev == if k == 0 then null else nodes[k - 1]
        invariant forall j :: 0 <= j < k ==> list[j].conn.sensorId != sensorId
        decreases |nodes| - k
      {
        if current.connection.sensorId == sensorId {
          assert FirstWithId(list, sensorId) == k;
          limiter.RemoveConnection(current.connection.ip);
          Unlink(prev, current, k);
          return;
        }
        prev := current;
        current := current.next;
        k := k + 1;
      }
    }

    method FindConnection(sensorId: int) returns (node: ConnectionNode?)
      requires Valid()
      ensures node == var k := FirstWithId(list, sensorId); if k < |nodes| then nodes[k] else null
    {
      node := head;
      ghost var k := 0;
      while node != null
        invariant k <= |nodes|
        invariant node == if k < |nodes| then nodes[k] else null
        invariant forall j :: 0 <= j < k ==> list[j].conn.sensorId != sensorId
        decreases |nodes| - k
      {
        if node.connection.sensorId == sensorId {
          return;
        }
        node := node.next;
        k := k + 1;
      }
    }

    method UpdateData(sensorId: int, data: SensorData, now: int)
      requires Valid()
      modifies this`list, Repr
      ensures Valid() && list == Refreshed(old(list), sensorId, data, now)
      ensures nodes == old(nodes) && Repr == old(Repr) && limiter.Table() == old(limiter.Table())
    {
      var node := FindConnection(sensorId);
      if node != null {
        ghost var k := FirstWithId(list, sensorId);
        node.latestData := data;
        node.connection := node.connection.(lastActiveTime := now);
        list := list[k := Entry(list[k].conn.(lastActiveTime := now), data)];
      }
    }

    method IsPortAlreadyConnected(port: int) returns (found: bool)
      requires Valid()
      ensures found <==> exists k :: 0 <= k < |list| && list[k].conn.port == port && list[k].conn.status == Connected
    {
      var current := head;
      ghost var k := 0;
      while current != null
        invariant k <= |nodes|
        invariant current == if k < |nodes| then nodes[k] else null
        invariant forall j :: 0 <= j < k ==> !(list[j].conn.port == port && list[j].conn.status == Connected)
        decreases |nodes| - k
      {
        if current.connection.port == port && current.connection.status == Connected {
          assert list[k].conn.port == port;
          return true;
        }
        current := current.next;
        k := k + 1;
      }
      return false;
    }

    /** One visit of the sweep: unlink `current` if it has timed out, else step over it. */
    method Visit(prev: ConnectionNode?, current: ConnectionNode, now: int, ghost k: nat)
      returns (prev': ConnectionNode?, current': ConnectionNode?)
      requires Valid() && k < |nodes| && nodes[k] == current
      requires prev == if k == 0 then null else nodes[k - 1]
      modifies this`head, this`activeCount, this`nodes, this`list, Repr, limiter.entries
      ensures Valid()
      ensures
        if TimedOut(old(list)[k].conn, now) then
          && nodes == Without(old(nodes), k) && list == Without(old(list), k) && prev' == prev
          && limiter.Table() == Release(old(limiter.Table()), old(list)[k].conn.ip)
        else
          && nodes == old(nodes) && list == old(list) && prev' == current
          && limiter.Table() == old(limiter.Table())
      ensures current' == if k + 1 < |old(nodes)| then old(nodes)[k + 1] else null
    {
      var next := current.next;
      prev' := prev;
      if TimedOut(current.connection, now) {
        limiter.RemoveConnection(current.connection.ip);
        Unlink(prev, current, k);
      } else {
        prev' := current;
      }
      current' := next;
    }

    /** Where the sweep stands after `done` visits: which chain is left and what the limiter was told. */
    ghost predicate Sweeping(prev: ConnectionNode?, current: ConnectionNode?, now: int,
                             was: seq<Entry>, done: nat, table: seq<IpEntry>)
      reads this, Repr, limiter, limiter.entries
    {
      && Valid()
      && done <= |was|
      && list == StillLinked(was, now, done)
      && limiter.Table() == Given(was, now, done, table)
      && var k := |Survivors(was[..done], now)|;
      && k <= |nodes|
      && current == (if k < |nodes| then nodes[k] else null)
      && prev == (if k == 0 then null else nodes[k - 1])
    }

    method Advance(prev: ConnectionNode?, current: ConnectionNode, now: int,
                   ghost was: seq<Entry>, ghost done: nat, ghost table: seq<IpEntry>)
      returns (prev': ConnectionNode?, current': ConnectionNode?)
      requires Sweeping(prev, current, now, was, done, table)
      modifies this`head, this`activeCount, this`nodes, this`list, Repr, limiter.entries
      ensures Sweeping(prev', current', now, was, done + 1, table)
      ensures done < |was|
    {
      ghost var k := |Survivors(was[..done], now)|;
      assert done < |was|;
      SweepVisit(was, now, done, table);
      prev', current' := Visit(prev, current, now, k);
    }

    /** The timeout sweep: one pass that unlinks every connection that has been idle too long. */
    method CleanupInactive(now: int)
      requires Valid()
      modifies this`head, this`activeCount, this`nodes, this`list, Repr, limiter.entries
      ensures Valid() && list == Survivors(old(list), now)
      ensures limiter.Table() == ReleaseAll(old(limiter.Table()), Expired(old(list), now))
    {
      var current := head;
      var prev: ConnectionNode? := null;
      SweepBounds(list, now, limiter.Table());
      ghost var done := 0;
      while current != null
        invariant Sweeping(prev, current, now, old(list), done, old(limiter.Table()))
        decreases |old(list)| - done
      {
        prev, current := Advance(prev, current, now, old(list), done, old(limiter.Table()));
        done := done + 1;
      }
    }
  }
}
