/**
 The chat application's table of peers: a fixed array with first-free
 insertion, a removal that shifts the rest up and one that leaves a hole.
 */
module PeerTable {
  const MAX_PEERS: nat := 100
  const MAX_IP_ADDRESS_LENGTH: nat := 64

  type Port = p: int | 0 <= p < 0x1_0000

  datatype Peer = Peer(id: int, fd: int, ip: string, port: Port, active: bool)

  const BLANK := Peer(0, 0, "", 0, false)    // as the table is created
  const VACANT := Peer(0, -1, "", 0, false)  // as a removal leaves the last slot

  type Slots = s: seq<Peer> | |s| == MAX_PEERS witness seq(MAX_PEERS, _ => BLANK)

  datatype Table = Table(peers: Slots, count: int)

  const NEW_TABLE := Table(seq(MAX_PEERS, _ => BLANK), 0)

  // ---- The four mutators on values ----

  function FirstFree(peers: seq<Peer>): (k: nat)
    ensures k <= |peers|
    ensures k < |peers| ==> !peers[k].active
    ensures forall j :: 0 <= j < k ==> peers[j].active
  {
    if peers == [] || !peers[0].active then 0 else 1 + FirstFree(peers[1..])
  }

  function FirstWithId(peers: seq<Peer>, id: int): (k: nat)
    ensures k <= |peers|
    ensures k < |peers| ==> peers[k].active && peers[k].id == id
    ensures forall j :: 0 <= j < k ==> !(peers[j].active && peers[j].id == id)
  {
    if peers == [] || (peers[0].active && peers[0].id == id) then 0 else 1 + FirstWithId(peers[1..], id)
  }

  function FirstWithFd(peers: seq<Peer>, fd: int): (k: nat)
    ensures k <= |peers|
    ensures k < |peers| ==> peers[k].active && peers[k].fd == fd
    ensures forall j :: 0 <= j < k ==> !(peers[j].active && peers[j].fd == fd)
  {
    if peers == [] || (peers[0].active && peers[0].fd == fd) then 0 else 1 + FirstWithFd(peers[1..], fd)
  }

  function Add(t: Table, ip: string, port: Port, fd: int): Table {
    var k := FirstFree(t.peers);
    if t.count >= MAX_PEERS || k == |t.peers| then t
    else Table(t.peers[k := Peer(t.count, fd, ip, port, true)], t.count + 1)
  }

  /** Everything behind slot `k` moves up by one and is renumbered by its new slot. */
  function ShiftUp(peers: seq<Peer>, k: nat): (r: seq<Peer>)
    requires k < |peers|
  {
    seq(|peers|, j requires 0 <= j < |peers| =>
      if j < k then peers[j] else if j < |peers| - 1 then peers[j + 1].(id := j) else VACANT)
  }

  function RemoveById(t: Table, id: int): Table {
    var k := FirstWithId(t.peers, id);
    if k < |t.peers| then Table(ShiftUp(t.peers, k), t.count - 1) else t
  }

  function RemoveByFd(t: Table, fd: int): Table {
    var k := FirstWithFd(t.peers, fd);
    if k < |t.peers| then Table(t.peers[k := t.peers[k].(active := false)], t.count - 1) else t
  }

  function CloseAll(t: Table): Table {
    Table(seq(|t.peers|, j requires 0 <= j < |t.peers| => t.peers[j].(active := false)), 0)
  }

  datatype Op = DoAdd(ip: string, port: Port, fd: int) | DoRemoveById(id: int) | DoRemoveByFd(fd: int) | DoCloseAll

  function Step(t: Table, op: Op): Table {
    match op
    case DoAdd(ip, port, fd) => Add(t, ip, port, fd)
    case DoRemoveById(id) => RemoveById(t, id)
    case DoRemoveByFd(fd) => RemoveByFd(t, fd)
    case DoCloseAll => CloseAll(t)
  }

  function Run(t: Table, ops: seq<Op>): Table {
    if ops == [] then t else Step(Run(t, ops[..|ops| - 1]), ops[|ops| - 1])
  }

  // ---- Who is in the table ----

  datatype Contact = Contact(ip: string, port: Port, fd: int)

  function Listed(p: Peer): seq<Contact> {
    if p.active then [Contact(p.ip, p.port, p.fd)] else []
  }

  /** The active peers in slot order, without their ids. */
  function Roster(peers: seq<Peer>): seq<Contact> {
    if peers == [] then [] else Listed(peers[0]) + Roster(peers[1..])
  }

  lemma {:induction false} RosterConcat(a: seq<Peer>, b: seq<Peer>)
    ensures Roster(a + b) == Roster(a) + Roster(b)
  {
    if a == [] {
      assert a + b == b;
    } else {
      assert (a + b)[1..] == a[1..] + b;
      RosterConcat(a[1..], b);
    }
  }

  lemma {:induction false} RosterIgnoresIds(a: seq<Peer>, b: seq<Peer>)
    requires |a| == |b| && forall i :: 0 <= i < |a| ==> a[i].(id := 0) == b[i].(id := 0)
    ensures Roster(a) == Roster(b)
  {
    if a != [] {
      RosterIgnoresIds(a[1..], b[1..]);
    }
  }

  lemma {:induction false} RosterAt(peers: seq<Peer>, k: nat)
    requires k < |peers|
    ensures Roster(peers) == Roster(peers[..k]) + Listed(peers[k]) + Roster(peers[k + 1..])
  {
    assert peers == peers[..k] + peers[k..];
    assert peers[k..][1..] == peers[k + 1..];
    RosterConcat(peers[..k], peers[k..]);
  }

  lemma {:induction false} RosterUpdate(peers: seq<Peer>, k: nat, p: Peer)
    requires k < |peers|
    ensures Roster(peers[k := p]) == Roster(peers[..k]) + Listed(p) + Roster(peers[k + 1..])
  {
    RosterAt(peers[k := p], k);
    assert peers[k := p][..k] == peers[..k] && peers[k := p][k + 1..] == peers[k + 1..];
  }

  lemma {:induction false} RosterLength(peers: seq<Peer>)
    ensures |Roster(peers)| <= |peers|
    ensures |Roster(peers)| == |peers| <==> FirstFree(peers) == |peers|
  {
    if peers != [] {
      RosterLength(peers[1..]);
    }
  }

  lemma {:induction false} NobodyActive(peers: seq<Peer>)
    requires forall i :: 0 <= i < |peers| ==> !peers[i].active
    ensures Roster(peers) == []
  {
    if peers != [] {
      NobodyActive(peers[1..]);
    }
  }

  lemma {:induction false} ShiftUpParts(peers: seq<Peer>, k: nat) returns (moved: seq<Peer>)
    requires k < |peers|
    ensures ShiftUp(peers, k) == peers[..k] + moved + [VACANT]
    ensures |moved| == |peers[k + 1..]|
    ensures forall i :: 0 <= i < |moved| ==> moved[i].(id := 0) == peers[k + 1..][i].(id := 0)
  {
    moved := ShiftUp(peers, k)[k..|peers| - 1];
  }

  lemma {:induction false} RosterWithVacant(a: seq<Peer>, b: seq<Peer>)
    ensures Roster(a + b + [VACANT]) == Roster(a) + Roster(b)
  {
    RosterConcat(a + b, [VACANT]);
    RosterConcat(a, b);
    assert [VACANT][1..] == [];
    assert Roster([VACANT]) == Listed([VACANT][0]) + Roster([VACANT][1..]);
  }

  /** Removal by id takes one peer out and keeps all others, in slot order. */
  lemma {:induction false} ShiftUpKeepsOthers(peers: seq<Peer>, k: nat)
    requires k < |peers|
    ensures Roster(peers) == Roster(peers[..k]) + Listed(peers[k]) + Roster(peers[k + 1..])
    ensures Roster(ShiftUp(peers, k)) == Roster(peers[..k]) + Roster(peers[k + 1..])
  {
    RosterAt(peers, k);
    var moved := ShiftUpParts(peers, k);
    RosterWithVacant(peers[..k], moved);
    RosterIgnoresIds(moved, peers[k + 1..]);
  }

  // ---- What the removals take ----

  /** Slot `k` is the first active one with this id. */
  predicate FirstById(t: Table, id: int, k: nat) {
    && k < MAX_PEERS && t.peers[k].active && t.peers[k].id == id
    && forall j :: 0 <= j < k ==> !(t.peers[j].active && t.peers[j].id == id)
  }

  /** Slot `k` is the first active one with this socket. */
  predicate FirstByFd(t: Table, fd: int, k: nat) {
    && k < MAX_PEERS && t.peers[k].active && t.peers[k].fd == fd
    && forall j :: 0 <= j < k ==> !(t.peers[j].active && t.peers[j].fd == fd)
  }

  /**
   Removal by id takes out exactly the first active peer with the id: those
   before it stay where they are, those behind it move up by one slot and are
   numbered by it, and the roster loses this one contact.
   */
  lemma {:induction false} RemoveByIdTakes(t: Table, id: int, k: nat)
    requires FirstById(t, id, k)
    ensures var t' := RemoveById(t, id);
      && t'.count == t.count - 1
      && (forall j :: 0 <= j < k ==> t'.peers[j] == t.peers[j])
      && (forall j :: k <= j < MAX_PEERS - 1 ==> t'.peers[j] == t.peers[j + 1].(id := j))
      && !t'.peers[MAX_PEERS - 1].active
      && Roster(t.peers) == Roster(t.peers[..k]) + [Contact(t.peers[k].ip, t.peers[k].port, t.peers[k].fd)] + Roster(t.peers[k + 1..])
      && Roster(t'.peers) == Roster(t.peers[..k]) + Roster(t.peers[k + 1..])
  {
    assert FirstWithId(t.peers, id) == k;
    ShiftUpKeepsOthers(t.peers, k);
  }

  lemma {:induction false} RemoveByIdMisses(t: Table, id: int)
    requires forall j :: 0 <= j < MAX_PEERS ==> !(t.peers[j].active && t.peers[j].id == id)
    ensures RemoveById(t, id) == t
  {
  }

  /** Removal by socket leaves a hole where the first active peer of the socket was, and touches nothing else. */
  lemma {:induction false} RemoveByFdTakes(t: Table, fd: int, k: nat)
    requires FirstByFd(t, fd, k)
    ensures var t' := RemoveByFd(t, fd);
      && t'.count == t.count - 1
      && t'.peers[k] == t.peers[k].(active := false)
      && (forall j :: 0 <= j < MAX_PEERS && j != k ==> t'.peers[j] == t.peers[j])
      && Roster(t'.peers) == Roster(t.peers[..k]) + Roster(t.peers[k + 1..])
  {
    assert FirstWithFd(t.peers, fd) == k;
    RosterUpdate(t.peers, k, t.peers[k].(active := false));
  }

  lemma {:induction false} RemoveByFdMisses(t: Table, fd: int)
    requires forall j :: 0 <= j < MAX_PEERS ==> !(t.peers[j].active && t.peers[j].fd == fd)
    ensures RemoveByFd(t, fd) == t
  {
  }

  /** Closing all leaves nobody, and every slot otherwise as it was. */
  lemma {:induction false} CloseAllLeavesNobody(t: Table)
    ensures Roster(CloseAll(t).peers) == [] && CloseAll(t).count == 0
    ensures forall j :: 0 <= j < MAX_PEERS ==> CloseAll(t).peers[j] == t.peers[j].(active := false)
  {
    NobodyActive(CloseAll(t).peers);
  }

  // ---- Every run ----

  /** The counter counts the active slots, and an active peer's id lies between its slot and 99. */
  ghost predicate Sound(t: Table) {
    && t.count == |Roster(t.peers)|
    && (forall k :: 0 <= k < |t.peers| && t.peers[k].active ==> k <= t.peers[k].id < MAX_PEERS)
  }

  lemma {:induction false} RosterPrefix(peers: seq<Peer>, k: nat)
    requires k <= |peers| && forall j :: 0 <= j < k ==> peers[j].active
    ensures |Roster(peers)| >= k
  {
    if k > 0 {
      RosterPrefix(peers[1..], k - 1);
    }
  }

  lemma {:induction false} AddKeepsSound(t: Table, ip: string, port: Port, fd: int)
    requires Sound(t)
    ensures Sound(Add(t, ip, port, fd))
  {
    var k := FirstFree(t.peers);
    if t.count < MAX_PEERS && k < |t.peers| {
      RosterPrefix(t.peers, k);
      RosterAt(t.peers, k);
      RosterUpdate(t.peers, k, Peer(t.count, fd, ip, port, true));
    }
  }

  lemma {:induction false} RemoveByIdKeepsSound(t: Table, id: int)
    requires Sound(t)
    ensures Sound(RemoveById(t, id))
  {
    var k := FirstWithId(t.peers, id);
    if k < |t.peers| {
      ShiftUpKeepsOthers(t.peers, k);
    }
  }

  lemma {:induction false} RemoveByFdKeepsSound(t: Table, fd: int)
    requires Sound(t)
    ensures Sound(RemoveByFd(t, fd))
  {
    var k := FirstWithFd(t.peers, fd);
    if k < |t.peers| {
      RosterAt(t.peers, k);
      RosterUpdate(t.peers, k, t.peers[k].(active := false));
    }
  }

  lemma {:induction false} StepKeepsSound(t: Table, op: Op)
    requires Sound(t)
    ensures Sound(Step(t, op))
  {
    match op
    case DoAdd(ip, port, fd) => AddKeepsSound(t, ip, port, fd);
    case DoRemoveById(id) => RemoveByIdKeepsSound(t, id);
    case DoRemoveByFd(fd) => RemoveByFdKeepsSound(t, fd);
    case DoCloseAll => NobodyActive(CloseAll(t).peers);
  }

  lemma {:induction false} NewIsSound()
    ensures Sound(NEW_TABLE)
  {
    NobodyActive(NEW_TABLE.peers);
  }

  /** Every sequence of mutators keeps the counter and the id bounds. */
  lemma {:induction false} Reachable(ops: seq<Op>)
    ensures Sound(Run(NEW_TABLE, ops))
  {
    if ops == [] {
      NewIsSound();
    } else {
      Reachable(ops[..|ops| - 1]);
      StepKeepsSound(Run(NEW_TABLE, ops[..|ops| - 1]), ops[|ops| - 1]);
    }
  }

  /**
   `add` returns true whenever the counter is below the size, whether or not it
   found a free slot.  In every reachable table it then did find one: exactly
   one peer more is stored, with the given address and socket, and nobody else
   changes.
   */
  lemma {:induction false} AddStoresOne(ops: seq<Op>, ip: string, port: Port, fd: int) returns (k: nat)
    requires Run(NEW_TABLE, ops).count < MAX_PEERS
    ensures StoresOne(Run(NEW_TABLE, ops), Add(Run(NEW_TABLE, ops), ip, port, fd), k, Contact(ip, port, fd))
  {
    Reachable(ops);
    k := SoundAddStoresOne(Run(NEW_TABLE, ops), ip, port, fd);
  }

  lemma {:induction false} SoundAddStoresOne(t: Table, ip: string, port: Port, fd: int) returns (k: nat)
    requires Sound(t) && t.count < MAX_PEERS
    ensures StoresOne(t, Add(t, ip, port, fd), k, Contact(ip, port, fd))
  {
    RosterLength(t.peers);
    k := FirstFree(t.peers);
    RosterAt(t.peers, k);
    RosterUpdate(t.peers, k, Peer(t.count, fd, ip, port, true));
  }

  /** `t'` is `t` with contact `c` stored in the free slot `k`, numbered by the old count. */
  ghost predicate StoresOne(t: Table, t': Table, k: nat, c: Contact) {
    && k < MAX_PEERS && !t.peers[k].active
    && t' == Table(t.peers[k := Peer(t.count, c.fd, c.ip, c.port, true)], t.count + 1)
    && Roster(t.peers) == Roster(t.peers[..k]) + Roster(t.peers[k + 1..])
    && Roster(t'.peers) == Roster(t.peers[..k]) + [c] + Roster(t.peers[k + 1..])
  }

  /** Without removals by socket the active slots are exactly the first `count`, each carrying its slot as id. */
  ghost predicate Packed(t: Table) {
    && 0 <= t.count <= MAX_PEERS
    && (forall k :: 0 <= k < MAX_PEERS ==> (t.peers[k].active <==> k < t.count))
    && (forall k :: 0 <= k < t.count ==> t.peers[k].id == k)
  }

  lemma {:induction false} PackedWithoutHoles(ops: seq<Op>)
    requires forall op :: op in ops ==> !op.DoRemoveByFd?
    ensures Packed(Run(NEW_TABLE, ops))
  {
    if ops != [] {
      var before, op := ops[..|ops| - 1], ops[|ops| - 1];
      PackedWithoutHoles(before);
      assert op in ops;
      PackedStep(Run(NEW_TABLE, before), op);
    }
  }

  lemma {:induction false} PackedStep(t: Table, op: Op)
    requires Packed(t) && !op.DoRemoveByFd?
    ensures Packed(Step(t, op))
  {
    if op.DoAdd? {
      assert t.count < MAX_PEERS ==> !t.peers[t.count].active;
      assert FirstFree(t.peers) == t.count;
    } else if op.DoRemoveById? {
      var k := FirstWithId(t.peers, op.id);
      if k < MAX_PEERS {
        var r := ShiftUp(t.peers, k);
        assert forall j :: 0 <= j < MAX_PEERS - 1 ==>
          r[j] == if j < k then t.peers[j] else t.peers[j + 1].(id := j);
        assert r[MAX_PEERS - 1] == VACANT;
      }
    }
  }

  // ---- Looking a peer up by slot and removing it by id ----

  /** `execute_terminate` greets the peer in slot `i`, then removes by id `i`: do the two name the same slot? */
  predicate SamePeer(t: Table, i: nat)
    requires i < |t.peers|
  {
    FirstWithId(t.peers, i) == i
  }

  lemma {:induction false} PackedNamesAgree(ops: seq<Op>, i: nat)
    requires forall op :: op in ops ==> !op.DoRemoveByFd?
    requires i < MAX_PEERS && Run(NEW_TABLE, ops).peers[i].active
    ensures SamePeer(Run(NEW_TABLE, ops), i)
  {
    PackedWithoutHoles(ops);
  }

  /** A removal by id never reaches past the slot of that number. */
  lemma {:induction false} RemovalNeverPastSlot(ops: seq<Op>, i: nat)
    requires i < MAX_PEERS && Run(NEW_TABLE, ops).peers[i].active
    ensures var f := FirstWithId(Run(NEW_TABLE, ops).peers, i); f <= i || f == MAX_PEERS
  {
    Reachable(ops);
  }

  /** Whichever active slot `terminate` is given, it removes the peer it greets. */
  ghost predicate Aligned(t: Table) {
    forall i :: 0 <= i < MAX_PEERS && t.peers[i].active ==> SamePeer(t, i)
  }

  /** The guard before an add: the free slot that it will take is the one whose number it will write. */
  predicate Fits(t: Table, op: Op) {
    op.DoAdd? && t.count < MAX_PEERS ==> FirstFree(t.peers) == t.count
  }

  lemma {:induction false} AddKeepsAlignedIff(t: Table, ip: string, port: Port, fd: int)
    requires Sound(t) && Aligned(t) && t.count < MAX_PEERS
    ensures Aligned(Add(t, ip, port, fd)) <==> FirstFree(t.peers) == t.count
  {
    RosterLength(t.peers);
    var k, t' := FirstFree(t.peers), Add(t, ip, port, fd);
    RosterPrefix(t.peers, k);
    if k == t.count {
      forall i | 0 <= i < MAX_PEERS && t'.peers[i].active
        ensures SamePeer(t', i)
      {
        if i != k {
          assert SamePeer(t, i);
        }
        forall j | 0 <= j < i && t'.peers[j].active
          ensures t'.peers[j].id != i
        {
          if j != k {
            assert SamePeer(t, j);
          }
        }
      }
    } else {
      assert t'.peers[k].active && t'.peers[k].id != k;
    }
  }

  /** Every active slot carries its own number. */
  ghost predicate OwnNumbers(peers: seq<Peer>) {
    forall j :: 0 <= j < |peers| && peers[j].active ==> peers[j].id == j
  }

  lemma {:induction false} AlignedIsOwnNumbers(t: Table)
    ensures Aligned(t) <==> OwnNumbers(t.peers)
  {
    if OwnNumbers(t.peers) {
      forall i | 0 <= i < MAX_PEERS && t.peers[i].active
        ensures SamePeer(t, i)
      {
      }
    } else {
      var j :| 0 <= j < |t.peers| && t.peers[j].active && t.peers[j].id != j;
      assert !SamePeer(t, j);
    }
  }

  /** No other mutator parts slot numbers and ids. */
  lemma {:induction false} RemovalKeepsAligned(t: Table, op: Op)
    requires Aligned(t) && !op.DoAdd?
    ensures Aligned(Step(t, op))
  {
    AlignedIsOwnNumbers(t);
    AlignedIsOwnNumbers(Step(t, op));
  }

  ghost predicate AlwaysAligned(t: Table, ops: seq<Op>) {
    Aligned(Run(t, ops)) && (ops == [] || AlwaysAligned(t, ops[..|ops| - 1]))
  }

  ghost predicate AddsFit(t: Table, ops: seq<Op>) {
    ops == [] || (AddsFit(t, ops[..|ops| - 1]) && Fits(Run(t, ops[..|ops| - 1]), ops[|ops| - 1]))
  }

  /**
   Over every sequence of mutators: lookup by slot and removal by id name the
   same peer all along if and only if every add found its free slot at the
   place its count says, that is, with no hole before it.
   */
  lemma {:induction false} NamesAgreeIff(ops: seq<Op>)
    ensures AlwaysAligned(NEW_TABLE, ops) <==> AddsFit(NEW_TABLE, ops)
  {
    if ops != [] {
      var before, op := ops[..|ops| - 1], ops[|ops| - 1];
      NamesAgreeIff(before);
      if AlwaysAligned(NEW_TABLE, before) {
        var t := Run(NEW_TABLE, before);
        Reachable(before);
        if !op.DoAdd? {
          RemovalKeepsAligned(t, op);
        } else if t.count < MAX_PEERS {
          AddKeepsAlignedIff(t, op.ip, op.port, op.fd);
        }
      }
    }
  }

  /** In such a run `terminate i` takes exactly the contact of slot `i` from the roster. */
  lemma {:induction false} TerminateTakesSlot(ops: seq<Op>, i: nat)
    requires AddsFit(NEW_TABLE, ops) && i < MAX_PEERS && Run(NEW_TABLE, ops).peers[i].active
    ensures var t := Run(NEW_TABLE, ops); var p := t.peers[i];
      && Roster(t.peers) == Roster(t.peers[..i]) + [Contact(p.ip, p.port, p.fd)] + Roster(t.peers[i + 1..])
      && Roster(RemoveById(t, i).peers) == Roster(t.peers[..i]) + Roster(t.peers[i + 1..])
      && RemoveById(t, i).count == t.count - 1
  {
    NamesAgreeIff(ops);
    var t := Run(NEW_TABLE, ops);
    assert SamePeer(t, i);
    RemoveByIdTakes(t, i, i);
  }

  lemma {:induction false} RunSnoc(ops: seq<Op>, op: Op)
    ensures Run(NEW_TABLE, ops + [op]) == Step(Run(NEW_TABLE, ops), op)
  {
    assert (ops + [op])[..|ops|] == ops;
  }

  lemma {:induction false} JoinPacked(ops: seq<Op>, c: Contact) returns (ops': seq<Op>)
    requires Packed(Run(NEW_TABLE, ops)) && Run(NEW_TABLE, ops).count < MAX_PEERS
    ensures var t := Run(NEW_TABLE, ops);
      Run(NEW_TABLE, ops') == Table(t.peers[t.count := Peer(t.count, c.fd, c.ip, c.port, true)], t.count + 1)
    ensures Packed(Run(NEW_TABLE, ops'))
  {
    var t := Run(NEW_TABLE, ops);
    ops' := ops + [DoAdd(c.ip, c.port, c.fd)];
    RunSnoc(ops, DoAdd(c.ip, c.port, c.fd));
    assert !t.peers[t.count].active;
    assert FirstFree(t.peers) == t.count;
    PackedStep(t, DoAdd(c.ip, c.port, c.fd));
  }

  /** After a socket closes and another peer joins, `terminate 2` greets one peer and removes another. */
  lemma {:induction false} TerminateCanHitAnother(a: Contact, b: Contact, c: Contact, d: Contact) returns (ops: seq<Op>)
    ensures var t := Run(NEW_TABLE, ops);
      && t.peers[2].active && t.peers[2].fd == c.fd
      && FirstWithId(t.peers, 2) == 0 && t.peers[0].fd == d.fd
  {
    assert Run(NEW_TABLE, []) == NEW_TABLE;
    var one := JoinPacked([], a);
    var two := JoinPacked(one, b);
    var three := JoinPacked(two, c);
    var t := Run(NEW_TABLE, three);
    assert FirstWithFd(t.peers, a.fd) == 0;
    var hole := three + [DoRemoveByFd(a.fd)];
    RunSnoc(three, DoRemoveByFd(a.fd));
    assert FirstFree(Run(NEW_TABLE, hole).peers) == 0;
    ops := hole + [DoAdd(d.ip, d.port, d.fd)];
    RunSnoc(hole, DoAdd(d.ip, d.port, d.fd));
  }

  // ---- The table in place ----

  datatype Lookup = NoPeer | Found(peer: Peer)

  class PeerConnectionManager {
    const peers: array<Peer>
    var connectionCount: int

    ghost predicate Valid()
      reads this, peers
    {
      peers.Length == MAX_PEERS && Sound(Value())
    }

    ghost function Value(): Table
      requires peers.Length == MAX_PEERS
      reads this, peers
    {
      Table(peers[..], connectionCount)
    }

    constructor ()
      ensures Valid() && Value() == NEW_TABLE && fresh(peers)
    {
      peers := new Peer[MAX_PEERS](_ => BLANK);
      connectionCount := 0;
      new;
      assert peers[..] == NEW_TABLE.peers;
      NewIsSound();
    }

    method AddPeer(ip: string, port: Port, fd: int) returns (ok: bool)
      requires Valid()
      modifies this`connectionCount, peers
      ensures Valid() && Value() == Add(old(Value()), ip, port, fd)
      ensures ok <==> old(connectionCount) < MAX_PEERS
      ensures ok ==> connectionCount == old(connectionCount) + 1
    {
      StepKeepsSound(Value(), DoAdd(ip, port, fd));
      RosterLength(peers[..]);
      if connectionCount >= MAX_PEERS {
        return false;
      }
      var i := 0;
      while i < MAX_PEERS
        invariant 0 <= i <= MAX_PEERS
        invariant peers[..] == old(peers[..]) && connectionCount == old(connectionCount)
        invariant forall j :: 0 <= j < i ==> peers[j].active
      {
        if !peers[i].active {
          assert FirstFree(peers[..]) == i;
          peers[i] := Peer(connectionCount, fd, ip, port, true);
          connectionCount := connectionCount + 1;
          return true;
        }
        i := i + 1;
      }
      return true;
    }

    /** Move everything behind slot `i` up by one, renumber it, and clear the last slot. */
    method ShiftFrom(i: nat)
      requires i < peers.Length == MAX_PEERS
      modifies peers
      ensures peers[..] == ShiftUp(old(peers[..]), i)
    {
      var j := i;
      while j < MAX_PEERS - 1
        invariant i <= j <= MAX_PEERS - 1
        invariant peers[..j] == ShiftUp(old(peers[..]), i)[..j]
        invariant peers[j..] == old(peers[j..])
      {
        peers[j] := peers[j + 1];
        peers[j] := peers[j].(id := j);
        j := j + 1;
      }
      peers[MAX_PEERS - 1] := VACANT;
    }

    method RemovePeerById(id: int) returns (ok: bool)
      requires Valid()
      modifies this`connectionCount, peers
      ensures Valid() && Value() == RemoveById(old(Value()), id)
      ensures ok <==> FirstWithId(old(peers[..]), id) < MAX_PEERS
    {
      StepKeepsSound(Value(), DoRemoveById(id));
      var i := 0;
      while i < MAX_PEERS
        invariant 0 <= i <= MAX_PEERS
        invariant peers[..] == old(peers[..]) && connectionCount == old(connectionCount)
        invariant forall j :: 0 <= j < i ==> !(peers[j].active && peers[j].id == id)
      {
        if peers[i].active && peers[i].id == id {
          assert FirstWithId(peers[..], id) == i;
          ShiftFrom(i);
          connectionCount := connectionCount - 1;
          assert Value() == RemoveById(old(Value()), id);
          return true;
        }
        i := i + 1;
      }
      return false;
    }

    method RemovePeerBySocket(fd: int) returns (ok: bool)
      requires Valid()
      modifies this`connectionCount, peers
      ensures Valid() && Value() == RemoveByFd(old(Value()), fd)
      ensures ok <==> FirstWithFd(old(peers[..]), fd) < MAX_PEERS
    {
      StepKeepsSound(Value(), DoRemoveByFd(fd));
      var i := 0;
      while i < MAX_PEERS
        invariant 0 <= i <= MAX_PEERS
        invariant peers[..] == old(peers[..]) && connectionCount == old(connectionCount)
        invariant forall j :: 0 <= j < i ==> !(peers[j].active && peers[j].fd == fd)
      {
        if peers[i].active && peers[i].fd == fd {
          assert FirstWithFd(peers[..], fd) == i;
          peers[i] := peers[i].(active := false);
          connectionCount := connectionCount - 1;
          return true;
        }
        i := i + 1;
      }
      return false;
    }

    method CloseAllPeers()
      requires Valid()
      modifies this`connectionCount, peers
      ensures Valid() && Value() == CloseAll(old(Value()))
    {
      StepKeepsSound(Value(), DoCloseAll);
      var i := 0;
      while i < MAX_PEERS
        invariant 0 <= i <= MAX_PEERS
        invariant peers[..i] == CloseAll(old(Value())).peers[..i]
        invariant peers[i..] == old(peers[i..])
      {
        if peers[i].active {
          peers[i] := peers[i].(active := false);
        }
        i := i + 1;
      }
      connectionCount := 0;
      assert peers[..] == CloseAll(old(Value())).peers;
    }

    /** The peer in a slot; out of range and empty slots give none. */
    method GetPeerByIndex(index: int) returns (r: Lookup)
      requires Valid()
      ensures r.Found? <==> 0 <= index < MAX_PEERS && peers[index].active
      ensures r.Found? ==> r.peer == peers[index]
    {
      if index < 0 || index >= MAX_PEERS {
        return NoPeer;
      }
      if peers[index].active {
        return Found(peers[index]);
      }
      return NoPeer;
    }
  }
}
