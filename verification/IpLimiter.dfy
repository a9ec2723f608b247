/**
 The per-IP connection limiter of the sensor gateway.

 `Admit` and `Release` say what one critical section does to the table; the
 class `IpLimiterManager` is the array that the gateway updates in place.
 */
module IpLimiter {
  const MAX_CONNECTIONS_PER_IP: nat := 5
  const MAX_UNIQUE_IPS: nat := 256
  const INET_ADDRSTRLEN: nat := 16

  /** A text that fits the gateway's address buffers, terminator included. */
  type Ip = s: string | |s| < INET_ADDRSTRLEN witness ""

  datatype IpEntry = IpEntry(ip: Ip, count: int)

  ghost predicate WellFormed(es: seq<IpEntry>) {
    && |es| <= MAX_UNIQUE_IPS
    && (forall i, j :: 0 <= i < j < |es| ==> es[i].ip != es[j].ip)
    && (forall i :: 0 <= i < |es| ==> 0 <= es[i].count <= MAX_CONNECTIONS_PER_IP)
  }

  /** The first entry of `ip`, or the length of the table. */
  function IndexOf(es: seq<IpEntry>, ip: Ip): (i: nat)
    ensures i <= |es|
    ensures i < |es| ==> es[i].ip == ip
    ensures forall j :: 0 <= j < i ==> es[j].ip != ip
  {
    if es == [] then 0 else if es[0].ip == ip then 0 else 1 + IndexOf(es[1..], ip)
  }

  predicate Known(es: seq<IpEntry>, ip: Ip) {
    IndexOf(es, ip) < |es|
  }

  function CountOf(es: seq<IpEntry>, ip: Ip): int {
    if Known(es, ip) then es[IndexOf(es, ip)].count else 0
  }

  predicate Admits(es: seq<IpEntry>, ip: Ip) {
    if Known(es, ip) then CountOf(es, ip) < MAX_CONNECTIONS_PER_IP else |es| < MAX_UNIQUE_IPS
  }

  /** The table after one admitted connection from `ip`. */
  function Admit(es: seq<IpEntry>, ip: Ip): seq<IpEntry> {
    var i := IndexOf(es, ip);
    if i < |es| then es[i := es[i].(count := es[i].count + 1)] else es + [IpEntry(ip, 1)]
  }

  /** The table after one connection from `ip` is given back. */
  function Release(es: seq<IpEntry>, ip: Ip): seq<IpEntry> {
    var i := IndexOf(es, ip);
    if i < |es| && es[i].count > 0 then es[i := es[i].(count := es[i].count - 1)] else es
  }

  function If(b: bool): nat {
    if b then 1 else 0
  }

  lemma IndexUnique(es: seq<IpEntry>, ip: Ip, k: nat)
    requires WellFormed(es) && k < |es| && es[k].ip == ip
    ensures IndexOf(es, ip) == k
  {
  }

  lemma CountBounded(es: seq<IpEntry>, ip: Ip)
    requires WellFormed(es)
    ensures 0 <= CountOf(es, ip) <= MAX_CONNECTIONS_PER_IP
  {
  }

  lemma {:induction false} AdmitKeepsForm(es: seq<IpEntry>, ip: Ip)
    requires WellFormed(es) && Admits(es, ip)
    ensures WellFormed(Admit(es, ip)) && |Admit(es, ip)| == |es| + If(!Known(es, ip))
  {
    var es' := Admit(es, ip);
    assert forall i :: 0 <= i < |es| ==> es'[i].ip == es[i].ip;
  }

  lemma {:induction false} ReleaseKeepsForm(es: seq<IpEntry>, ip: Ip)
    requires WellFormed(es)
    ensures WellFormed(Release(es, ip)) && |Release(es, ip)| == |es|
  {
    assert forall i :: 0 <= i < |es| ==> Release(es, ip)[i].ip == es[i].ip;
  }

  /** Admission raises the count of `ip` by one, moves no other count, and keeps the table's bounds. */
  lemma {:induction false} AdmitCounts(es: seq<IpEntry>, ip: Ip)
    requires WellFormed(es) && Admits(es, ip)
    ensures WellFormed(Admit(es, ip))
    ensures forall q: Ip :: CountOf(Admit(es, ip), q) == CountOf(es, q) + If(q == ip)
    ensures forall q: Ip :: Known(Admit(es, ip), q) <==> Known(es, q) || q == ip
  {
    var es' := Admit(es, ip);
    assert WellFormed(es');
    forall q: Ip
      ensures CountOf(es', q) == CountOf(es, q) + If(q == ip)
      ensures Known(es', q) <==> Known(es, q) || q == ip
    {
      var i := IndexOf(es, q);
      if i < |es| {
        IndexUnique(es', q, i);
      } else if q == ip {
        IndexUnique(es', q, |es|);
      }
    }
  }

  /** Release lowers a positive count of `ip` by one, moves no other count, and forgets no address. */
  lemma {:induction false} ReleaseCounts(es: seq<IpEntry>, ip: Ip)
    requires WellFormed(es)
    ensures WellFormed(Release(es, ip)) && |Release(es, ip)| == |es|
    ensures forall q: Ip :: CountOf(Release(es, ip), q) == CountOf(es, q) - If(q == ip && CountOf(es, ip) > 0)
    ensures forall q: Ip :: Known(Release(es, ip), q) <==> Known(es, q)
  {
    var es' := Release(es, ip);
    forall q: Ip
      ensures CountOf(es', q) == CountOf(es, q) - If(q == ip && CountOf(es, ip) > 0)
      ensures Known(es', q) <==> Known(es, q)
    {
      var i := IndexOf(es, q);
      if i < |es| {
        IndexUnique(es', q, i);
      }
    }
  }

  /** Giving back what was just admitted restores every count. */
  lemma {:induction false} ReleaseUndoesAdmit(es: seq<IpEntry>, ip: Ip)
    requires WellFormed(es) && Admits(es, ip)
    ensures forall q: Ip :: CountOf(Release(Admit(es, ip), ip), q) == CountOf(es, q)
  {
    AdmitCounts(es, ip);
    ReleaseCounts(Admit(es, ip), ip);
    var i := IndexOf(es, ip);
    assert CountOf(es, ip) >= 0;
  }

  datatype Request = Allow(ip: Ip) | Remove(ip: Ip)

  /** One limiter call; a refused `Allow` changes nothing. */
  function Answer(es: seq<IpEntry>, r: Request): seq<IpEntry> {
    match r
    case Allow(ip) => if Admits(es, ip) then Admit(es, ip) else es
    case Remove(ip) => Release(es, ip)
  }

  /** Any sequence of limiter calls. */
  function Serve(es: seq<IpEntry>, rs: seq<Request>): seq<IpEntry> {
    if rs == [] then es else Answer(Serve(es, rs[..|rs| - 1]), rs[|rs| - 1])
  }

  // ---- What the limiter promises, told without the table ----

  /** The addresses admitted so far, each with the number of connections it holds. */
  type Ledger = map<Ip, int>

  function Holds(l: Ledger, ip: Ip): int {
    if ip in l then l[ip] else 0
  }

  /** Fewer than five connections, and one of at most 256 addresses ever admitted. */
  predicate Grants(l: Ledger, ip: Ip) {
    Holds(l, ip) < MAX_CONNECTIONS_PER_IP && (ip in l || |l| < MAX_UNIQUE_IPS)
  }

  function Note(l: Ledger, r: Request): Ledger {
    match r
    case Allow(ip) => if Grants(l, ip) then l[ip := Holds(l, ip) + 1] else l
    case Remove(ip) => if Holds(l, ip) > 0 then l[ip := Holds(l, ip) - 1] else l
  }

  function History(rs: seq<Request>): Ledger {
    if rs == [] then map[] else Note(History(rs[..|rs| - 1]), rs[|rs| - 1])
  }

  ghost predicate Agree(es: seq<IpEntry>, l: Ledger) {
    WellFormed(es) && |es| == |l| && forall ip: Ip :: Recorded(es, l, ip)
  }

  ghost predicate Recorded(es: seq<IpEntry>, l: Ledger, ip: Ip) {
    (Known(es, ip) <==> ip in l) && CountOf(es, ip) == Holds(l, ip)
  }

  lemma {:induction false} AgreeAt(es: seq<IpEntry>, l: Ledger, ip: Ip)
    requires Agree(es, l)
    ensures (Known(es, ip) <==> ip in l) && CountOf(es, ip) == Holds(l, ip)
    ensures Admits(es, ip) <==> Grants(l, ip)
  {
    assert Recorded(es, l, ip);
  }

  lemma {:induction false} AdmitAt(es: seq<IpEntry>, l: Ledger, ip: Ip, q: Ip)
    requires Agree(es, l) && Admits(es, ip)
    ensures Recorded(Admit(es, ip), l[ip := Holds(l, ip) + 1], q)
  {
    AgreeAt(es, l, ip);
    AgreeAt(es, l, q);
    AdmitCounts(es, ip);
  }

  lemma {:induction false} ReleaseAt(es: seq<IpEntry>, l: Ledger, ip: Ip, q: Ip)
    requires Agree(es, l)
    ensures Recorded(Release(es, ip), Note(l, Remove(ip)), q)
  {
    AgreeAt(es, l, ip);
    AgreeAt(es, l, q);
    ReleaseCounts(es, ip);
  }

  lemma {:induction false} LedgerSize(l: Ledger, ip: Ip, n: int)
    ensures |l[ip := n]| == |l| + If(ip !in l)
  {
    assert l[ip := n].Keys == l.Keys + {ip};
    assert |l[ip := n]| == |l[ip := n].Keys| && |l| == |l.Keys|;
  }

  lemma {:induction false} AdmitKeepsAgree(es: seq<IpEntry>, l: Ledger, ip: Ip)
    requires Agree(es, l) && Admits(es, ip)
    ensures Agree(Admit(es, ip), l[ip := Holds(l, ip) + 1])
  {
    var es', l' := Admit(es, ip), l[ip := Holds(l, ip) + 1];
    AgreeAt(es, l, ip);
    LedgerSize(l, ip, Holds(l, ip) + 1);
    forall q: Ip
      ensures Recorded(es', l', q)
    {
      AdmitAt(es, l, ip, q);
    }
    AdmitKeepsForm(es, ip);
  }

  lemma {:induction false} ReleaseKeepsAgree(es: seq<IpEntry>, l: Ledger, ip: Ip)
    requires Agree(es, l)
    ensures Agree(Release(es, ip), Note(l, Remove(ip)))
  {
    var es', l' := Release(es, ip), Note(l, Remove(ip));
    LedgerSize(l, ip, Holds(l, ip) - 1);
    forall q: Ip
      ensures Recorded(es', l', q)
    {
      ReleaseAt(es, l, ip, q);
    }
    ReleaseKeepsForm(es, ip);
  }

  lemma {:induction false} AnswerKeepsAgree(es: seq<IpEntry>, l: Ledger, r: Request)
    requires Agree(es, l)
    ensures Agree(Answer(es, r), Note(l, r))
  {
    AgreeAt(es, l, r.ip);
    if r.Remove? {
      ReleaseKeepsAgree(es, l, r.ip);
    } else if Admits(es, r.ip) {
      AdmitKeepsAgree(es, l, r.ip);
    }
  }

  /** After any sequence of calls the table is a faithful ledger of them, and the next answer is the ledger's. */
  lemma {:induction false} TableIsLedger(rs: seq<Request>)
    ensures Agree(Serve([], rs), History(rs))
    ensures forall ip: Ip :: Admits(Serve([], rs), ip) <==> Grants(History(rs), ip)
  {
    if rs != [] {
      TableIsLedger(rs[..|rs| - 1]);
      AnswerKeepsAgree(Serve([], rs[..|rs| - 1]), History(rs[..|rs| - 1]), rs[|rs| - 1]);
    }
    forall ip: Ip
      ensures Admits(Serve([], rs), ip) <==> Grants(History(rs), ip)
    {
      AgreeAt(Serve([], rs), History(rs), ip);
    }
  }

  /**
   The limit per address is not the only reason for a refusal: after any calls,
   an address with no connection at all is refused exactly when it was never
   admitted and 256 others were, even if none of them is connected any more.
   */
  lemma {:induction false} RefusedWithoutConnectionIff(rs: seq<Request>, ip: Ip)
    requires Holds(History(rs), ip) == 0
    ensures !Admits(Serve([], rs), ip) <==> ip !in History(rs) && |History(rs)| == MAX_UNIQUE_IPS
  {
    TableIsLedger(rs);
    AgreeAt(Serve([], rs), History(rs), ip);
  }

  lemma {:induction false} ServeConcat(es: seq<IpEntry>, rs: seq<Request>, more: seq<Request>)
    ensures Serve(es, rs + more) == Serve(Serve(es, rs), more)
  {
    if more == [] {
      assert rs + more == rs;
    } else {
      assert (rs + more)[..|rs + more| - 1] == rs + more[..|more| - 1];
      ServeConcat(es, rs, more[..|more| - 1]);
    }
  }

  /** A full table refuses the same strangers for ever. */
  lemma {:induction false} StrangersStayRefused(es: seq<IpEntry>, rs: seq<Request>, stranger: Ip)
    requires WellFormed(es) && |es| == MAX_UNIQUE_IPS && !Known(es, stranger)
    ensures WellFormed(Serve(es, rs)) && |Serve(es, rs)| == MAX_UNIQUE_IPS && !Known(Serve(es, rs), stranger)
    ensures CountOf(Serve(es, rs), stranger) == 0 && !Admits(Serve(es, rs), stranger)
  {
    if rs != [] {
      var before, r := rs[..|rs| - 1], rs[|rs| - 1];
      StrangersStayRefused(es, before, stranger);
      if r.Remove? {
        ReleaseCounts(Serve(es, before), r.ip);
      } else if Admits(Serve(es, before), r.ip) {
        AdmitCounts(Serve(es, before), r.ip);
      }
    }
  }

  /** `k` addresses came and went: the table remembers them all and counts none. */
  ghost predicate OnlyMemories(es: seq<IpEntry>, k: nat) {
    && WellFormed(es) && |es| == k
    && (forall ip: Ip :: CountOf(es, ip) == 0)
    && (forall j: nat :: k <= j < MAX_UNIQUE_IPS ==> !Known(es, Visitor(j)))
    && (forall ip: Ip :: |ip| != 1 ==> !Known(es, ip))
  }

  /** The k-th of 256 different addresses. */
  function Visitor(k: nat): Ip
    requires k < MAX_UNIQUE_IPS
  {
    [k as char]
  }

  lemma {:induction false} ComeAndGo(k: nat) returns (rs: seq<Request>)
    requires k <= MAX_UNIQUE_IPS
    ensures OnlyMemories(Serve([], rs), k)
  {
    rs := [];
    if k > 0 {
      var before := ComeAndGo(k - 1);
      var es, ip := Serve([], before), Visitor(k - 1);
      rs := before + [Allow(ip)] + [Remove(ip)];
      assert rs[..|rs| - 1] == before + [Allow(ip)] && (before + [Allow(ip)])[..|before|] == before;
      AdmitCounts(es, ip);
      ReleaseCounts(Admit(es, ip), ip);
      ReleaseUndoesAdmit(es, ip);
      forall j: nat | k <= j < MAX_UNIQUE_IPS
        ensures !Known(Serve([], rs), Visitor(j))
      {
        assert Visitor(j)[0] != ip[0];
      }
    }
  }

  /**
   The code does get there: some calls leave the table full with no connection
   open, and from then on, whatever is called, every other address is refused.
   */
  lemma {:induction false} StrangersCanBeLockedOut() returns (rs: seq<Request>)
    ensures forall ip: Ip :: CountOf(Serve([], rs), ip) == 0
    ensures forall more: seq<Request>, stranger: Ip :: |stranger| > 1 ==> !Admits(Serve([], rs + more), stranger)
  {
    rs := ComeAndGo(MAX_UNIQUE_IPS);
    forall more: seq<Request>, stranger: Ip | |stranger| > 1
      ensures !Admits(Serve([], rs + more), stranger)
    {
      ServeConcat([], rs, more);
      StrangersStayRefused(Serve([], rs), more, stranger);
    }
  }

  class IpLimiterManager {
    const entries: array<IpEntry>
    var size: nat

    ghost predicate Valid()
      reads this, entries
    {
      entries.Length == MAX_UNIQUE_IPS && size <= entries.Length && WellFormed(entries[..size])
    }

    ghost function Table(): seq<IpEntry>
      requires size <= entries.Length
      reads this, entries
    {
      entries[..size]
    }

    constructor ()
      ensures Valid() && Table() == [] && fresh(entries)
    {
      var blank := IpEntry("", 0);
      entries := new IpEntry[MAX_UNIQUE_IPS](_ => blank);
      size := 0;
    }

    method AllowConnection(ip: Ip) returns (ok: bool)
      requires Valid()
      modifies this`size, entries
      ensures Valid()
      ensures ok == Admits(old(Table()), ip)
      ensures Table() == if ok then Admit(old(Table()), ip) else old(Table())
    {
      var i := 0;
      while i < size
        invariant 0 <= i <= size
        invariant forall j :: 0 <= j < i ==> entries[j].ip != ip
      {
        if entries[i].ip == ip {
          IndexUnique(Table(), ip, i);
          if entries[i].count >= MAX_CONNECTIONS_PER_IP {
            return false;
          }
          AdmitKeepsForm(Table(), ip);
          entries[i] := entries[i].(count := entries[i].count + 1);
          return true;
        }
        i := i + 1;
      }
      assert !Known(Table(), ip);
      if size < MAX_UNIQUE_IPS {
        AdmitKeepsForm(Table(), ip);
        entries[size] := IpEntry(ip, 1);
        size := size + 1;
        return true;
      }
      return false;
    }

    method RemoveConnection(ip: Ip)
      requires Valid()
      modifies entries
      ensures Valid() && Table() == Release(old(Table()), ip)
    {
      ReleaseKeepsForm(Table(), ip);
      var i := 0;
      while i < size
        invariant 0 <= i <= size
        invariant forall j :: 0 <= j < i ==> entries[j].ip != ip || entries[j].count <= 0
      {
        if entries[i].ip == ip && entries[i].count > 0 {
          IndexUnique(Table(), ip, i);
          entries[i] := entries[i].(count := entries[i].count - 1);
          return;
        }
        i := i + 1;
      }
    }
  }
}
