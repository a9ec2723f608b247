/**
 The gateway's storage manager: a linked list of readings that wait for the
 database, drained in place against inserts that may fail, and the retry loop
 that connects to the database.
 */
module Storage {
  import opened SensorConnections

  const SQL_RETRY_LIMIT: nat := 3

  /** How the insert of one pending reading ends. */
  datatype Insert = Inserted | StepFailed | PrepareFailed

  // ---- One pass over the pending readings ----

  /** How the insert of the k-th reading of a pass ends; inserts beyond the given outcomes fail. */
  function At(outcome: seq<Insert>, k: nat): Insert {
    if k < |outcome| then outcome[k] else PrepareFailed
  }

  /** The readings of a pass whose insert worked. */
  function Written(pending: seq<SensorData>, outcome: seq<Insert>): seq<SensorData> {
    if pending == [] then []
    else
      var n := |pending| - 1;
      if At(outcome, n).Inserted? then Written(pending[..n], outcome) + [pending[n]] else Written(pending[..n], outcome)
  }

  function Kept(pending: seq<SensorData>, outcome: seq<Insert>): seq<SensorData> {
    if pending == [] then []
    else
      var n := |pending| - 1;
      if At(outcome, n).Inserted? then Kept(pending[..n], outcome) else Kept(pending[..n], outcome) + [pending[n]]
  }

  /** `a` is `b` with some elements left out and the order kept. */
  predicate Subsequence<T(==)>(a: seq<T>, b: seq<T>)
    decreases |b|
  {
    a == [] ||
    (b != [] &&
     ((a[|a| - 1] == b[|b| - 1] && Subsequence(a[..|a| - 1], b[..|b| - 1])) || Subsequence(a, b[..|b| - 1])))
  }

  lemma {:induction false} SubsequenceTransitive<T>(a: seq<T>, b: seq<T>, c: seq<T>)
    requires Subsequence(a, b) && Subsequence(b, c)
    ensures Subsequence(a, c)
    decreases |b| + |c|
  {
    if a != [] {
      var a', b', c' := a[..|a| - 1], b[..|b| - 1], c[..|c| - 1];
      if Subsequence(b, c') {
        SubsequenceTransitive(a, b, c');
      } else if Subsequence(a, b') {
        SubsequenceTransitive(a, b', c');
      } else {
        SubsequenceTransitive(a', b', c');
      }
    }
  }

  lemma {:induction false} SubsequenceExtend<T>(a: seq<T>, b: seq<T>, x: T)
    requires Subsequence(a, b)
    ensures Subsequence(a + [x], b + [x]) && Subsequence(a, b + [x])
  {
    assert (a + [x])[..|a|] == a && (b + [x])[..|b|] == b;
  }

  /** One pass splits the list into its written and its kept readings: none is lost, none is doubled. */
  lemma {:induction false} PassSplits(pending: seq<SensorData>, outcome: seq<Insert>)
    ensures multiset(pending) == multiset(Written(pending, outcome)) + multiset(Kept(pending, outcome))
  {
    if pending != [] {
      var n := |pending| - 1;
      PassSplits(pending[..n], outcome);
      assert pending == pending[..n] + [pending[n]];
    }
  }

  /** What a pass keeps stands in the old order. */
  lemma {:induction false} KeptInOrder(pending: seq<SensorData>, outcome: seq<Insert>)
    ensures Subsequence(Kept(pending, outcome), pending)
    decreases |pending|
  {
    if pending != [] {
      var n := |pending| - 1;
      var before := pending[..n];
      KeptInOrder(before, outcome);
      SubsequenceExtend(Kept(before, outcome), before, pending[n]);
      assert before + [pending[n]] == pending;
    }
  }

  /** Reading `k` of a pass lands in the part its own outcome says, after its like before it. */
  lemma {:induction false} PassPlaces(pending: seq<SensorData>, outcome: seq<Insert>, k: nat)
    requires k < |pending|
    ensures At(outcome, k).Inserted? ==> Written(pending[..k], outcome) + [pending[k]] <= Written(pending, outcome)
    ensures !At(outcome, k).Inserted? ==> Kept(pending[..k], outcome) + [pending[k]] <= Kept(pending, outcome)
  {
    var n := |pending| - 1;
    if k < n {
      PassPlaces(pending[..n], outcome, k);
      assert pending[..n][..k] == pending[..k];
    }
  }

  lemma {:induction false} AllInserted(pending: seq<SensorData>, outcome: seq<Insert>)
    requires forall k: nat :: k < |pending| ==> At(outcome, k).Inserted?
    ensures Written(pending, outcome) == pending && Kept(pending, outcome) == []
  {
    if pending != [] {
      AllInserted(pending[..|pending| - 1], outcome);
    }
  }

  // ---- The storage manager as a value ----

  datatype Place = AtTop | Draining | Exited  // where the storage thread is

  datatype Store = Store(
    pending: seq<SensorData>, rows: seq<SensorData>, totalReceived: int,
    connected: bool, retryCount: int, place: Place)

  const FRESH := Store([], [], 0, false, 0, AtTop)

  function Add(s: Store, data: SensorData, gotMemory: bool): Store {
    if gotMemory then s.(pending := s.pending + [data]) else s
  }

  /** `openOk` and `tableReady` are the outcomes of the two database calls. */
  function Connect(s: Store, openOk: bool, tableReady: bool): Store {
    if openOk && tableReady then s.(connected := true, retryCount := 0, place := Draining)
    else
      s.(connected := false, retryCount := s.retryCount + 1,
         place := if s.retryCount + 1 >= SQL_RETRY_LIMIT then Exited else AtTop)
  }

  function Drain(s: Store, outcome: seq<Insert>): Store {
    var written := Written(s.pending, outcome);
    s.(pending := Kept(s.pending, outcome), rows := s.rows + written,
       totalReceived := s.totalReceived + |written|, place := AtTop)
  }

  /** What another thread, or the storage thread itself, does next. */
  datatype Event =
    | AddData(data: SensorData, gotMemory: bool)
    | Loop(openOk: bool, tableReady: bool, outcome: seq<Insert>)

  /** The storage thread's next step: connect if it has to, drain if it may.  A process that has exited does nothing. */
  function LoopStep(s: Store, openOk: bool, tableReady: bool, outcome: seq<Insert>): Store {
    match s.place
    case Exited => s
    case Draining => Drain(s, outcome)
    case AtTop => if s.connected then s.(place := Draining) else Connect(s, openOk, tableReady)
  }

  function Step(s: Store, e: Event): Store {
    match e
    case AddData(data, gotMemory) => if s.place.Exited? then s else Add(s, data, gotMemory)
    case Loop(openOk, tableReady, outcome) => LoopStep(s, openOk, tableReady, outcome)
  }

  function Run(events: seq<Event>): Store {
    if events == [] then FRESH
    else Step(Run(events[..|events| - 1]), events[|events| - 1])
  }

  /** The readings that were accepted for storage, in order. */
  function Accepted(events: seq<Event>): seq<SensorData> {
    if events == [] then []
    else
      var before, e := events[..|events| - 1], events[|events| - 1];
      Accepted(before) + if e.AddData? && e.gotMemory && !Run(before).place.Exited? then [e.data] else []
  }

  predicate Attempts(s: Store, e: Event) {
    e.Loop? && s.place.AtTop? && !s.connected
  }

  /** The failed connection attempts since the last one that worked. */
  function FailedInARow(events: seq<Event>): nat {
    if events == [] then 0
    else
      var before, e := events[..|events| - 1], events[|events| - 1];
      if !Attempts(Run(before), e) then FailedInARow(before)
      else if e.openOk && e.tableReady then 0 else FailedInARow(before) + 1
  }

  /**
   Conservation: over every run of additions, connection attempts and passes
   with arbitrary outcomes, what was accepted is in the database or still
   pending, once each, and the counter counts the rows.
   */
  lemma {:induction false} NothingIsLost(events: seq<Event>)
    ensures multiset(Accepted(events)) == multiset(Run(events).rows) + multiset(Run(events).pending)
    ensures Run(events).totalReceived == |Run(events).rows|
  {
    if events != [] {
      var before, e := events[..|events| - 1], events[|events| - 1];
      NothingIsLost(before);
      if e.Loop? && Run(before).place.Draining? {
        PassSplits(Run(before).pending, e.outcome);
      }
    }
  }

  /** Over every run the pending readings are in order of addition. */
  lemma {:induction false} PendingInOrder(events: seq<Event>)
    ensures Subsequence(Run(events).pending, Accepted(events))
  {
    if events != [] {
      var before, e := events[..|events| - 1], events[|events| - 1];
      var pending := Run(before).pending;
      PendingInOrder(before);
      if e.AddData? {
        SubsequenceExtend(pending, Accepted(before), e.data);
        assert Accepted(before) + [] == Accepted(before);
      } else if Run(before).place.Draining? {
        KeptInOrder(pending, e.outcome);
        SubsequenceTransitive(Kept(pending, e.outcome), pending, Accepted(before));
      }
    }
  }

  /**
   The retry loop: `retry_count` is the number of failed attempts in a row and
   stays below the limit while the process runs, the process exits exactly
   when it reaches it, draining happens only while connected, and before the
   first connection every accepted reading is pending, in order.
   */
  lemma {:induction false} RetryLoop(events: seq<Event>)
    ensures var s := Run(events);
      && s.retryCount == FailedInARow(events)
      && (s.place.Exited? <==> s.retryCount >= SQL_RETRY_LIMIT)
      && s.retryCount <= SQL_RETRY_LIMIT
      && (s.place.Draining? ==> s.connected)
      && (!s.connected ==> s.rows == [] && s.pending == Accepted(events))
      && (s.connected ==> s.retryCount == 0)
  {
    if events != [] {
      RetryLoop(events[..|events| - 1]);
    }
  }

  // ---- The order of the rows ----

  ghost predicate Distinct<T>(s: seq<T>) {
    forall i, j :: 0 <= i < j < |s| ==> s[i] != s[j]
  }

  /** Of the first `n` inserts, none works after one that failed: the pass writes the front of the list. */
  ghost predicate WritesFront(outcome: seq<Insert>, n: nat) {
    forall j, k :: 0 <= j < k < n && At(outcome, k).Inserted? ==> At(outcome, j).Inserted?
  }

  lemma {:induction false} PassLengths(pending: seq<SensorData>, outcome: seq<Insert>)
    ensures |Written(pending, outcome)| + |Kept(pending, outcome)| == |pending|
  {
    if pending != [] {
      PassLengths(pending[..|pending| - 1], outcome);
    }
  }

  lemma {:induction false} NothingKept(pending: seq<SensorData>, outcome: seq<Insert>)
    requires Kept(pending, outcome) == []
    ensures forall k :: 0 <= k < |pending| ==> At(outcome, k).Inserted?
  {
    if pending != [] {
      NothingKept(pending[..|pending| - 1], outcome);
    }
  }

  lemma {:induction false} FrontPassKeepsOrder(pending: seq<SensorData>, outcome: seq<Insert>)
    requires WritesFront(outcome, |pending|)
    ensures Written(pending, outcome) + Kept(pending, outcome) == pending
  {
    if pending != [] {
      var n := |pending| - 1;
      var written, kept := Written(pending[..n], outcome), Kept(pending[..n], outcome);
      FrontPassKeepsOrder(pending[..n], outcome);
      assert pending == (written + kept) + [pending[n]];
      if At(outcome, n).Inserted? {
        AllInserted(pending[..n], outcome);
        assert kept == [] && written + [pending[n]] + [] == (written + kept) + [pending[n]];
      } else {
        assert written + (kept + [pending[n]]) == (written + kept) + [pending[n]];
      }
    }
  }

  lemma {:induction false} LastIsOnce<T>(s: seq<T>, a: seq<T>, b: seq<T>)
    requires Distinct(s) && s != [] && a + [s[|s| - 1]] + b == s
    ensures b == []
  {
    assert (a + [s[|s| - 1]] + b)[|a|] == s[|s| - 1];
  }

  lemma {:induction false} OrderlyPassWritesFront(pending: seq<SensorData>, outcome: seq<Insert>)
    requires Distinct(pending) && Written(pending, outcome) + Kept(pending, outcome) == pending
    ensures WritesFront(outcome, |pending|)
  {
    if pending != [] {
      var n := |pending| - 1;
      var written, kept := Written(pending[..n], outcome), Kept(pending[..n], outcome);
      PassLengths(pending[..n], outcome);
      if At(outcome, n).Inserted? {
        LastIsOnce(pending, written, kept);
        NothingKept(pending[..n], outcome);
      } else {
        assert written + (kept + [pending[n]]) == (written + kept) + [pending[n]];
        OrderlyPassWritesFront(pending[..n], outcome);
      }
    }
  }

  /**
   Every pass of the run wrote the front of what was pending: all of it, a part
   before the first failure, or, while the database is out, nothing.
   */
  ghost predicate FrontPasses(events: seq<Event>) {
    events == [] ||
    var before, e := events[..|events| - 1], events[|events| - 1];
    && FrontPasses(before)
    && (e.Loop? && Run(before).place.Draining? ==> WritesFront(e.outcome, |Run(before).pending|))
  }

  /** The rows followed by the pending readings are the accepted ones in order of addition. */
  ghost predicate InOrder(events: seq<Event>) {
    Run(events).rows + Run(events).pending == Accepted(events)
  }

  lemma {:induction false} FrontPassesKeepOrder(events: seq<Event>)
    requires FrontPasses(events)
    ensures InOrder(events)
  {
    if events != [] {
      var before, e := events[..|events| - 1], events[|events| - 1];
      FrontPassesKeepOrder(before);
      var s := Run(before);
      if e.Loop? && s.place.Draining? {
        FrontPassKeepsOrder(s.pending, e.outcome);
        assert s.rows + Written(s.pending, e.outcome) + Kept(s.pending, e.outcome)
            == s.rows + (Written(s.pending, e.outcome) + Kept(s.pending, e.outcome));
      }
    }
  }

  lemma {:induction false} SubsequenceMember<T>(a: seq<T>, b: seq<T>, x: T)
    requires Subsequence(a, b) && x in a
    ensures x in b
    decreases |b|
  {
    var b' := b[..|b| - 1];
    if Subsequence(a, b') {
      SubsequenceMember(a, b', x);
    } else if x != a[|a| - 1] {
      SubsequenceMember(a[..|a| - 1], b', x);
    }
  }

  lemma {:induction false} ButLast<T>(s: seq<T>)
    requires s != []
    ensures multiset(s[..|s| - 1]) == multiset(s) - multiset{s[|s| - 1]}
  {
    assert s == s[..|s| - 1] + [s[|s| - 1]];
  }

  /** A subsequence that holds the last element of distinct ones ends with it. */
  lemma {:induction false} SubsequenceEnds<T>(t: seq<T>, a: seq<T>)
    requires Distinct(a) && a != [] && a[|a| - 1] in t && Subsequence(t, a)
    ensures t[|t| - 1] == a[|a| - 1] && Subsequence(t[..|t| - 1], a[..|a| - 1])
  {
    var n := |a| - 1;
    if Subsequence(t, a[..n]) {
      SubsequenceMember(t, a[..n], a[n]);
      assert false;
    }
  }

  lemma {:induction false} TailParts<T>(a: seq<T>, k: nat)
    requires Distinct(a) && k < |a|
    ensures Distinct(a[..|a| - 1])
    ensures a[k..] == a[..|a| - 1][k..] + [a[|a| - 1]]
    ensures multiset(a[k..]) == multiset(a[..|a| - 1][k..]) + multiset{a[|a| - 1]}
  {
    assert a[k..] == a[..|a| - 1][k..] + [a[|a| - 1]];
  }

  lemma {:induction false} SubsequenceIsTailStep<T>(t: seq<T>, a: seq<T>, k: nat)
    requires Distinct(a) && k < |a| && Subsequence(t, a) && multiset(t) == multiset(a[k..])
    ensures t != [] && t[|t| - 1] == a[|a| - 1] && Subsequence(t[..|t| - 1], a[..|a| - 1])
    ensures multiset(t[..|t| - 1]) == multiset(a[..|a| - 1][k..])
  {
    TailParts(a, k);
    assert a[|a| - 1] in multiset(t);
    SubsequenceEnds(t, a);
    ButLast(t);
  }

  /** A subsequence of `a` with the elements of its tail is that tail. */
  lemma {:induction false} SubsequenceIsTail<T>(t: seq<T>, a: seq<T>, k: nat)
    requires Distinct(a) && k <= |a| && Subsequence(t, a) && multiset(t) == multiset(a[k..])
    ensures t == a[k..]
    decreases |a|
  {
    if k == |a| {
      assert |multiset(t)| == 0;
    } else {
      TailParts(a, k);
      SubsequenceIsTailStep(t, a, k);
      SubsequenceIsTail(t[..|t| - 1], a[..|a| - 1], k);
    }
  }

  lemma {:induction false} Rest<T>(a: seq<T>, b: seq<T>, c: seq<T>, all: seq<T>)
    requires a + b + c == all
    ensures |a| <= |all| && all[|a|..] == b + c
  {
  }

  lemma {:induction false} TailDistinct<T>(all: seq<T>, k: nat)
    requires Distinct(all) && k <= |all|
    ensures Distinct(all[k..]) && all == all[..k] + all[k..]
  {
  }

  /** If the rows and then the written and the kept part of a pass are in order, so were the rows and the pending. */
  lemma {:induction false} OrderBeforePass(rows: seq<SensorData>, pending: seq<SensorData>, outcome: seq<Insert>, all: seq<SensorData>)
    requires Distinct(all) && Subsequence(pending, all)
    requires rows + Written(pending, outcome) + Kept(pending, outcome) == all
    ensures rows + pending == all && WritesFront(outcome, |pending|)
  {
    Rest(rows, Written(pending, outcome), Kept(pending, outcome), all);
    PassSplits(pending, outcome);
    SubsequenceIsTail(pending, all, |rows|);
    TailDistinct(all, |rows|);
    OrderlyPassWritesFront(pending, outcome);
  }

  lemma {:induction false} WithoutLast(rows: seq<SensorData>, pending: seq<SensorData>, x: SensorData, all: seq<SensorData>)
    requires rows + (pending + [x]) == all + [x]
    ensures rows + pending == all
  {
    assert rows + (pending + [x]) == (rows + pending) + [x];
    assert (rows + pending + [x])[..|rows + pending|] == rows + pending && (all + [x])[..|all|] == all;
  }

  lemma {:induction false} AcceptedGrows(events: seq<Event>)
    requires events != [] && Distinct(Accepted(events))
    ensures Distinct(Accepted(events[..|events| - 1]))
  {
    var before := Accepted(events[..|events| - 1]);
    assert forall i :: 0 <= i < |before| ==> before[i] == Accepted(events)[i];
  }

  lemma {:induction false} OrderNeedsFrontPasses(events: seq<Event>)
    requires Distinct(Accepted(events)) && InOrder(events)
    ensures FrontPasses(events)
  {
    if events != [] {
      var before, e := events[..|events| - 1], events[|events| - 1];
      var s := Run(before);
      AcceptedGrows(events);
      if e.Loop? && s.place.Draining? {
        PendingInOrder(before);
        OrderBeforePass(s.rows, s.pending, e.outcome, Accepted(before));
      } else if e.AddData? && e.gotMemory && !s.place.Exited? {
        WithoutLast(s.rows, s.pending, e.data, Accepted(before));
      }
      OrderNeedsFrontPasses(before);
    }
  }

  /**
   Exactly when the rows stand in order of addition: every pass so far wrote
   the front of what was pending.  Equal readings could only hide a breach, so
   the converse is about runs whose readings differ.
   */
  lemma {:induction false} OrderKeptIff(events: seq<Event>)
    ensures FrontPasses(events) ==> InOrder(events)
    ensures Distinct(Accepted(events)) ==> (InOrder(events) <==> FrontPasses(events))
  {
    if FrontPasses(events) {
      FrontPassesKeepOrder(events);
    } else if Distinct(Accepted(events)) && InOrder(events) {
      OrderNeedsFrontPasses(events);
    }
  }

  /**
   A pass whose inserts all work, after any run whatever: nothing is left
   pending, the backlog goes behind the old rows in order of addition, and the
   database holds every accepted reading.  If every earlier pass wrote a front,
   passes during an outage included, the whole table is in order of addition.
   */
  lemma {:induction false} CleanPassWritesBacklog(events: seq<Event>, openOk: bool, tableReady: bool, outcome: seq<Insert>)
    requires Run(events).place.Draining?
    requires forall k :: 0 <= k < |Run(events).pending| ==> At(outcome, k).Inserted?
    ensures var s, s' := Run(events), Step(Run(events), Loop(openOk, tableReady, outcome));
      && s'.pending == [] && s'.rows == s.rows + s.pending
      && Subsequence(s.pending, Accepted(events))
      && multiset(s'.rows) == multiset(Accepted(events)) && s'.totalReceived == |Accepted(events)|
      && (FrontPasses(events) ==> s'.rows == Accepted(events))
      && (Distinct(Accepted(events)) ==> (s'.rows == Accepted(events) <==> FrontPasses(events)))
  {
    var s := Run(events);
    AllInserted(s.pending, outcome);
    NothingIsLost(events);
    PendingInOrder(events);
    assert |multiset(s.rows + s.pending)| == |multiset(Accepted(events))|;
    OrderKeptIff(events);
  }

  // ---- Progress ----

  /** The environment answers a step well: the database opens, and the inserts of up to `n` readings work. */
  ghost predicate Helps(openOk: bool, tableReady: bool, outcome: seq<Insert>, n: nat) {
    openOk && tableReady && forall k :: 0 <= k < n ==> At(outcome, k).Inserted?
  }

  /** Everything that was pending is in the table now, behind the old rows and in its order. */
  ghost predicate Drained(s: Store, s': Store) {
    s'.pending == [] && s'.rows == s.rows + s.pending && s'.totalReceived == s.totalReceived + |s.pending| && s'.connected
  }

  lemma {:induction false} DrainsFrom(s: Store, openOk: bool, tableReady: bool, outcome: seq<Insert>)
    requires s.place.Draining? && s.connected && forall k :: 0 <= k < |s.pending| ==> At(outcome, k).Inserted?
    ensures Drained(s, LoopStep(s, openOk, tableReady, outcome))
    ensures LoopStep(s, openOk, tableReady, outcome).place.AtTop?
  {
    AllInserted(s.pending, outcome);
  }

  /**
   The loop never stops draining: after any run of a process that is still
   alive, one or two steps of the storage thread write all that is pending, if
   the inserts work and the database opens in case it has to.
   */
  lemma {:induction false} BacklogIsDrained(events: seq<Event>, first: Event, second: Event)
    requires first.Loop? && second.Loop? && !Run(events).place.Exited?
    requires forall k :: 0 <= k < |Run(events).pending| ==> At(first.outcome, k).Inserted? && At(second.outcome, k).Inserted?
    requires Run(events).connected || (first.openOk && first.tableReady)
    ensures var s := Run(events);
      Drained(s, Step(s, first)) || Drained(s, Step(Step(s, first), second))
    ensures Run(events).place.Draining? ==> Drained(Run(events), Step(Run(events), first))
  {
    RetryLoop(events);
    var s := Run(events);
    if s.place.Draining? {
      DrainsFrom(s, first.openOk, first.tableReady, first.outcome);
    } else {
      DrainsFrom(Step(s, first), second.openOk, second.tableReady, second.outcome);
    }
  }

  lemma {:induction false} NothingToDrain(s: Store, rounds: seq<(bool, bool, seq<Insert>)>)
    requires s.connected && !s.place.Exited? && s.pending == []
    ensures var r := Rounds(s, rounds);
      r.pending == [] && r.rows == s.rows && r.totalReceived == s.totalReceived && r.connected
    decreases |rounds|
  {
    if rounds != [] {
      assert s.rows + [] == s.rows;
      NothingToDrain(LoopStep(s, rounds[0].0, rounds[0].1, rounds[0].2), rounds[1..]);
    }
  }

  /** Two steps or more, all answered well. */
  ghost predicate Helpful(rounds: seq<(bool, bool, seq<Insert>)>, n: nat) {
    |rounds| >= 2 && forall i :: 0 <= i < |rounds| ==> Helps(rounds[i].0, rounds[i].1, rounds[i].2, n)
  }

  lemma {:induction false} RoundsProgress(s: Store, rounds: seq<(bool, bool, seq<Insert>)>)
    ensures !s.place.Exited? && (s.place.Draining? ==> s.connected) && Helpful(rounds, |s.pending|) ==>
      Drained(s, Rounds(s, rounds))
  {
    if !s.place.Exited? && (s.place.Draining? ==> s.connected) && Helpful(rounds, |s.pending|) {
      RoundsDrain(s, rounds);
    }
  }

  lemma {:induction false} RoundsDrain(s: Store, rounds: seq<(bool, bool, seq<Insert>)>)
    requires !s.place.Exited? && (s.place.Draining? ==> s.connected) && Helpful(rounds, |s.pending|)
    ensures Drained(s, Rounds(s, rounds))
  {
    var (a, b) := (rounds[0], rounds[1]);
    assert Helps(a.0, a.1, a.2, |s.pending|) && Helps(b.0, b.1, b.2, |s.pending|);
    var s1 := LoopStep(s, a.0, a.1, a.2);
    if s.place.Draining? {
      DrainsFrom(s, a.0, a.1, a.2);
      NothingToDrain(s1, rounds[1..]);
    } else {
      DrainsFrom(s1, b.0, b.1, b.2);
      assert rounds[1..][1..] == rounds[2..] && rounds[1..][0] == b;
      NothingToDrain(LoopStep(s1, b.0, b.1, b.2), rounds[2..]);
    }
  }

  /** What is pending, and what was written, after the first `done` readings of a pass. */
  ghost function StillPending(p: seq<SensorData>, outcome: seq<Insert>, done: nat): seq<SensorData>
    requires done <= |p|
  {
    Kept(p[..done], outcome) + p[done..]
  }

  ghost function WrittenSoFar(p: seq<SensorData>, outcome: seq<Insert>, done: nat): seq<SensorData>
    requires done <= |p|
  {
    Written(p[..done], outcome)
  }

  ghost function KeptSoFar(p: seq<SensorData>, outcome: seq<Insert>, done: nat): nat
    requires done <= |p|
  {
    |Kept(p[..done], outcome)|
  }

  lemma {:induction false} PassStarts(p: seq<SensorData>, outcome: seq<Insert>)
    ensures StillPending(p, outcome, 0) == p && WrittenSoFar(p, outcome, 0) == [] && KeptSoFar(p, outcome, 0) == 0
  {
  }

  lemma {:induction false} PassEnds(p: seq<SensorData>, outcome: seq<Insert>, done: nat)
    requires done <= |p| && KeptSoFar(p, outcome, done) == |StillPending(p, outcome, done)|
    ensures StillPending(p, outcome, done) == Kept(p, outcome) && WrittenSoFar(p, outcome, done) == Written(p, outcome)
  {
    assert done == |p| && p[..done] == p && p[done..] == [];
  }

  /** One reading of a pass, seen on sequences. */
  lemma {:induction false} PassStep(p: seq<SensorData>, outcome: seq<Insert>, done: nat)
    requires done < |p|
    ensures KeptSoFar(p, outcome, done) < |StillPending(p, outcome, done)|
    ensures StillPending(p, outcome, done)[KeptSoFar(p, outcome, done)] == p[done]
    ensures At(outcome, done).Inserted? ==>
      && StillPending(p, outcome, done + 1) == Without(StillPending(p, outcome, done), KeptSoFar(p, outcome, done))
      && WrittenSoFar(p, outcome, done + 1) == WrittenSoFar(p, outcome, done) + [p[done]]
      && KeptSoFar(p, outcome, done + 1) == KeptSoFar(p, outcome, done)
    ensures !At(outcome, done).Inserted? ==>
      && StillPending(p, outcome, done + 1) == StillPending(p, outcome, done)
      && WrittenSoFar(p, outcome, done + 1) == WrittenSoFar(p, outcome, done)
      && KeptSoFar(p, outcome, done + 1) == KeptSoFar(p, outcome, done) + 1
  {
    var kept, rest := Kept(p[..done], outcome), p[done + 1..];
    assert p[..done + 1][..done] == p[..done];
    assert p[done..] == [p[done]] + rest;
    assert kept + p[done..] == kept + [p[done]] + rest;
    assert Without(kept + p[done..], |kept|) == kept + rest;
  }

  // ---- The storage manager in place ----

  class DataNode {
    var data: SensorData
    var next: DataNode?

    constructor (data: SensorData)
      ensures this.data == data && next == null
    {
      this.data := data;
      next := null;
    }
  }

  class StorageManager {
    var pendingHead: DataNode?
    var totalReceived: int
    var connected: bool
    var retryCount: int
    var rows: seq<SensorData>        // the database table
    var place: Place
    ghost var nodes: seq<DataNode>   // the chain, head first
    ghost var Repr: set<DataNode>    // the nodes it is made of
    ghost var pending: seq<SensorData>

    ghost predicate Valid()
      reads this`pendingHead, this`nodes, this`pending, this`Repr, Repr
    {
      && (forall i :: 0 <= i < |nodes| ==> nodes[i] in Repr)
      && pendingHead == (if nodes == [] then null else nodes[0])
      && (forall i {:trigger nodes[i].next} :: 0 <= i < |nodes| ==>
            nodes[i].next == if i + 1 < |nodes| then nodes[i + 1] else null)
      && (forall i, j :: 0 <= i < j < |nodes| ==> nodes[i] != nodes[j])
      && |pending| == |nodes|
      && (forall i :: 0 <= i < |nodes| ==> nodes[i].data == pending[i])
    }

    ghost function NodeAt(k: nat): DataNode?
      reads this`nodes
    {
      if k < |nodes| then nodes[k] else null
    }

    ghost function NodeBefore(k: nat): DataNode?
      reads this`nodes
      requires k <= |nodes|
    {
      if k == 0 then null else nodes[k - 1]
    }

    ghost function Value(): Store
      reads this
    {
      Store(pending, rows, totalReceived, connected, retryCount, place)
    }

    constructor ()
      ensures Valid() && Value() == FRESH
    {
      pendingHead, totalReceived, connected, retryCount := null, 0, false, 0;
      rows, place, nodes, Repr, pending := [], AtTop, [], {}, [];
    }

    /** Walk to the last node and hang the new one there. */
    method AppendToPending(node: DataNode)
      requires Valid() && node !in Repr && node.next == null
      modifies this`pendingHead, this`nodes, this`pending, this`Repr, Repr
      ensures Valid() && pending == old(pending) + [node.data] && Repr == old(Repr) + {node}
      ensures node.data == old(node.data)
    {
      if pendingHead == null {
        pendingHead := node;
      } else {
        var current: DataNode := pendingHead;
        ghost var k := 0;
        while current.next != null
          invariant k < |nodes| && current == nodes[k]
          decreases |nodes| - k
        {
          current := current.next;
          k := k + 1;
        }
        current.next := node;
        assert k == |nodes| - 1;
      }
      nodes := nodes + [node];
      Repr := Repr + {node};
      pending := pending + [node.data];
    }

    /** `gotMemory` is the outcome of the node allocation. */
    method AddReading(data: SensorData, gotMemory: bool)
      requires Valid()
      modifies this`pendingHead, this`nodes, this`pending, this`Repr, Repr
      ensures fresh(Repr - old(Repr))
      ensures Valid() && Value() == Add(old(Value()), data, gotMemory)
    {
      if gotMemory {
        var node := new DataNode(data);
        AppendToPending(node);
      }
    }

    method ConnectWithRetry(openOk: bool, tableReady: bool) returns (ok: bool)
      requires Valid()
      modifies this`connected, this`retryCount, this`place
      ensures Valid() && Value() == Connect(old(Value()), openOk, tableReady)
      ensures ok <==> openOk && tableReady
    {
      if openOk {
        if tableReady {
          connected, retryCount, place := true, 0, Draining;
          return true;
        }
      }
      connected := false;
      retryCount := retryCount + 1;
      place := if retryCount >= SQL_RETRY_LIMIT then Exited else AtTop;
      return false;
    }

    method RemoveProcessedNode(toRemove: DataNode, prev: DataNode?, ghost k: nat)
      requires Valid() && k < |nodes| && nodes[k] == toRemove
      requires prev == NodeBefore(k)
      modifies this`pendingHead, this`totalReceived, this`nodes, this`pending, Repr
      ensures Valid() && nodes == Without(old(nodes), k) && pending == Without(old(pending), k)
      ensures totalReceived == old(totalReceived) + 1
    {
      assert toRemove.next == if k + 1 < |nodes| then nodes[k + 1] else null;
      if prev != null {
        prev.next := toRemove.next;
      } else {
        pendingHead := toRemove.next;
      }
      totalReceived := totalReceived + 1;
      WithoutAt(nodes, k);
      WithoutAt(pending, k);
      nodes := Without(nodes, k);
      pending := Without(pending, k);
    }

    /** One reading of a pass: insert it and unlink it, or step over it. */
    method ProcessOne(prev: DataNode?, current: DataNode, result: Insert, ghost k: nat)
      returns (prev': DataNode?, current': DataNode?)
      requires Valid() && k < |nodes| && nodes[k] == current
      requires prev == NodeBefore(k)
      modifies this`pendingHead, this`totalReceived, this`nodes, this`pending, this`rows, Repr
      ensures Valid()
      ensures
        if result.Inserted? then
          && nodes == Without(old(nodes), k) && pending == Without(old(pending), k) && prev' == prev
          && rows == old(rows) + [old(pending)[k]] && totalReceived == old(totalReceived) + 1
        else
          && nodes == old(nodes) && pending == old(pending) && prev' == current
          && rows == old(rows) && totalReceived == old(totalReceived)
      ensures current' == if k + 1 < |old(nodes)| then old(nodes)[k + 1] else null
    {
      prev' := prev;
      current' := current.next;
      if !result.PrepareFailed? {
        if result.Inserted? {
          rows := rows + [current.data];
          RemoveProcessedNode(current, prev, k);
        } else {
          prev' := current;
        }
      } else {
        prev' := current;
      }
    }

    /** Where a pass stands after `done` readings of `p`. */
    ghost predicate Passing(prev: DataNode?, current: DataNode?, outcome: seq<Insert>,
                            p: seq<SensorData>, oldRows: seq<SensorData>, oldTotal: int, done: nat)
      reads this, Repr
    {
      && Valid()
      && done <= |p|
      && pending == StillPending(p, outcome, done)
      && rows == oldRows + WrittenSoFar(p, outcome, done)
      && totalReceived == oldTotal + |WrittenSoFar(p, outcome, done)|
      && var k := KeptSoFar(p, outcome, done);
      && k <= |nodes|
      && current == NodeAt(k) && prev == NodeBefore(k)
    }

    method Advance(prev: DataNode?, current: DataNode, outcome: seq<Insert>, result: Insert,
                   ghost p: seq<SensorData>, ghost oldRows: seq<SensorData>, ghost oldTotal: int, ghost done: nat)
      returns (prev': DataNode?, current': DataNode?)
      requires Passing(prev, current, outcome, p, oldRows, oldTotal, done) && result == At(outcome, done)
      modifies this`pendingHead, this`totalReceived, this`nodes, this`pending, this`rows, Repr
      ensures Passing(prev', current', outcome, p, oldRows, oldTotal, done + 1)
    {
      assert done < |p|;
      PassStep(p, outcome, done);
      prev', current' := ProcessOne(prev, current, result, KeptSoFar(p, outcome, done));
    }

    /** A pass that has run off the list is complete. */
    lemma {:induction false} Passed(prev: DataNode?, outcome: seq<Insert>, p: seq<SensorData>, oldRows: seq<SensorData>, oldTotal: int,
                                    done: nat)
      requires Passing(prev, null, outcome, p, oldRows, oldTotal, done)
      ensures pending == Kept(p, outcome) && rows == oldRows + Written(p, outcome)
      ensures totalReceived == oldTotal + |Written(p, outcome)|
    {
      assert KeptSoFar(p, outcome, done) == |nodes|;
      PassEnds(p, outcome, done);
    }

    /** The loop of the pass. */
    method Walk(outcome: seq<Insert>) returns (prev: DataNode?, visited: nat)
      requires Valid()
      modifies this`pendingHead, this`totalReceived, this`nodes, this`pending, this`rows, Repr
      ensures Passing(prev, null, outcome, old(pending), old(rows), old(totalReceived), visited)
    {
      var current := pendingHead;
      prev := null;
      PassStarts(pending, outcome);
      visited := 0;
      while current != null
        invariant Passing(prev, current, outcome, old(pending), old(rows), old(totalReceived), visited)
        decreases |old(pending)| - visited
      {
        prev, current := Advance(prev, current, outcome, At(outcome, visited),
          old(pending), old(rows), old(totalReceived), visited);
        visited := visited + 1;
      }
    }

    method ProcessPendingData(outcome: seq<Insert>)
      requires Valid()
      modifies this`pendingHead, this`totalReceived, this`nodes, this`pending, this`rows, Repr
      ensures Valid()
      ensures pending == Kept(old(pending), outcome)
      ensures rows == old(rows) + Written(old(pending), outcome)
      ensures totalReceived == old(totalReceived) + |Written(old(pending), outcome)|
    {
      var prev, visited := Walk(outcome);
      Passed(prev, outcome, old(pending), old(rows), old(totalReceived), visited);
    }

    /** One step of the storage thread's loop. */
    method TakeTurn(openOk: bool, tableReady: bool, outcome: seq<Insert>)
      requires Valid()
      modifies this`pendingHead, this`totalReceived, this`nodes, this`pending, this`rows, Repr
      modifies this`connected, this`retryCount, this`place
      ensures Valid() && Value() == LoopStep(old(Value()), openOk, tableReady, outcome) && Repr == old(Repr)
    {
      if place.AtTop? {
        if !connected {
          var ok := ConnectWithRetry(openOk, tableReady);
        } else {
          place := Draining;
        }
      } else if place.Draining? {
        ProcessPendingData(outcome);
        place := AtTop;
      }
    }

    /** The storage thread's loop: each element of `rounds` is the environment's answer to one step. */
    method StorageThread(rounds: seq<(bool, bool, seq<Insert>)>)
      requires Valid()
      modifies this`pendingHead, this`totalReceived, this`nodes, this`pending, this`rows, Repr
      modifies this`connected, this`retryCount, this`place
      ensures Valid() && Value() == Rounds(old(Value()), rounds)
      ensures
        !old(place).Exited? && (old(place).Draining? ==> old(connected)) && Helpful(rounds, |old(pending)|) ==>
          pending == [] && rows == old(rows) + old(pending) && totalReceived == old(totalReceived) + |old(pending)|
    {
      RoundsProgress(Value(), rounds);
      var i := 0;
      while i < |rounds|
        invariant 0 <= i <= |rounds| && Valid()
        invariant Rounds(Value(), rounds[i..]) == Rounds(old(Value()), rounds)
      {
        TakeTurn(rounds[i].0, rounds[i].1, rounds[i].2);
        assert rounds[i..][1..] == rounds[i + 1..];
        i := i + 1;
      }
    }
  }

  function Rounds(s: Store, rounds: seq<(bool, bool, seq<Insert>)>): Store
    decreases |rounds|
  {
    if rounds == [] then s
    else Rounds(LoopStep(s, rounds[0].0, rounds[0].1, rounds[0].2), rounds[1..])
  }
}
