/**
 Readers and writers started in random order around one read-write lock, for
 any number of each.
 */
module ReaderWriter {
  datatype Kind = Reader | Writer

  datatype Launch = Launch(id: int, kind: Kind)

  // ---- The shuffle ----

  /** The readers 1, 2, ... and then the writers 1, 2, ... */
  function Initial(readers: nat, writers: nat): seq<Launch> {
    seq(readers + writers, i requires 0 <= i => if i < readers then Launch(i + 1, Reader) else Launch(i - readers + 1, Writer))
  }

  function Swap<T>(s: seq<T>, i: nat, j: nat): seq<T>
    requires i < |s| && j < |s|
  {
    s[i := s[j]][j := s[i]]
  }

  /** The place that a random number picks among `n`: the remainder. */
  function Place(r: nat, n: nat): (j: nat)
    requires n > 0
    ensures j < n
  {
    if r < n then r else Place(r - n, n)
  }

  lemma {:induction false} PlaceIsRemainder(r: nat, n: nat)
    requires n > 0
    ensures Place(r, n) == r % n
  {
    if r >= n {
      assert r == n * ((r - n) / n + 1) + (r - n) % n;
      PlaceIsRemainder(r - n, n);
      Remainder(r, n, (r - n) / n + 1, (r - n) % n);
    }
  }

  lemma {:induction false} MultiplesAreFar(n: nat, d: int)
    ensures d >= 1 ==> n * d >= n
    ensures d <= -1 ==> n * d <= 0 - n
  {
    assert n * d == n + n * (d - 1) == n * (d + 1) - n;
  }

  lemma {:induction false} Remainder(r: nat, n: nat, a: nat, m: nat)
    requires n > 0 && m < n && r == n * a + m
    ensures r % n == m
  {
    var b, c := r / n, r % n;
    assert r == n * b + c;
    assert n * (a - b) == n * a - n * b;
    MultiplesAreFar(n, a - b);
  }

  /** Place `i` is swapped with the place that the i-th random number picks. */
  function Shuffled(s: seq<Launch>, picks: seq<nat>): (r: seq<Launch>)
    requires |picks| <= |s|
    ensures |r| == |s|
  {
    if picks == [] then s
    else
      var n := |picks| - 1;
      Swap(Shuffled(s, picks[..n]), n, Place(picks[n], |s|))
  }

  lemma SwapPermutes<T>(s: seq<T>, i: nat, j: nat)
    requires i < |s| && j < |s|
    ensures multiset(Swap(s, i, j)) == multiset(s)
  {
  }

  /** Whatever the random numbers, the shuffle permutes the launches: id and kind stay together. */
  lemma {:induction false} ShufflePermutes(s: seq<Launch>, picks: seq<nat>)
    requires |picks| <= |s|
    ensures multiset(Shuffled(s, picks)) == multiset(s)
  {
    if picks != [] {
      var n := |picks| - 1;
      ShufflePermutes(s, picks[..n]);
      SwapPermutes(Shuffled(s, picks[..n]), n, Place(picks[n], |s|));
    }
  }

  // Every order can come out.

  lemma {:induction false} SameTail(s: seq<Launch>, target: seq<Launch>, i: nat)
    requires i <= |s| == |target| && multiset(s) == multiset(target) && s[..i] == target[..i]
    ensures multiset(s[i..]) == multiset(target[i..])
  {
    assert s == s[..i] + s[i..] && target == target[..i] + target[i..];
    Cancel(multiset(s[..i]), multiset(s[i..]), multiset(target[i..]));
  }

  lemma {:induction false} Cancel(a: multiset<Launch>, b: multiset<Launch>, c: multiset<Launch>)
    requires a + b == a + c
    ensures b == c
  {
    forall x: Launch
      ensures b[x] == c[x]
    {
      assert (a + b)[x] == (a + c)[x];
    }
  }

  lemma {:induction false} FoundBehind(s: seq<Launch>, target: seq<Launch>, i: nat) returns (j: nat)
    requires i < |s| == |target| && multiset(s) == multiset(target) && s[..i] == target[..i]
    ensures i <= j < |s| && s[j] == target[i]
  {
    SameTail(s, target, i);
    assert target[i..][0] in multiset(s[i..]);
    var k :| 0 <= k < |s[i..]| && s[i..][k] == target[i..][0];
    j := i + k;
  }

  lemma {:induction false} SwapBrings(s: seq<Launch>, target: seq<Launch>, i: nat) returns (j: nat)
    requires i < |s| == |target| && multiset(s) == multiset(target) && s[..i] == target[..i]
    ensures i <= j < |s| && Swap(s, i, j)[..i + 1] == target[..i + 1] && multiset(Swap(s, i, j)) == multiset(target)
  {
    j := FoundBehind(s, target, i);
    SwapPermutes(s, i, j);
    assert Swap(s, i, j)[..i + 1] == s[..i] + [target[i]];
  }

  lemma {:induction false} OneMorePick(s: seq<Launch>, picks: seq<nat>, j: nat)
    requires |picks| < |s| && j < |s|
    ensures Shuffled(s, picks + [j]) == Swap(Shuffled(s, picks), |picks|, j)
  {
    assert (picks + [j])[..|picks|] == picks;
    assert Place((picks + [j])[|picks|], |s|) == j;
  }

  lemma {:induction false} ReachFront(s: seq<Launch>, target: seq<Launch>, n: nat) returns (picks: seq<nat>)
    requires n <= |s| == |target| && multiset(s) == multiset(target)
    ensures |picks| == n && Shuffled(s, picks)[..n] == target[..n] && multiset(Shuffled(s, picks)) == multiset(target)
  {
    picks := [];
    if n > 0 {
      var fewer := ReachFront(s, target, n - 1);
      var j := SwapBrings(Shuffled(s, fewer), target, n - 1);
      OneMorePick(s, fewer, j);
      picks := fewer + [j];
    }
  }

  /** Some random numbers lead to any given order of the launches. */
  lemma {:induction false} EveryOrderIsReached(s: seq<Launch>, target: seq<Launch>) returns (picks: seq<nat>)
    requires multiset(s) == multiset(target)
    ensures |picks| == |s| && Shuffled(s, picks) == target
  {
    assert |multiset(s)| == |multiset(target)|;
    picks := ReachFront(s, target, |s|);
    assert Shuffled(s, picks)[..|s|] == Shuffled(s, picks) && target[..|s|] == target;
  }

  lemma {:induction false} OnceIn(s: seq<Launch>, k: nat)
    requires k < |s| && forall j :: 0 <= j < |s| && j != k ==> s[j] != s[k]
    ensures multiset(s)[s[k]] == 1
  {
    assert s == s[..k] + ([s[k]] + s[k + 1..]);
    assert s[k] !in s[..k] && s[k] !in s[k + 1..];
    assert multiset(s) == multiset(s[..k]) + (multiset{s[k]} + multiset(s[k + 1..]));
  }

  /** Each reader 1, 2, ... and each writer 1, 2, ... is started exactly once, whatever the order. */
  lemma {:induction false} EachStartsOnce(readers: nat, writers: nat, picks: seq<nat>, l: Launch)
    requires |picks| <= readers + writers
    ensures multiset(Shuffled(Initial(readers, writers), picks))[l]
         == if 1 <= l.id <= (if l.kind.Reader? then readers else writers) then 1 else 0
  {
    ShufflePermutes(Initial(readers, writers), picks);
    OnceAtFirst(readers, writers, l);
  }

  lemma {:induction false} OnceAtFirst(readers: nat, writers: nat, l: Launch)
    ensures multiset(Initial(readers, writers))[l]
         == if 1 <= l.id <= (if l.kind.Reader? then readers else writers) then 1 else 0
  {
    var s := Initial(readers, writers);
    if 1 <= l.id <= (if l.kind.Reader? then readers else writers) {
      OnceIn(s, if l.kind.Reader? then l.id - 1 else readers + l.id - 1);
    } else {
      assert l !in s;
    }
  }

  function NumWriters(s: seq<Launch>): nat {
    if s == [] then 0 else (if s[0].kind.Writer? then 1 else 0) + NumWriters(s[1..])
  }

  lemma {:induction false} NumWritersConcat(a: seq<Launch>, b: seq<Launch>)
    ensures NumWriters(a + b) == NumWriters(a) + NumWriters(b)
  {
    if a == [] {
      assert a + b == b;
    } else {
      assert (a + b)[1..] == a[1..] + b;
      NumWritersConcat(a[1..], b);
    }
  }

  lemma {:induction false} RemoveOne(s: seq<Launch>, k: nat)
    requires k < |s|
    ensures multiset(s[..k] + s[k + 1..]) == multiset(s) - multiset{s[k]}
  {
    assert s == s[..k] + [s[k]] + s[k + 1..];
  }

  lemma {:induction false} NumWritersWithout(s: seq<Launch>, k: nat)
    requires k < |s|
    ensures NumWriters(s) == NumWriters([s[k]]) + NumWriters(s[..k] + s[k + 1..])
  {
    assert s == s[..k] + ([s[k]] + s[k + 1..]);
    NumWritersConcat(s[..k], [s[k]] + s[k + 1..]);
    NumWritersConcat([s[k]], s[k + 1..]);
    NumWritersConcat(s[..k], s[k + 1..]);
  }

  lemma {:induction false} NumWritersOfPermutation(a: seq<Launch>, b: seq<Launch>)
    requires multiset(a) == multiset(b)
    ensures NumWriters(a) == NumWriters(b)
    decreases |a|
  {
    if a == [] {
      assert |multiset(b)| == 0;
    } else {
      assert a[0] in multiset(b);
      var k :| 0 <= k < |b| && b[k] == a[0];
      RemoveOne(b, k);
      RemoveOne(a, 0);
      NumWritersWithout(a, 0);
      NumWritersWithout(b, k);
      NumWritersOfPermutation(a[..0] + a[1..], b[..k] + b[k + 1..]);
    }
  }

  lemma {:induction false} NumWritersAll(s: seq<Launch>, kind: Kind)
    requires forall i :: 0 <= i < |s| ==> s[i].kind == kind
    ensures NumWriters(s) == if kind.Writer? then |s| else 0
  {
    if s != [] {
      NumWritersAll(s[1..], kind);
    }
  }

  /** Whatever the random numbers, exactly the intended number of writers is started. */
  lemma {:induction false} WritersStarted(readers: nat, writers: nat, picks: seq<nat>)
    requires |picks| <= readers + writers
    ensures NumWriters(Shuffled(Initial(readers, writers), picks)) == writers
  {
    var s := Initial(readers, writers);
    ShufflePermutes(s, picks);
    NumWritersOfPermutation(Shuffled(s, picks), s);
    NumWritersAll(s[..readers], Reader);
    NumWritersAll(s[readers..], Writer);
    assert s == s[..readers] + s[readers..];
    NumWritersConcat(s[..readers], s[readers..]);
  }

  const TYPE_READER: int := 0
  const TYPE_WRITER: int := 1

  function KindOf(t: int): Kind {
    if t == TYPE_READER then Reader else Writer
  }

  /** The two parallel arrays, read together. */
  ghost function Launches(ids: array<int>, types: array<int>): (r: seq<Launch>)
    requires ids.Length == types.Length
    reads ids, types
    ensures |r| == ids.Length
  {
    seq(ids.Length, i requires 0 <= i < ids.Length reads ids, types => Launch(ids[i], KindOf(types[i])))
  }

  /** The readers 1, 2, ... and then the writers 1, 2, ... */
  method Fill(ids: array<int>, types: array<int>, readers: nat, writers: nat)
    requires ids != types && ids.Length == types.Length == readers + writers
    modifies ids, types
    ensures Launches(ids, types) == Initial(readers, writers)
  {
    var i := 0;
    while i < readers
      invariant 0 <= i <= readers
      invariant forall k :: 0 <= k < i ==> ids[k] == k + 1 && types[k] == TYPE_READER
    {
      ids[i] := i + 1;
      types[i] := TYPE_READER;
      i := i + 1;
    }
    i := 0;
    while i < writers
      invariant 0 <= i <= writers
      invariant forall k :: 0 <= k < readers ==> ids[k] == k + 1 && types[k] == TYPE_READER
      invariant forall k :: readers <= k < readers + i ==> ids[k] == k - readers + 1 && types[k] == TYPE_WRITER
    {
      ids[readers + i] := i + 1;
      types[readers + i] := TYPE_WRITER;
      i := i + 1;
    }
  }

  /** One swap in both arrays. */
  method SwapLaunches(ids: array<int>, types: array<int>, i: nat, j: nat)
    requires ids != types && ids.Length == types.Length && i < ids.Length && j < ids.Length
    modifies ids, types
    ensures Launches(ids, types) == Swap(old(Launches(ids, types)), i, j)
  {
    var id := ids[i];
    ids[i] := ids[j];
    ids[j] := id;
    var t := types[i];
    types[i] := types[j];
    types[j] := t;
  }

  method FillAndShuffle(ids: array<int>, types: array<int>, readers: nat, writers: nat, picks: seq<nat>)
    requires ids != types && ids.Length == types.Length == readers + writers == |picks|
    modifies ids, types
    ensures Launches(ids, types) == Shuffled(Initial(readers, writers), picks)
  {
    Fill(ids, types, readers, writers);
    var i := 0;
    while i < readers + writers
      invariant 0 <= i <= readers + writers
      invariant Launches(ids, types) == Shuffled(Initial(readers, writers), picks[..i])
    {
      PlaceIsRemainder(picks[i], readers + writers);
      SwapLaunches(ids, types, i, picks[i] % (readers + writers));
      assert picks[..i + 1][..i] == picks[..i];
      i := i + 1;
    }
    assert picks[..i] == picks;
  }

  // ---- The threads ----

  datatype Phase = Ready | Locked | Loaded(value: int) | Stored | Finished(seen: int)

  datatype State = State(launches: seq<Launch>, phases: seq<Phase>, data: int)

  function Start(launches: seq<Launch>): State {
    State(launches, seq(|launches|, _ => Ready), 0)
  }

  predicate Holding(p: Phase) {
    p.Locked? || p.Loaded? || p.Stored?
  }

  /** The read-write lock: a reader is kept out by a writer, a writer by anyone. */
  predicate MayEnter(s: State, t: nat)
    requires t < |s.launches| == |s.phases|
  {
    forall u :: 0 <= u < |s.phases| && Holding(s.phases[u]) ==>
      s.launches[t].kind.Reader? && s.launches[u].kind.Reader?
  }

  /** One step of thread `t`; `data_shared++` is a load and a store. */
  function Step(s: State, t: nat): (s': State)
    requires |s.launches| == |s.phases|
    ensures s'.launches == s.launches && |s'.phases| == |s.phases|
  {
    if t >= |s.phases| then s
    else
      match s.phases[t]
      case Ready => if MayEnter(s, t) then s.(phases := s.phases[t := Locked]) else s
      case Locked => s.(phases := s.phases[t := Loaded(s.data)])
      case Loaded(v) =>
        if s.launches[t].kind.Writer? then s.(data := v + 1, phases := s.phases[t := Stored])
        else s.(phases := s.phases[t := Finished(v)])
      case Stored => s.(phases := s.phases[t := Finished(s.data)])
      case Finished(_) => s
  }

  function Run(s: State, schedule: seq<nat>): (s': State)
    requires |s.launches| == |s.phases|
    ensures s'.launches == s.launches && |s'.phases| == |s.phases|
    decreases |schedule|
  {
    if schedule == [] then s else Run(Step(s, schedule[0]), schedule[1..])
  }

  /** The writers that have stored their increment. */
  function Written(launches: seq<Launch>, phases: seq<Phase>): nat
    requires |launches| == |phases|
  {
    if launches == [] then 0
    else
      (if launches[0].kind.Writer? && (phases[0].Stored? || phases[0].Finished?) then 1 else 0)
      + Written(launches[1..], phases[1..])
  }

  lemma {:induction false} WrittenUpdate(launches: seq<Launch>, phases: seq<Phase>, t: nat, p: Phase)
    requires |launches| == |phases| && t < |phases|
    ensures Written(launches, phases[t := p]) ==
      Written(launches, phases)
      - (if launches[t].kind.Writer? && (phases[t].Stored? || phases[t].Finished?) then 1 else 0)
      + (if launches[t].kind.Writer? && (p.Stored? || p.Finished?) then 1 else 0)
  {
    if t == 0 {
      assert phases[0 := p][1..] == phases[1..];
    } else {
      assert phases[t := p][1..] == phases[1..][t - 1 := p];
      WrittenUpdate(launches[1..], phases[1..], t - 1, p);
    }
  }

  lemma {:induction false} WrittenAtMost(launches: seq<Launch>, phases: seq<Phase>)
    requires |launches| == |phases|
    ensures Written(launches, phases) <= NumWriters(launches)
    ensures (forall t :: 0 <= t < |phases| ==> phases[t].Finished?) ==> Written(launches, phases) == NumWriters(launches)
  {
    if launches != [] {
      WrittenAtMost(launches[1..], phases[1..]);
    }
  }

  ghost predicate Inv(s: State) {
    && |s.launches| == |s.phases|
    && s.data == Written(s.launches, s.phases)
    && (forall t, u ::
          (0 <= t < |s.phases| && 0 <= u < |s.phases| && t != u && Holding(s.phases[t]) && Holding(s.phases[u])) ==>
          s.launches[t].kind.Reader?)
    && (forall t :: 0 <= t < |s.phases| && s.phases[t].Loaded? ==> s.phases[t].value == s.data)
    && (forall t :: 0 <= t < |s.phases| && s.phases[t].Finished? ==> 0 <= s.phases[t].seen <= s.data)
    && (forall t :: 0 <= t < |s.phases| && s.phases[t].Stored? ==> s.launches[t].kind.Writer?)
  }

  lemma {:induction false} StepKeepsInv(s: State, t: nat)
    requires Inv(s)
    ensures Inv(Step(s, t))
  {
    if t < |s.phases| {
      WrittenUpdate(s.launches, s.phases, t, Step(s, t).phases[t]);
    }
  }

  lemma {:induction false} RunKeepsInv(s: State, schedule: seq<nat>)
    requires Inv(s)
    ensures Inv(Run(s, schedule))
    decreases |schedule|
  {
    if schedule != [] {
      StepKeepsInv(s, schedule[0]);
      RunKeepsInv(Step(s, schedule[0]), schedule[1..]);
    }
  }

  lemma {:induction false} NothingWritten(launches: seq<Launch>)
    ensures Written(launches, seq(|launches|, _ => Ready)) == 0
  {
    if launches != [] {
      NothingWritten(launches[1..]);
      assert seq(|launches|, _ => Ready)[1..] == seq(|launches[1..]|, _ => Ready);
    }
  }

  predicate AllFinished(s: State) {
    forall t :: 0 <= t < |s.phases| ==> s.phases[t].Finished?
  }

  /**
   For any number of readers and writers, any shuffle and any schedule the lock
   allows: every value seen lies between 0 and the number of writers, and once
   all threads have been joined the shared value is the number of writers.
   */
  lemma {:induction false} NoIncrementIsLost(readers: nat, writers: nat, picks: seq<nat>, schedule: seq<nat>)
    requires |picks| <= readers + writers
    ensures var s := Run(Start(Shuffled(Initial(readers, writers), picks)), schedule);
      && 0 <= s.data <= writers
      && (forall t :: 0 <= t < |s.phases| && s.phases[t].Finished? ==> 0 <= s.phases[t].seen <= writers)
      && (AllFinished(s) ==> s.data == writers)
  {
    var launches := Shuffled(Initial(readers, writers), picks);
    NothingWritten(launches);
    RunKeepsInv(Start(launches), schedule);
    WritersStarted(readers, writers, picks);
    var s := Run(Start(launches), schedule);
    WrittenAtMost(s.launches, s.phases);
  }

  /** A waiting reader gets the lock exactly when no writer holds it, a waiting writer exactly when nobody does. */
  lemma {:induction false} EntersIff(s: State, t: nat)
    requires |s.launches| == |s.phases| && t < |s.phases| && s.phases[t].Ready?
    ensures s.launches[t].kind.Reader? ==>
      (Step(s, t).phases[t].Locked? <==> forall u :: 0 <= u < |s.phases| && Holding(s.phases[u]) ==> s.launches[u].kind.Reader?)
    ensures s.launches[t].kind.Writer? ==>
      (Step(s, t).phases[t].Locked? <==> forall u :: 0 <= u < |s.phases| ==> !Holding(s.phases[u]))
  {
  }

  // ---- What a thread sees ----

  /** Thread `t` got the lock when `w` writers had stored, and is this far since. */
  ghost predicate SinceLock(s: State, t: nat, w: nat)
    requires t < |s.launches| == |s.phases|
  {
    match s.phases[t]
    case Ready => false
    case Locked => s.data == w
    case Loaded(v) => v == w
    case Stored => s.data == w + 1
    case Finished(v) => v == if s.launches[t].kind.Writer? then w + 1 else w
  }

  lemma {:induction false} StepKeepsSince(s: State, t: nat, w: nat, u: nat)
    requires Inv(s) && t < |s.phases| && SinceLock(s, t, w)
    ensures SinceLock(Step(s, u), t, w)
  {
    if u < |s.phases| && u != t && Holding(s.phases[t]) && s.phases[u].Loaded? {
      assert s.launches[u].kind.Reader?;
    }
  }

  /**
   What a thread sees is what was stored before it got the lock: a reader sees
   the number of writers that had stored by then, a writer one more, its own
   increment, whatever the others do meanwhile.
   */
  lemma {:induction false} SeenIsStored(s: State, t: nat, schedule: seq<nat>)
    requires Inv(s) && t < |s.phases| && s.phases[t].Locked?
    ensures var end := Run(s, schedule).phases[t];
      end.Finished? ==>
        end.seen == Written(s.launches, s.phases) + if s.launches[t].kind.Writer? then 1 else 0
  {
    SinceKept(s, t, Written(s.launches, s.phases), schedule);
  }

  lemma {:induction false} SinceKept(s: State, t: nat, w: nat, schedule: seq<nat>)
    requires Inv(s) && t < |s.phases| && SinceLock(s, t, w)
    ensures SinceLock(Run(s, schedule), t, w)
    decreases |schedule|
  {
    if schedule != [] {
      StepKeepsInv(s, schedule[0]);
      StepKeepsSince(s, t, w, schedule[0]);
      SinceKept(Step(s, schedule[0]), t, w, schedule[1..]);
    }
  }

  // ---- Progress ----

  /** Until all threads have finished, one of them can move. */
  lemma {:induction false} SomeoneCanMove(s: State) returns (t: nat)
    requires |s.launches| == |s.phases| && !AllFinished(s)
    ensures Step(s, t) != s
  {
    if u :| 0 <= u < |s.phases| && Holding(s.phases[u]) {
      t := u;
      assert Step(s, t).phases[t] != s.phases[t];
    } else {
      t :| 0 <= t < |s.phases| && !s.phases[t].Finished?;
      assert Step(s, t).phases[t] == Locked;
    }
  }

  function StepsLeft(p: Phase): nat {
    match p
    case Ready => 4
    case Locked => 3
    case Loaded(_) => 2
    case Stored => 1
    case Finished(_) => 0
  }

  function Left(phases: seq<Phase>): nat {
    if phases == [] then 0 else StepsLeft(phases[0]) + Left(phases[1..])
  }

  lemma {:induction false} LeftUpdate(phases: seq<Phase>, t: nat, p: Phase)
    requires t < |phases|
    ensures Left(phases[t := p]) == Left(phases) - StepsLeft(phases[t]) + StepsLeft(p)
  {
    if t == 0 {
      assert phases[0 := p][1..] == phases[1..];
    } else {
      assert phases[t := p][1..] == phases[1..][t - 1 := p];
      LeftUpdate(phases[1..], t - 1, p);
    }
  }

  /** Every step that changes something lowers what is left to do. */
  lemma {:induction false} EveryStepCounts(s: State, t: nat)
    requires |s.launches| == |s.phases| && Step(s, t) != s
    ensures Left(Step(s, t).phases) < Left(s.phases)
  {
    LeftUpdate(s.phases, t, Step(s, t).phases[t]);
  }

  lemma {:induction false} FinishFrom(s: State) returns (rest: seq<nat>)
    requires |s.launches| == |s.phases|
    ensures AllFinished(Run(s, rest))
    decreases Left(s.phases)
  {
    rest := [];
    if !AllFinished(s) {
      var t := SomeoneCanMove(s);
      EveryStepCounts(s, t);
      var more := FinishFrom(Step(s, t));
      rest := [t] + more;
      assert rest[1..] == more;
    }
  }

  /**
   Progress, from every state a schedule can reach: all threads can be brought
   to their end, where the shared value is the number of writers, and steps
   that change something cannot go on for ever.
   */
  lemma {:induction false} AlwaysFinishes(readers: nat, writers: nat, picks: seq<nat>, schedule: seq<nat>)
    returns (rest: seq<nat>)
    requires |picks| <= readers + writers
    ensures var s := Run(Start(Shuffled(Initial(readers, writers), picks)), schedule);
      && AllFinished(Run(s, rest)) && Run(s, rest).data == writers
      && forall t: nat :: Step(s, t) != s ==> Left(Step(s, t).phases) < Left(s.phases)
  {
    var launches := Shuffled(Initial(readers, writers), picks);
    var s := Run(Start(launches), schedule);
    rest := FinishFrom(s);
    NothingWritten(launches);
    RunKeepsInv(Start(launches), schedule);
    RunKeepsInv(s, rest);
    WritersStarted(readers, writers, picks);
    WrittenAtMost(launches, Run(s, rest).phases);
    forall t: nat | Step(s, t) != s
      ensures Left(Step(s, t).phases) < Left(s.phases)
    {
      EveryStepCounts(s, t);
    }
  }
}
