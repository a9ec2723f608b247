/**
 The sum of an array by several threads, each of which adds up its own slice,
 for any array, any number of threads and any interleaving.
 */
module ParallelSum {
  function Sum(s: seq<int>): int {
    if s == [] then 0 else Sum(s[..|s| - 1]) + s[|s| - 1]
  }

  lemma {:induction false} SumConcat(a: seq<int>, b: seq<int>)
    ensures Sum(a + b) == Sum(a) + Sum(b)
  {
    if b == [] {
      assert a + b == a;
    } else {
      assert (a + b)[..|a + b| - 1] == a + b[..|b| - 1];
      SumConcat(a, b[..|b| - 1]);
    }
  }

  lemma {:induction false} SumBounds(s: seq<int>, most: nat)
    requires forall i :: 0 <= i < |s| ==> 0 <= s[i] <= most
    ensures 0 <= Sum(s) <= most * |s|
  {
    if s != [] {
      SumBounds(s[..|s| - 1], most);
      assert most * |s| == most * (|s| - 1) + most;
    }
  }

  /** The length of each thread's slice. */
  function Share(length: nat, threads: nat): nat
    requires threads > 0
  {
    length / threads
  }

  /** Where the t-th slice of this length starts. */
  function Bound(t: nat, share: nat): nat {
    if t == 0 then 0 else Bound(t - 1, share) + share
  }

  lemma {:induction false} BoundIsProduct(t: nat, share: nat)
    ensures Bound(t, share) == t * share
  {
    if t > 0 {
      BoundIsProduct(t - 1, share);
      assert t * share == (t - 1) * share + share;
    }
  }

  lemma {:induction false} TimesIsMonotone(a: nat, b: nat, c: nat)
    requires a <= b
    ensures a * c <= b * c
  {
    assert b * c == a * c + (b - a) * c;
  }

  lemma ShareIsQuotient(length: nat, threads: nat)
    requires threads > 0
    ensures threads * Share(length, threads) == length - length % threads
  {
  }

  lemma {:induction false} ShareFits(length: nat, threads: nat, t: nat)
    requires threads > 0 && t < threads
    ensures 0 <= Bound(t, Share(length, threads)) <= Bound(t + 1, Share(length, threads))
    ensures Bound(t + 1, Share(length, threads)) <= Bound(threads, Share(length, threads)) <= length
  {
    BoundIsProduct(t, Share(length, threads));
    BoundIsProduct(t + 1, Share(length, threads));
    BoundIsProduct(threads, Share(length, threads));
    ShareIsQuotient(length, threads);
    TimesIsMonotone(t, t + 1, Share(length, threads));
    TimesIsMonotone(t + 1, threads, Share(length, threads));
  }

  // ---- The threads ----

  /** A thread adds element by element and then stores its sum under the mutex. */
  datatype Phase = Adding(at: nat, sum: int) | Stored

  datatype State = State(a: seq<int>, phases: seq<Phase>, results: seq<int>)

  function Start(a: seq<int>, threads: nat): State
    requires threads > 0
  {
    State(a, seq(threads, t requires 0 <= t => Adding(Bound(t, Share(|a|, threads)), 0)), seq(threads, _ => 0))
  }

  function Step(s: State, t: nat): (s': State)
    requires 0 < |s.phases| == |s.results|
    ensures |s'.phases| == |s.phases| && |s'.results| == |s.results| && s'.a == s.a
  {
    if t >= |s.phases| || s.phases[t].Stored? then s
    else
      var at, sum := s.phases[t].at, s.phases[t].sum;
      if at < Bound(t + 1, Share(|s.a|, |s.phases|)) && at < |s.a|
      then s.(phases := s.phases[t := Adding(at + 1, sum + s.a[at])])
      else s.(results := s.results[t := sum], phases := s.phases[t := Stored])
  }

  function Run(s: State, schedule: seq<nat>): (s': State)
    requires 0 < |s.phases| == |s.results|
    ensures |s'.phases| == |s.phases| && |s'.results| == |s.results| && s'.a == s.a
    decreases |schedule|
  {
    if schedule == [] then s else Run(Step(s, schedule[0]), schedule[1..])
  }

  function Slice(a: seq<int>, threads: nat, t: nat): seq<int>
    requires 0 < threads && t < threads
  {
    ShareFits(|a|, threads, t);
    a[Bound(t, Share(|a|, threads))..Bound(t + 1, Share(|a|, threads))]
  }

  /** Thread `t` has the sum of the part of its slice it has visited, or has stored that of all of it. */
  ghost predicate OnTrack(s: State, t: nat)
    requires t < |s.phases| == |s.results|
  {
    match s.phases[t]
    case Adding(at, sum) =>
      var from := Bound(t, Share(|s.a|, |s.phases|));
      && from <= at <= Bound(t + 1, Share(|s.a|, |s.phases|)) && at <= |s.a|
      && sum == Sum(s.a[from..at])
    case Stored => s.results[t] == Sum(Slice(s.a, |s.phases|, t))
  }

  ghost predicate Inv(s: State) {
    && 0 < |s.phases| == |s.results|
    && forall t :: 0 <= t < |s.phases| ==> OnTrack(s, t)
  }

  lemma {:induction false} SumSnoc(a: seq<int>, from: nat, at: nat)
    requires from <= at < |a|
    ensures Sum(a[from..at + 1]) == Sum(a[from..at]) + a[at]
  {
    var s := a[from..at + 1];
    assert s[..|s| - 1] == a[from..at];
  }

  lemma {:induction false} MoverStaysOnTrack(s: State, t: nat)
    requires Inv(s) && t < |s.phases| && s.phases[t].Adding?
    ensures OnTrack(Step(s, t), t)
  {
    ShareFits(|s.a|, |s.phases|, t);
    var from, at := Bound(t, Share(|s.a|, |s.phases|)), s.phases[t].at;
    assert OnTrack(s, t);
    if at < Bound(t + 1, Share(|s.a|, |s.phases|)) {
      SumSnoc(s.a, from, at);
    }
  }

  lemma {:induction false} StepKeepsInv(s: State, t: nat)
    requires Inv(s)
    ensures Inv(Step(s, t))
  {
    var s' := Step(s, t);
    if t < |s.phases| && s.phases[t].Adding? {
      MoverStaysOnTrack(s, t);
      forall u | 0 <= u < |s.phases| && u != t
        ensures OnTrack(s', u)
      {
        assert OnTrack(s, u);
      }
    }
  }

  lemma {:induction false} RunKeepsInv(s: State, schedule: seq<nat>)
    requires Inv(s)
    ensures Inv(Run(s, schedule))
    decreases |schedule|
  {
    if schedule != [] {
      StepKeepsInv(s, schedule[0]);
      RunKeepsInv(Step(s, schedule[0]), schedule[1..]);
    }
  }

  lemma {:induction false} StartIsOnTrack(a: seq<int>, threads: nat)
    requires threads > 0
    ensures Inv(Start(a, threads))
  {
    var s := Start(a, threads);
    forall t | 0 <= t < threads
      ensures OnTrack(s, t)
    {
      ShareFits(|a|, threads, t);
      assert s.phases[t] == Adding(Bound(t, Share(|a|, threads)), 0);
    }
  }

  predicate AllStored(s: State) {
    forall t :: 0 <= t < |s.phases| ==> s.phases[t].Stored?
  }

  /** The end of the t-th slice, counted from 1; slice 0 is empty. */
  function EndOfSlice(length: nat, threads: nat, t: nat): (e: nat)
    requires 0 < threads && t <= threads
    ensures e <= length
  {
    ShareFits(length, threads, if t < threads then t else t - 1);
    Bound(t, Share(length, threads))
  }

  /** The part of the array that the slices cover: all of it if the threads divide its length. */
  function Covered(a: seq<int>, threads: nat): seq<int>
    requires threads > 0
  {
    a[..EndOfSlice(|a|, threads, threads)]
  }

  lemma {:induction false} NextSlice(a: seq<int>, threads: nat, t: nat)
    requires 0 < threads && t < threads
    ensures Sum(a[..EndOfSlice(|a|, threads, t + 1)]) == Sum(a[..EndOfSlice(|a|, threads, t)]) + Sum(Slice(a, threads, t))
  {
    ShareFits(|a|, threads, t);
    var from, to := EndOfSlice(|a|, threads, t), EndOfSlice(|a|, threads, t + 1);
    assert a[..to] == a[..from] + a[from..to];
    SumConcat(a[..from], a[from..to]);
  }

  lemma {:induction false} SlicesAddUp(a: seq<int>, threads: nat, results: seq<int>)
    requires threads > 0 && |results| <= threads
    requires forall t :: 0 <= t < |results| ==> results[t] == Sum(Slice(a, threads, t))
    ensures Sum(results) == Sum(a[..EndOfSlice(|a|, threads, |results|)])
  {
    if results != [] {
      var n := |results| - 1;
      SlicesAddUp(a, threads, results[..n]);
      NextSlice(a, threads, n);
    }
  }

  /**
   For every array, every number of threads and every interleaving, once all
   threads have stored, the total is the sequential sum of the covered part.
   */
  lemma {:induction false} TotalIsTheSum(a: seq<int>, threads: nat, schedule: seq<nat>)
    requires threads > 0 && AllStored(Run(Start(a, threads), schedule))
    ensures Sum(Run(Start(a, threads), schedule).results) == Sum(Covered(a, threads))
  {
    StartIsOnTrack(a, threads);
    RunKeepsInv(Start(a, threads), schedule);
    var s := Run(Start(a, threads), schedule);
    forall t | 0 <= t < threads
      ensures s.results[t] == Sum(Slice(a, threads, t))
    {
      assert OnTrack(s, t);
    }
    SlicesAddUp(a, threads, s.results);
  }

  /** The total is the whole sum exactly when the elements behind the last slice, if any, add up to nothing. */
  lemma {:induction false} TotalIsCompleteIff(a: seq<int>, threads: nat, schedule: seq<nat>)
    requires threads > 0 && AllStored(Run(Start(a, threads), schedule))
    ensures Sum(Run(Start(a, threads), schedule).results) == Sum(a) <==> Sum(a[|a| - |a| % threads..]) == 0
    ensures |a| % threads == 0 ==> Sum(Run(Start(a, threads), schedule).results) == Sum(a)
  {
    TotalIsTheSum(a, threads, schedule);
    ShareIsQuotient(|a|, threads);
    BoundIsProduct(threads, Share(|a|, threads));
    var covered := |a| - |a| % threads;
    assert Covered(a, threads) == a[..covered];
    assert a == a[..covered] + a[covered..];
    SumConcat(a[..covered], a[covered..]);
  }

  // ---- Progress ----

  /** The steps a thread still has to take, at most; the last one stores. */
  function StepsLeft(p: Phase, length: nat): nat {
    match p
    case Adding(at, _) => if at < length then 1 + length - at else 1
    case Stored => 0
  }

  function Left(phases: seq<Phase>, length: nat): nat {
    if phases == [] then 0 else StepsLeft(phases[0], length) + Left(phases[1..], length)
  }

  lemma {:induction false} LeftUpdate(phases: seq<Phase>, length: nat, t: nat, p: Phase)
    requires t < |phases|
    ensures Left(phases[t := p], length) == Left(phases, length) - StepsLeft(phases[t], length) + StepsLeft(p, length)
  {
    if t == 0 {
      assert phases[0 := p][1..] == phases[1..];
    } else {
      assert phases[t := p][1..] == phases[1..][t - 1 := p];
      LeftUpdate(phases[1..], length, t - 1, p);
    }
  }

  /** A thread that has not stored can step, and its step lowers what is left to do. */
  lemma {:induction false} EveryStepCounts(s: State, t: nat)
    requires 0 < |s.phases| == |s.results| && t < |s.phases| && s.phases[t].Adding?
    ensures Left(Step(s, t).phases, |s.a|) < Left(s.phases, |s.a|)
  {
    LeftUpdate(s.phases, |s.a|, t, Step(s, t).phases[t]);
  }

  lemma {:induction false} FinishFrom(s: State) returns (rest: seq<nat>)
    requires 0 < |s.phases| == |s.results|
    ensures AllStored(Run(s, rest))
    decreases Left(s.phases, |s.a|)
  {
    rest := [];
    if t :| 0 <= t < |s.phases| && !s.phases[t].Stored? {
      EveryStepCounts(s, t);
      var more := FinishFrom(Step(s, t));
      rest := [t] + more;
      assert rest[1..] == more;
    }
  }

  lemma {:induction false} RunConcat(s: State, a: seq<nat>, b: seq<nat>)
    requires 0 < |s.phases| == |s.results|
    ensures Run(s, a + b) == Run(Run(s, a), b)
    decreases |a|
  {
    if a == [] {
      assert a + b == b;
    } else {
      assert (a + b)[1..] == a[1..] + b;
      RunConcat(Step(s, a[0]), a[1..], b);
    }
  }

  /**
   From every state a schedule can reach all threads can be brought to store,
   and then the total is that of the covered part; each step of a thread that
   has not stored lowers a natural number.
   */
  lemma {:induction false} AlwaysFinishes(a: seq<int>, threads: nat, schedule: seq<nat>) returns (rest: seq<nat>)
    requires threads > 0
    ensures var end := Run(Run(Start(a, threads), schedule), rest);
      AllStored(end) && Sum(end.results) == Sum(Covered(a, threads))
    ensures var s := Run(Start(a, threads), schedule);
      forall t: nat :: t < threads && !s.phases[t].Stored? ==> Left(Step(s, t).phases, |a|) < Left(s.phases, |a|)
  {
    var s := Run(Start(a, threads), schedule);
    rest := FinishFrom(s);
    RunConcat(Start(a, threads), schedule, rest);
    TotalIsTheSum(a, threads, schedule + rest);
    forall t: nat | t < threads && !s.phases[t].Stored?
      ensures Left(Step(s, t).phases, |a|) < Left(s.phases, |a|)
    {
      EveryStepCounts(s, t);
    }
  }

  // ---- At the program's sizes ----

  const ARRAY_SIZE: nat := 1000000
  const NUM_THREADS: nat := 4
  const RAND_MAX: nat := 2147483647
  const LLONG_MAX: nat := 9223372036854775807

  /** At the program's sizes no running sum, stored sum or running total leaves the range of `long long`. */
  lemma {:induction false} NothingOverflows(a: seq<int>, schedule: seq<nat>, k: nat)
    requires |a| == ARRAY_SIZE && forall i :: 0 <= i < |a| ==> 0 <= a[i] <= RAND_MAX
    requires k <= NUM_THREADS
    ensures var s := Run(Start(a, NUM_THREADS), schedule);
      && (forall t :: 0 <= t < NUM_THREADS && s.phases[t].Adding? ==> 0 <= s.phases[t].sum <= LLONG_MAX)
      && (AllStored(s) ==> 0 <= Sum(s.results[..k]) <= LLONG_MAX)
  {
    StartIsOnTrack(a, NUM_THREADS);
    RunKeepsInv(Start(a, NUM_THREADS), schedule);
    var s := Run(Start(a, NUM_THREADS), schedule);
    forall t | 0 <= t < NUM_THREADS && s.phases[t].Adding?
      ensures 0 <= s.phases[t].sum <= LLONG_MAX
    {
      assert OnTrack(s, t);
      SumBounds(a[Bound(t, Share(|a|, NUM_THREADS))..s.phases[t].at], RAND_MAX);
    }
    if AllStored(s) {
      forall t | 0 <= t < k
        ensures s.results[..k][t] == Sum(Slice(a, NUM_THREADS, t))
      {
        assert OnTrack(s, t);
      }
      SlicesAddUp(a, NUM_THREADS, s.results[..k]);
      SumBounds(a[..EndOfSlice(|a|, NUM_THREADS, k)], RAND_MAX);
    }
  }

  // ---- The loops ----

  /** `cal_sum`: the sum of one thread's slice, stored in the thread's own place. */
  method CalSum(a: array<int>, results: array<int>, thread: nat)
    requires a != results && results.Length > 0 && thread < results.Length
    modifies results
    ensures results[thread] == Sum(Slice(a[..], results.Length, thread))
    ensures forall t :: 0 <= t < results.Length && t != thread ==> results[t] == old(results[t])
  {
    ShareFits(a.Length, results.Length, thread);
    BoundIsProduct(thread, Share(a.Length, results.Length));
    BoundIsProduct(thread + 1, Share(a.Length, results.Length));
    var size := a.Length / results.Length;
    var start, end := thread * size, (thread + 1) * size;
    ghost var whole := a[..];
    var sum := 0;
    var i := start;
    while i < end
      invariant start <= i <= end
      invariant sum == Sum(whole[start..i]) && results[..] == old(results[..])
    {
      SumSnoc(whole, start, i);
      sum := sum + a[i];
      i := i + 1;
    }
    assert Slice(whole, results.Length, thread) == whole[start..end];
    results[thread] := sum;
    assert a[..] == whole && results[..] == old(results[..])[thread := sum];
  }

  /** The main program's last loop. */
  method TotalSum(results: array<int>) returns (total: int)
    ensures total == Sum(results[..])
  {
    total := 0;
    var i := 0;
    while i < results.Length
      invariant 0 <= i <= results.Length
      invariant total == Sum(results[..i])
    {
      total := total + results[i];
      assert results[..i + 1][..i] == results[..i];
      i := i + 1;
    }
    assert results[..i] == results[..];
  }
}
