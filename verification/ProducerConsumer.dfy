/**
 The producer and the consumer around one mutex and one condition variable,
 for every buffer size and every interleaving, spurious wake-ups included.
 */
module ProducerConsumer {
  /** Where a thread is in its current round. */
  datatype Phase =
    | Start      // at the loop test, without the mutex
    | Test       // holding the mutex, about to test the condition
    | Asleep     // in pthread_cond_wait, mutex given back
    | Woken      // woken up, must take the mutex again
    | Moved      // item moved and counters updated, about to signal
    | Signalled  // about to unlock
    | Done

  datatype Owner = Nobody | Producer | Consumer

  /** `made` and `taken` are the two buffers; `produced` is the history of all data produced. */
  datatype State = State(
    n: nat, owner: Owner,
    producer: Phase, i: nat, consumer: Phase, j: nat,
    count: int, inNum: nat, outNum: nat,
    made: seq<int>, taken: seq<int>, produced: seq<int>)

  datatype Action = ProducerStep(data: int) | ConsumerStep | SpuriousWake(who: Owner)

  function Init(n: nat): State {
    State(n, Nobody, Start, 0, Start, 0, 0, 0, 0, seq(n, _ => 0), seq(n, _ => 0), [])
  }

  function Put(s: seq<int>, k: nat, x: int): seq<int> {
    if k < |s| then s[k := x] else s
  }

  function ProducerNext(s: State, data: int): State {
    match s.producer
    case Start =>
      if s.i >= s.n then s.(producer := Done)
      else if s.owner.Nobody? then s.(owner := Producer, producer := Test) else s
    case Test =>
      if s.count == s.n then s.(owner := Nobody, producer := Asleep)
      else s.(made := Put(s.made, s.inNum, data), count := s.count + 1, inNum := s.inNum + 1,
              producer := Moved, produced := s.produced + [data])
    case Asleep => s
    case Woken => if s.owner.Nobody? then s.(owner := Producer, producer := Test) else s
    case Moved => s.(producer := Signalled, consumer := if s.consumer.Asleep? then Woken else s.consumer)
    case Signalled => s.(owner := Nobody, producer := Start, i := s.i + 1)
    case Done => s
  }

  function ConsumerNext(s: State): State {
    match s.consumer
    case Start =>
      if s.j >= s.n then s.(consumer := Done)
      else if s.owner.Nobody? then s.(owner := Consumer, consumer := Test) else s
    case Test =>
      if s.count == 0 then s.(owner := Nobody, consumer := Asleep)
      else
        var data := if s.outNum < |s.made| then s.made[s.outNum] else 0;
        s.(taken := Put(s.taken, s.outNum, data), count := s.count - 1, outNum := s.outNum + 1, consumer := Moved)
    case Asleep => s
    case Woken => if s.owner.Nobody? then s.(owner := Consumer, consumer := Test) else s
    case Moved => s.(consumer := Signalled, producer := if s.producer.Asleep? then Woken else s.producer)
    case Signalled => s.(owner := Nobody, consumer := Start, j := s.j + 1)
    case Done => s
  }

  function Step(s: State, a: Action): State {
    match a
    case ProducerStep(data) => ProducerNext(s, data)
    case ConsumerStep => ConsumerNext(s)
    case SpuriousWake(who) =>
      if who.Producer? && s.producer.Asleep? then s.(producer := Woken)
      else if who.Consumer? && s.consumer.Asleep? then s.(consumer := Woken)
      else s
  }

  function Run(s: State, actions: seq<Action>): State
    decreases |actions|
  {
    if actions == [] then s else Run(Step(s, actions[0]), actions[1..])
  }

  predicate Holds(p: Phase) {
    p.Test? || p.Moved? || p.Signalled?
  }

  /** 1 once the item of the current round has been moved. */
  function Ahead(p: Phase): nat {
    if p.Moved? || p.Signalled? then 1 else 0
  }

  /** The mutex excludes, a thread is inside its loop unless it is at the loop test or done. */
  ghost predicate Control(s: State) {
    && (s.owner.Producer? <==> Holds(s.producer))
    && (s.owner.Consumer? <==> Holds(s.consumer))
    && s.i <= s.n && s.j <= s.n
    && (s.producer.Done? ==> s.i == s.n) && (!s.producer.Done? && !s.producer.Start? ==> s.i < s.n)
    && (s.consumer.Done? ==> s.j == s.n) && (!s.consumer.Done? && !s.consumer.Start? ==> s.j < s.n)
  }

  ghost predicate Counters(s: State) {
    && s.inNum == s.i + Ahead(s.producer) <= s.n
    && s.outNum == s.j + Ahead(s.consumer) <= s.n
    && s.count == s.inNum - s.outNum >= 0
  }

  ghost predicate Buffers(s: State) {
    && |s.made| == |s.taken| == s.n
    && s.outNum <= s.inNum <= s.n
    && s.made[..s.inNum] == s.produced
    && s.taken[..s.outNum] == s.made[..s.outNum]
  }

  /** The producer never sleeps, and the consumer only sleeps on an empty buffer or with a signal on its way. */
  ghost predicate Wakeups(s: State) {
    && !s.producer.Asleep? && !s.producer.Woken?
    && (s.consumer.Asleep? ==> s.count == 0 || s.producer.Moved?)
  }

  ghost predicate Inv(s: State) {
    Control(s) && Counters(s) && Buffers(s) && Wakeups(s)
  }

  lemma {:induction false} ProducerKeepsInv(s: State, data: int)
    requires Inv(s)
    ensures Inv(ProducerNext(s, data))
  {
    var s' := ProducerNext(s, data);
    if s.producer.Test? {
      assert s.count < s.n;
      assert s'.made[..s'.inNum] == s.made[..s.inNum] + [data];
      assert s'.made[..s'.outNum] == s.made[..s.outNum];
    }
  }

  lemma {:induction false} ConsumerKeepsInv(s: State)
    requires Inv(s)
    ensures Inv(ConsumerNext(s))
  {
    var s' := ConsumerNext(s);
    if s.consumer.Test? && s.count != 0 {
      assert s'.taken[..s'.outNum] == s.taken[..s.outNum] + [s.made[s.outNum]];
      assert s.made[..s'.outNum] == s.made[..s.outNum] + [s.made[s.outNum]];
    }
  }

  lemma {:induction false} StepKeepsInv(s: State, a: Action)
    requires Inv(s)
    ensures Inv(Step(s, a))
  {
    match a
    case ProducerStep(data) => ProducerKeepsInv(s, data);
    case ConsumerStep => ConsumerKeepsInv(s);
    case SpuriousWake(_) =>
  }

  lemma {:induction false} RunKeepsInv(s: State, actions: seq<Action>)
    requires Inv(s)
    ensures Inv(Run(s, actions)) && Run(s, actions).n == s.n
    decreases |actions|
  {
    if actions != [] {
      StepKeepsInv(s, actions[0]);
      RunKeepsInv(Step(s, actions[0]), actions[1..]);
    }
  }

  /**
   Safety, for every size and interleaving: the counter is the distance of the
   two positions, what was consumed is what was produced first, in order, and
   the producer's full-buffer wait is never entered.
   */
  lemma {:induction false} ConsumedIsProduced(n: nat, actions: seq<Action>)
    ensures var s := Run(Init(n), actions);
      && s.count == s.inNum - s.outNum && 0 <= s.count <= n
      && |s.taken| == n && s.outNum <= |s.produced| == s.inNum <= n
      && s.taken[..s.outNum] == s.produced[..s.outNum]
      && !s.producer.Asleep?
      && (s.producer.Test? ==> s.count < n)
  {
    RunKeepsInv(Init(n), actions);
    var s := Run(Init(n), actions);
    FrontOfFront(s.made, s.inNum, s.outNum);
  }

  lemma FrontOfFront(s: seq<int>, i: nat, j: nat)
    requires j <= i <= |s|
    ensures s[..i][..j] == s[..j]
  {
  }

  /** The data that the producer had in hand at the steps in which it put an item into the buffer. */
  function Offered(s: State, actions: seq<Action>): seq<int>
    decreases |actions|
  {
    if actions == [] then []
    else
      (if actions[0].ProducerStep? && Step(s, actions[0]).inNum > s.inNum then [actions[0].data] else [])
      + Offered(Step(s, actions[0]), actions[1..])
  }

  /** What was produced is what the producer had in hand, in that order: nothing else gets into the buffers. */
  lemma {:induction false} ProducedIsOffered(s: State, actions: seq<Action>)
    ensures Run(s, actions).produced == s.produced + Offered(s, actions)
    decreases |actions|
  {
    if actions == [] {
      assert s.produced + [] == s.produced;
    } else {
      ProducedIsOffered(Step(s, actions[0]), actions[1..]);
    }
  }

  predicate Finished(s: State) {
    s.producer.Done? && s.consumer.Done?
  }

  /** When both have finished, the two buffers are equal and hold everything that was produced. */
  lemma {:induction false} BuffersEndEqual(n: nat, actions: seq<Action>)
    requires Finished(Run(Init(n), actions))
    ensures Run(Init(n), actions).taken == Run(Init(n), actions).made == Run(Init(n), actions).produced
    ensures |Run(Init(n), actions).produced| == n
  {
    RunKeepsInv(Init(n), actions);
    var s := Run(Init(n), actions);
    assert s.made[..n] == s.made && s.taken[..n] == s.taken;
  }

  // ---- Progress ----

  function ProducerLeft(s: State): nat
    requires s.i <= s.n
  {
    4 * (s.n - s.i) +
    match s.producer
    case Start => 3
    case Asleep => 3
    case Woken => 3
    case Test => 2
    case Moved => 1
    case Signalled => 0
    case Done => 0
  }

  function ConsumerLeft(s: State): nat
    requires s.j <= s.n
  {
    6 * (s.n - s.j) +
    match s.consumer
    case Start => 5
    case Woken => 5
    case Test => 4
    case Asleep => 3
    case Moved => 2
    case Signalled => 1
    case Done => 0
  }

  /** A wake-up by the producer's signal costs less than the step that sends it gains. */
  function Left(s: State): nat
    requires s.i <= s.n && s.j <= s.n
  {
    3 * ProducerLeft(s) + ConsumerLeft(s)
  }

  /** A step that is not a spurious wake-up and changes something. */
  predicate Moves(s: State, a: Action) {
    !a.SpuriousWake? && Step(s, a) != s
  }

  /** The step lowers what is left to do. */
  predicate Progresses(s: State, a: Action) {
    var s' := Step(s, a);
    s.i <= s.n && s.j <= s.n && s'.n == s.n && s'.i <= s.n && s'.j <= s.n && Left(s') < Left(s)
  }

  lemma {:induction false} ProducerCounts(s: State, data: int)
    requires Inv(s) && Moves(s, ProducerStep(data))
    ensures Progresses(s, ProducerStep(data))
  {
    assert s.producer.Test? ==> s.count < s.n;
  }

  lemma ConsumerCounts(s: State)
    requires Inv(s) && Moves(s, ConsumerStep)
    ensures Progresses(s, ConsumerStep)
  {
  }

  lemma {:induction false} EveryStepCounts(s: State, a: Action)
    requires Inv(s) && Moves(s, a)
    ensures Progresses(s, a)
  {
    if a.ProducerStep? {
      ProducerCounts(s, a.data);
    } else {
      ConsumerCounts(s);
    }
  }

  /** No wake-up is lost: until both have finished, a thread can take a real step. */
  lemma {:induction false} SomeoneCanStep(s: State) returns (a: Action)
    requires Inv(s) && !Finished(s)
    ensures Moves(s, a)
  {
    if s.owner.Consumer? || (s.owner.Nobody? && s.producer.Done?) {
      a := ConsumerStep;
    } else {
      a := ProducerStep(0);
    }
  }

  lemma {:induction false} FinishFrom(s: State) returns (rest: seq<Action>)
    requires Inv(s)
    ensures Finished(Run(s, rest)) && forall a :: a in rest ==> !a.SpuriousWake?
    decreases Left(s)
  {
    if Finished(s) {
      rest := [];
    } else {
      var a := SomeoneCanStep(s);
      StepKeepsInv(s, a);
      EveryStepCounts(s, a);
      var more := FinishFrom(Step(s, a));
      rest := [a] + more;
      assert rest[1..] == more;
    }
  }

  /**
   Progress, for every size and interleaving: unless both threads have
   finished, one can take a step that is not a spurious wake-up; every such
   step lowers a natural number; so both can always be brought to their end.
   */
  lemma {:induction false} AlwaysFinishes(n: nat, actions: seq<Action>) returns (rest: seq<Action>)
    ensures Finished(Run(Run(Init(n), actions), rest))
    ensures forall a :: a in rest ==> !a.SpuriousWake?
    ensures var s := Run(Init(n), actions);
      Finished(s) || exists a: Action :: Moves(s, a)
    ensures var s := Run(Init(n), actions);
      forall a: Action :: Moves(s, a) ==> Progresses(s, a)
  {
    RunKeepsInv(Init(n), actions);
    var s := Run(Init(n), actions);
    if !Finished(s) {
      var a := SomeoneCanStep(s);
    }
    forall a: Action | Moves(s, a)
      ensures Progresses(s, a)
    {
      EveryStepCounts(s, a);
    }
    rest := FinishFrom(s);
  }
}
