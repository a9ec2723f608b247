/**
 The gateway's temperature check: a ring of the last five readings of each
 sensor, its running average, and the two alarms.  Temperatures are real
 numbers; float rounding is not modelled.
 */
module Temperature {
  const TEMPERATURE_HISTORY_SIZE: nat := 5
  const MAX_CONNECTIONS: nat := 100

  /** The ids that the table of histories has a place for. */
  predicate ValidId(id: int) {
    0 <= id < MAX_CONNECTIONS
  }

  const HOT_THRESHOLD: real := 50.0
  const COLD_THRESHOLD: real := 10.0

  function Sum(s: seq<real>): real {
    if s == [] then 0.0 else s[0] + Sum(s[1..])
  }

  function Last(s: seq<real>, n: nat): seq<real> {
    if |s| <= n then s else s[|s| - n..]
  }

  /** The readings the gateway remembers of all it was given. */
  function Recent(samples: seq<real>): seq<real> {
    Last(samples, TEMPERATURE_HISTORY_SIZE)
  }

  function Mean(s: seq<real>): real {
    if s == [] then 0.0 else Sum(s) / |s| as real
  }

  datatype Alarm = InvalidSensor | Overheating | Overcooling | Quiet

  function Classify(average: real): Alarm {
    if average > HOT_THRESHOLD then Overheating else if average < COLD_THRESHOLD then Overcooling else Quiet
  }

  lemma {:induction false} SumConcat(a: seq<real>, b: seq<real>)
    ensures Sum(a + b) == Sum(a) + Sum(b)
  {
    if a == [] {
      assert a + b == b;
    } else {
      assert (a + b)[1..] == a[1..] + b;
      SumConcat(a[1..], b);
    }
  }

  lemma {:induction false} RingSum(ring: seq<real>, index: nat)
    requires index <= |ring|
    ensures Sum(ring[index..] + ring[..index]) == Sum(ring)
  {
    assert ring == ring[..index] + ring[index..];
    SumConcat(ring[..index], ring[index..]);
    SumConcat(ring[index..], ring[..index]);
  }

  lemma {:induction false} SumAtLeast(s: seq<real>, lo: real)
    requires forall i :: 0 <= i < |s| ==> lo <= s[i]
    ensures lo * |s| as real <= Sum(s)
  {
    if s != [] {
      SumAtLeast(s[1..], lo);
      assert lo * |s| as real == lo * |s[1..]| as real + lo;
    }
  }

  lemma {:induction false} SumAtMost(s: seq<real>, hi: real)
    requires forall i :: 0 <= i < |s| ==> s[i] <= hi
    ensures Sum(s) <= hi * |s| as real
  {
    if s != [] {
      SumAtMost(s[1..], hi);
      assert hi * |s| as real == hi * |s[1..]| as real + hi;
    }
  }

  lemma MeanTimesLength(s: seq<real>)
    requires s != []
    ensures Mean(s) * |s| as real == Sum(s)
  {
  }

  lemma {:induction false} ScaledLess(a: real, b: real, n: real)
    requires n > 0.0
    ensures a < b <==> a * n < b * n
  {
    if a < b {
      assert (b - a) * n > 0.0;
    } else {
      assert (a - b) * n >= 0.0;
    }
  }

  lemma {:induction false} MeanCompares(s: seq<real>, c: real)
    requires s != []
    ensures Mean(s) > c <==> Sum(s) > c * |s| as real
    ensures Mean(s) < c <==> Sum(s) < c * |s| as real
  {
    MeanTimesLength(s);
    ScaledLess(c, Mean(s), |s| as real);
    ScaledLess(Mean(s), c, |s| as real);
  }

  lemma {:induction false} MeanAtLeast(s: seq<real>, lo: real)
    requires s != [] && forall i :: 0 <= i < |s| ==> lo <= s[i]
    ensures lo <= Mean(s)
  {
    SumAtLeast(s, lo);
    MeanCompares(s, lo);
  }

  lemma {:induction false} MeanAtMost(s: seq<real>, hi: real)
    requires s != [] && forall i :: 0 <= i < |s| ==> s[i] <= hi
    ensures Mean(s) <= hi
  {
    SumAtMost(s, hi);
    MeanCompares(s, hi);
  }

  /** The average lies between the least and the greatest reading it is taken from. */
  lemma {:induction false} MeanIsBetween(s: seq<real>) returns (least: nat, greatest: nat)
    requires s != []
    ensures least < |s| && greatest < |s|
    ensures forall i :: 0 <= i < |s| ==> s[least] <= s[i] <= s[greatest]
    ensures s[least] <= Mean(s) <= s[greatest]
  {
    least, greatest := Extremes(s);
    MeanAtLeast(s, s[least]);
    MeanAtMost(s, s[greatest]);
  }

  lemma {:induction false} Extremes(s: seq<real>) returns (least: nat, greatest: nat)
    requires s != []
    ensures least < |s| && greatest < |s|
    ensures forall i :: 0 <= i < |s| ==> s[least] <= s[i] <= s[greatest]
  {
    least, greatest := 0, 0;
    if |s| > 1 {
      var l, g := Extremes(s[1..]);
      assert forall i :: 1 <= i < |s| ==> s[i] == s[1..][i - 1];
      least := if s[l + 1] < s[0] then l + 1 else 0;
      greatest := if s[g + 1] > s[0] then g + 1 else 0;
    }
  }

  /** Remembering one more reading only needs what was remembered before. */
  lemma RecentStep(samples: seq<real>, t: real)
    ensures Recent(samples + [t]) == Recent(Recent(samples) + [t])
  {
  }

  /** No window is too hot whose readings are not. */
  lemma {:induction false} MildNeverOverheats(samples: seq<real>)
    requires forall i :: 0 <= i < |samples| ==> samples[i] <= HOT_THRESHOLD
    ensures Classify(Mean(Recent(samples))) != Overheating
  {
    if samples != [] {
      MeanAtMost(Recent(samples), HOT_THRESHOLD);
    }
  }

  /**
   What the alarms mean without a division: the remembered readings sum to more
   than 50 degrees each, or to less than 10.
   */
  lemma {:induction false} AlarmsIff(s: seq<real>)
    requires s != []
    ensures Classify(Mean(s)) == Overheating <==> Sum(s) > 50.0 * |s| as real
    ensures Classify(Mean(s)) == Overcooling <==> Sum(s) < 10.0 * |s| as real
    ensures Classify(Mean(s)) != InvalidSensor
  {
    MeanCompares(s, HOT_THRESHOLD);
    MeanCompares(s, COLD_THRESHOLD);
  }

  /** Overheating is reported when every remembered reading is too hot, and never when none is. */
  lemma {:induction false} ReportsHaveACause(samples: seq<real>)
    requires samples != []
    ensures (forall i :: 0 <= i < |Recent(samples)| ==> Recent(samples)[i] > HOT_THRESHOLD) ==>
      Classify(Mean(Recent(samples))) == Overheating
    ensures Classify(Mean(Recent(samples))) == Overheating ==>
      exists i :: 0 <= i < |Recent(samples)| && Recent(samples)[i] > HOT_THRESHOLD
  {
    var least, greatest := MeanIsBetween(Recent(samples));
  }

  /** A ring read from its oldest reading on. */
  function Read(ring: seq<real>, count: nat, index: nat): seq<real>
    requires count <= |ring| && index <= |ring|
  {
    if count < TEMPERATURE_HISTORY_SIZE then ring[..count] else ring[index..] + ring[..index]
  }

  lemma {:induction false} FillStep(ring: seq<real>, count: nat, t: real)
    requires |ring| == TEMPERATURE_HISTORY_SIZE && count < |ring|
    ensures Read(ring[count := t], count + 1, 0) == Recent(Read(ring, count, 0) + [t])
  {
    assert ring[count := t][..count + 1] == ring[..count] + [t];
    assert count + 1 == |ring| ==> ring[count := t][0..] + ring[count := t][..0] == ring[..count] + [t];
  }

  lemma {:induction false} RecentOfFull(oldest: real, rest: seq<real>, t: real)
    requires |rest| + 1 == TEMPERATURE_HISTORY_SIZE
    ensures Recent([oldest] + rest + [t]) == rest + [t]
  {
  }

  /** Overwriting the oldest reading and moving on forgets it and remembers the new one last. */
  lemma {:induction false} RingStep(ring: seq<real>, index: nat, t: real)
    requires |ring| == TEMPERATURE_HISTORY_SIZE && index < |ring|
    ensures Read(ring[index := t], |ring|, (index + 1) % |ring|) == Recent(Read(ring, |ring|, index) + [t])
  {
    var before, after, next := ring[..index], ring[index + 1..], ring[index := t];
    assert ring[index..] + before + [t] == [ring[index]] + (after + before) + [t];
    RecentOfFull(ring[index], after + before, t);
    if index + 1 == |ring| {
      assert next[0..] + next[..0] == (after + before) + [t];
    } else {
      assert next[index + 1..] + next[..index + 1] == (after + before) + [t];
    }
  }

  class TemperatureHistory {
    const history: array<real>
    var count: nat
    var index: nat
    ghost var samples: seq<real>  // every reading so far

    /** The ring read from the oldest reading on. */
    ghost function Window(): seq<real>
      requires history.Length == TEMPERATURE_HISTORY_SIZE && count <= history.Length && index < history.Length
      reads this, history
    {
      Read(history[..], count, index)
    }

    ghost predicate Valid()
      reads this, history
    {
      && history.Length == TEMPERATURE_HISTORY_SIZE
      && count <= history.Length && index < history.Length
      && (count < TEMPERATURE_HISTORY_SIZE ==> index == 0)
      && Window() == Recent(samples)
    }

    constructor ()
      ensures Valid() && samples == [] && fresh(history)
    {
      history := new real[TEMPERATURE_HISTORY_SIZE](_ => 0.0);
      count, index, samples := 0, 0, [];
    }

    method Update(newTemp: real)
      requires Valid()
      modifies this`count, this`index, this`samples, history
      ensures Valid() && samples == old(samples) + [newTemp]
    {
      ghost var ring := history[..];
      RecentStep(samples, newTemp);
      if count < TEMPERATURE_HISTORY_SIZE {
        FillStep(ring, count, newTemp);
        history[count] := newTemp;
        count := count + 1;
      } else {
        RingStep(ring, index, newTemp);
        history[index] := newTemp;
        index := (index + 1) % TEMPERATURE_HISTORY_SIZE;
      }
      samples := samples + [newTemp];
    }

    /** The loop adds in array order; the sum is that of the readings in time order all the same. */
    method RunningAverage() returns (average: real)
      requires Valid()
      ensures average == Mean(Recent(samples))
    {
      if count == 0 {
        return 0.0;
      }
      var sum := 0.0;
      var i := 0;
      while i < count
        invariant 0 <= i <= count
        invariant sum == Sum(history[..i])
      {
        sum := sum + history[i];
        SumConcat(history[..i], [history[i]]);
        assert history[..i + 1] == history[..i] + [history[i]];
        i := i + 1;
      }
      ReadSum(history[..], count, index);
      assert history[..][..count] == history[..count];
      return sum / count as real;
    }
  }

  lemma {:induction false} ReadSum(ring: seq<real>, count: nat, index: nat)
    requires |ring| == TEMPERATURE_HISTORY_SIZE && count <= |ring| && index < |ring|
    ensures Sum(Read(ring, count, index)) == Sum(ring[..count]) && |Read(ring, count, index)| == count
  {
    RingSum(ring, index);
    assert ring[..|ring|] == ring;
  }

  /** The histories are allocated by the first check; `[]` stands for the null pointer before it. */
  class DataManager {
    var histories: seq<TemperatureHistory>
    ghost var Repr: set<object>  // the histories and their rings

    ghost predicate Valid()
      reads this`histories, this`Repr, Repr
    {
      && (forall i :: 0 <= i < |histories| ==> histories[i] in Repr && histories[i].history in Repr)
      && (histories == [] || |histories| == MAX_CONNECTIONS)
      && (forall i :: 0 <= i < |histories| ==> histories[i].Valid())
      && (forall i, j :: 0 <= i < j < |histories| ==>
            histories[i] != histories[j] && histories[i].history != histories[j].history)
    }

    /** Every reading of sensor `id` so far. */
    ghost function Samples(id: int): seq<real>
      reads this`histories, histories
    {
      if 0 <= id < |histories| then histories[id].samples else []
    }

    constructor ()
      ensures Valid() && histories == [] && Repr == {}
    {
      histories, Repr := [], {};
    }

    /** Allocate the histories if no check has done so yet. */
    method EnsureHistories()
      requires Valid()
      modifies this`histories, this`Repr
      ensures Valid() && |histories| == MAX_CONNECTIONS
      ensures forall id :: Samples(id) == old(Samples(id))
      ensures fresh(Repr - old(Repr))
    {
      if histories != [] {
        return;
      }
      var hs, repr := NewHistories();
      histories, Repr := hs, repr;
    }

    method NewHistories() returns (hs: seq<TemperatureHistory>, ghost repr: set<object>)
      ensures |hs| == MAX_CONNECTIONS && fresh(repr)
      ensures forall i :: 0 <= i < |hs| ==> hs[i].Valid() && hs[i].samples == [] && hs[i] in repr && hs[i].history in repr
      ensures forall i, j :: 0 <= i < j < |hs| ==> hs[i] != hs[j] && hs[i].history != hs[j].history
    {
      hs, repr := [], {};
      while |hs| < MAX_CONNECTIONS
        invariant |hs| <= MAX_CONNECTIONS && fresh(repr)
        invariant forall i :: 0 <= i < |hs| ==> hs[i].Valid() && hs[i].samples == [] && hs[i] in repr && hs[i].history in repr
        invariant forall i, j :: 0 <= i < j < |hs| ==> hs[i] != hs[j] && hs[i].history != hs[j].history
      {
        var h := new TemperatureHistory();
        hs := hs + [h];
        repr := repr + {h, h.history};
      }
    }

    method Record(sensorId: nat, temperature: real)
      requires Valid() && sensorId < |histories|
      modifies histories[sensorId], histories[sensorId].history
      ensures Valid() && histories == old(histories) && Repr == old(Repr)
      ensures forall id :: Samples(id) == (if id == sensorId then old(Samples(id)) + [temperature] else old(Samples(id)))
    {
      var h := histories[sensorId];
      h.Update(temperature);
      forall i | 0 <= i < |histories| && i != sensorId
        ensures histories[i].Valid() && histories[i].samples == old(histories[i].samples)
      {
        assert histories[i] != h && histories[i].history != h.history;
        assert old(histories[i].Valid());
      }
    }

    method CheckKnown(sensorId: nat, temperature: real) returns (alarm: Alarm)
      requires Valid() && sensorId < MAX_CONNECTIONS
      modifies this`histories, this`Repr, Repr
      ensures Valid() && fresh(Repr - old(Repr))
      ensures forall id :: Samples(id) == (if id == sensorId then old(Samples(id)) + [temperature] else old(Samples(id)))
      ensures alarm == Classify(Mean(Recent(Samples(sensorId))))
    {
      EnsureHistories();
      Record(sensorId, temperature);
      var average := histories[sensorId].RunningAverage();
      alarm := Classify(average);
    }

    /**
     A known sensor's reading joins its own window only, the alarm is that of
     the window's average, and the data mutex is given back.  An unknown sensor
     changes nothing, and returns with the mutex held.
     */
    method CheckTemperatureStatus(sensorId: int, temperature: real) returns (alarm: Alarm, held: bool)
      requires Valid()
      modifies this`histories, this`Repr, Repr
      ensures Valid() && fresh(Repr - old(Repr))
      ensures held <==> !ValidId(sensorId)
      ensures alarm == if held then InvalidSensor else Classify(Mean(Recent(Samples(sensorId))))
      ensures forall id ::
        Samples(id) == (if id == sensorId && !held then old(Samples(id)) + [temperature] else old(Samples(id)))
    {
      held := true;
      if sensorId < 0 || sensorId >= MAX_CONNECTIONS {
        return InvalidSensor, held;
      }
      alarm := CheckKnown(sensorId, temperature);
      held := false;
    }
  }
}
