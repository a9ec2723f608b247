/**
 The data manager at work on the gateway's list: which readings reach which
 window, and what a gateway run on generated readings can report.
 */
module GatewayTemperature {
  import opened SensorConnections
  import opened GatewayThreads
  import opened Temperature
  import L = LockOrder

  // ---- What the passes add up to ----

  /** The checks that one pass completes: those of active sensors with a reading, up to an id that the table lacks. */
  function Checks(list: seq<Entry>): seq<Entry> {
    if list == [] then []
    else if !L.IsChecked(list[0]) then Checks(list[1..])
    else if !ValidId(list[0].conn.sensorId) then []
    else [list[0]] + Checks(list[1..])
  }

  /** The pass meets an id that the table lacks, and keeps the data mutex. */
  predicate Hangs(list: seq<Entry>) {
    list != [] && if L.IsChecked(list[0]) && !ValidId(list[0].conn.sensorId) then true else Hangs(list[1..])
  }

  function AllChecks(lists: seq<seq<Entry>>): seq<Entry> {
    if lists == [] then []
    else Checks(lists[0]) + if Hangs(lists[0]) then [] else AllChecks(lists[1..])
  }

  /** The temperatures that a log of checks holds for one id; the data manager samples a reading at every pass. */
  function Temperatures(log: seq<Entry>, id: int): seq<real> {
    if log == [] then []
    else
      var e := log[|log| - 1];
      Temperatures(log[..|log| - 1], id) + if e.conn.sensorId == id then [e.latest.temperature] else []
  }

  /** What the last check of a log reports. */
  function Report(log: seq<Entry>): Alarm
    requires log != []
  {
    Classify(Mean(Recent(Temperatures(log, log[|log| - 1].conn.sensorId))))
  }

  lemma {:induction false} ChecksAreChecked(list: seq<Entry>)
    ensures forall e :: e in Checks(list) ==> e in list && L.IsChecked(e) && ValidId(e.conn.sensorId)
  {
    if list != [] {
      ChecksAreChecked(list[1..]);
    }
  }

  /** What the data manager looks at: an active sensor that has a reading. */
  predicate Samples(e: Entry) {
    e.conn.isActive && e.latest.isValid
  }

  predicate Unknown(e: Entry) {
    Samples(e) && !(0 <= e.conn.sensorId < 100)
  }

  /** A pass hangs exactly if it meets an active sensor with a reading whose id is outside 0..99. */
  lemma {:induction false} HangsIff(list: seq<Entry>)
    ensures Hangs(list) <==> exists k :: 0 <= k < |list| && Unknown(list[k])
  {
    if list != [] {
      HangsIff(list[1..]);
      assert forall k :: 1 <= k < |list| ==> list[k] == list[1..][k - 1];
      if Hangs(list[1..]) {
        var k :| 0 <= k < |list[1..]| && Unknown(list[1..][k]);
        assert Unknown(list[k + 1]);
      }
    }
  }

  /** Entry `k` is sampled exactly if it is active, has a reading, and no entry up to it has an unknown id. */
  lemma {:induction false} SampledIff(list: seq<Entry>, k: nat)
    requires k < |list|
    ensures Samples(list[k]) && !Hangs(list[..k + 1]) ==> Checks(list[..k]) + [list[k]] <= Checks(list)
    ensures !Samples(list[k]) && !Hangs(list[..k]) ==> Checks(list[..k + 1]) == Checks(list[..k])
    ensures Hangs(list[..k]) ==> Checks(list) == Checks(list[..k])
  {
    var e, tail := list[0], list[1..];
    if k == 0 {
      assert list[..1] == [e] && list[..0] == [] && [e][1..] == [];
      assert Hangs([e]) <==> Unknown(e);
      assert Checks([e]) == if Samples(e) && !Unknown(e) then [e] + Checks([e][1..]) else [];
    } else {
      SampledIff(tail, k - 1);
      assert list[..k][1..] == tail[..k - 1] && list[..k + 1][1..] == tail[..k];
    }
  }

  /** Each check of a log adds its own temperature to its own sensor's readings, behind the older ones. */
  lemma {:induction false} TemperatureLands(log: seq<Entry>, k: nat)
    requires k < |log|
    ensures Temperatures(log[..k], log[k].conn.sensorId) + [log[k].latest.temperature]
         <= Temperatures(log, log[k].conn.sensorId)
  {
    var n := |log| - 1;
    if k < n {
      TemperatureLands(log[..n], k);
      assert log[..n][..k] == log[..k];
    }
  }

  // ---- The passes in place ----

  /** The readings that sensor `id` was sampled with are those of the log. */
  ghost predicate Follows(dm: DataManager, log: seq<Entry>, id: int)
    reads dm`histories, dm.histories
  {
    dm.Samples(id) == Temperatures(log, id)
  }

  /** The windows hold exactly the checks of the log. */
  ghost predicate Holds(dm: DataManager, log: seq<Entry>)
    reads dm`histories, dm`Repr, dm.histories, dm.Repr
  {
    dm.Valid() && forall id: int :: Follows(dm, log, id)
  }

  lemma {:induction false} TemperaturesSnoc(log: seq<Entry>, e: Entry, id: int)
    ensures Temperatures(log + [e], id)
         == Temperatures(log, id) + if e.conn.sensorId == id then [e.latest.temperature] else []
  {
    assert (log + [e])[..|log|] == log;
  }

  lemma {:induction false} LastReport(log: seq<Entry>, e: Entry)
    ensures Report(log + [e]) == Classify(Mean(Recent(Temperatures(log + [e], e.conn.sensorId))))
  {
  }

  method CheckOne(dm: DataManager, e: Entry, ghost log: seq<Entry>) returns (alarm: Alarm, held: bool)
    requires Holds(dm, log)
    modifies dm`histories, dm`Repr, dm.Repr
    ensures fresh(dm.Repr - old(dm.Repr))
    ensures held <==> !ValidId(e.conn.sensorId)
    ensures if held then Holds(dm, log) && alarm == InvalidSensor else Holds(dm, log + [e]) && alarm == Report(log + [e])
  {
    alarm, held := dm.CheckTemperatureStatus(e.conn.sensorId, e.latest.temperature);
    ghost var log' := if held then log else log + [e];
    forall id: int
      ensures Follows(dm, log', id)
    {
      assert old(Follows(dm, log, id));
      TemperaturesSnoc(log, e, id);
    }
    if !held {
      assert Follows(dm, log', e.conn.sensorId);
      LastReport(log, e);
    }
  }

  /** What the checks `done` report on top of an older log, one by one. */
  function Reports(log: seq<Entry>, done: seq<Entry>): (r: seq<Alarm>)
    ensures |r| == |done|
  {
    if done == [] then [] else Reports(log, done[..|done| - 1]) + [Report(log + done)]
  }

  /** The first `i` nodes of the list led to the checks `done`, and the rest decides how the pass goes on. */
  ghost predicate Passing(list: seq<Entry>, i: nat, done: seq<Entry>) {
    i <= |list| && done + Checks(list[i..]) == Checks(list) && Hangs(list[i..]) == Hangs(list)
  }

  lemma {:induction false} PassingStep(list: seq<Entry>, i: nat, done: seq<Entry>)
    requires i < |list| && Passing(list, i, done)
    ensures var e := list[i];
      if !L.IsChecked(e) then Passing(list, i + 1, done)
      else if ValidId(e.conn.sensorId) then Passing(list, i + 1, done + [e])
      else done == Checks(list) && Hangs(list)
  {
    assert list[i..][1..] == list[i + 1..];
    assert done + [] == done;
    assert done + ([list[i]] + Checks(list[i + 1..])) == done + [list[i]] + Checks(list[i + 1..]);
  }

  lemma {:induction false} PassStarts(list: seq<Entry>, log: seq<Entry>)
    ensures Passing(list, 0, []) && log + [] == log && Reports(log, []) == []
  {
    assert list[0..] == list && [] + Checks(list) == Checks(list);
  }

  lemma {:induction false} PassEnds(list: seq<Entry>, done: seq<Entry>)
    requires Passing(list, |list|, done)
    ensures done == Checks(list) && !Hangs(list)
  {
    assert list[|list|..] == [] && done + [] == done;
  }

  /** The windows and the alarms are those of the checks `done`. */
  ghost predicate Done(dm: DataManager, log: seq<Entry>, done: seq<Entry>, alarms: seq<Alarm>)
    reads dm`histories, dm`Repr, dm.histories, dm.Repr
  {
    Holds(dm, log + done) && alarms == Reports(log, done)
  }

  lemma {:induction false} OneMore(log: seq<Entry>, done: seq<Entry>, e: Entry)
    ensures log + done + [e] == log + (done + [e])
    ensures Reports(log, done + [e]) == Reports(log, done) + [Report(log + done + [e])]
  {
    assert log + done + [e] == log + (done + [e]);
    assert (done + [e])[..|done|] == done;
  }

  /** One node of a pass: check it, or step over it. */
  method CheckNext(dm: DataManager, list: seq<Entry>, i: nat, before: seq<Alarm>, ghost log: seq<Entry>, ghost done: seq<Entry>)
    returns (alarms: seq<Alarm>, held: bool, ghost done': seq<Entry>)
    requires i < |list| && Passing(list, i, done) && Done(dm, log, done, before)
    modifies dm`histories, dm`Repr, dm.Repr
    ensures fresh(dm.Repr - old(dm.Repr))
    ensures Done(dm, log, done', alarms)
    ensures if held then done' == Checks(list) && Hangs(list) else Passing(list, i + 1, done')
  {
    PassingStep(list, i, done);
    alarms, held, done' := before, false, done;
    if L.IsChecked(list[i]) {
      OneMore(log, done, list[i]);
      var alarm;
      alarm, held := CheckOne(dm, list[i], log + done);
      if !held {
        alarms, done' := alarms + [alarm], done + [list[i]];
      }
    }
  }

  /** One pass of the data manager over the list. */
  method CheckList(dm: DataManager, list: seq<Entry>, ghost log: seq<Entry>) returns (alarms: seq<Alarm>, held: bool)
    requires Holds(dm, log)
    modifies dm`histories, dm`Repr, dm.Repr
    ensures fresh(dm.Repr - old(dm.Repr))
    ensures Done(dm, log, Checks(list), alarms) && held == Hangs(list)
  {
    alarms := [];
    ghost var done: seq<Entry> := [];
    PassStarts(list, log);
    var i := 0;
    while i < |list|
      invariant fresh(dm.Repr - old(dm.Repr))
      invariant Passing(list, i, done) && Done(dm, log, done, alarms)
    {
      alarms, held, done := CheckNext(dm, list, i, alarms, log, done);
      if held {
        return;
      }
      i := i + 1;
    }
    PassEnds(list, done);
    held := false;
  }

  lemma {:induction false} ReportsConcat(log: seq<Entry>, done: seq<Entry>, more: seq<Entry>)
    ensures Reports(log, done + more) == Reports(log, done) + Reports(log + done, more)
  {
    if more == [] {
      assert done + more == done;
    } else {
      assert (done + more)[..|done + more| - 1] == done + more[..|more| - 1];
      assert log + done + more == log + (done + more);
      ReportsConcat(log, done, more[..|more| - 1]);
    }
  }

  /** The first `i` passes led to the checks `done`, and the rest are still to come. */
  ghost predicate Working(lists: seq<seq<Entry>>, i: nat, done: seq<Entry>) {
    i <= |lists| && done + AllChecks(lists[i..]) == AllChecks(lists)
  }

  lemma {:induction false} WorkingStep(lists: seq<seq<Entry>>, i: nat, done: seq<Entry>)
    requires i < |lists| && Working(lists, i, done)
    ensures var more := done + Checks(lists[i]);
      if Hangs(lists[i]) then more == AllChecks(lists) else Working(lists, i + 1, more)
  {
    var checks, rest := Checks(lists[i]), if Hangs(lists[i]) then [] else AllChecks(lists[i + 1..]);
    assert lists[i..][1..] == lists[i + 1..];
    assert AllChecks(lists[i..]) == checks + rest;
    Grouped(done, checks, rest);
    assert checks + [] == checks;
  }

  lemma Grouped<T>(a: seq<T>, b: seq<T>, c: seq<T>)
    ensures a + b + c == a + (b + c)
  {
  }

  lemma {:induction false} WorkStarts(lists: seq<seq<Entry>>)
    ensures Working(lists, 0, [])
  {
    assert lists[0..] == lists && [] + AllChecks(lists) == AllChecks(lists);
  }

  lemma {:induction false} WorkEnds(lists: seq<seq<Entry>>, done: seq<Entry>)
    requires done == AllChecks(lists) || Working(lists, |lists|, done)
    ensures done == AllChecks(lists)
  {
    assert lists[|lists|..] == [] && done + [] == done;
  }

  /** One pass of the thread, on top of the checks `done` of the passes before. */
  method NextPass(dm: DataManager, lists: seq<seq<Entry>>, i: nat, before: seq<Alarm>, ghost log: seq<Entry>, ghost done: seq<Entry>)
    returns (alarms: seq<Alarm>, held: bool, ghost done': seq<Entry>)
    requires i < |lists| && Working(lists, i, done) && Done(dm, log, done, before)
    modifies dm`histories, dm`Repr, dm.Repr
    ensures fresh(dm.Repr - old(dm.Repr))
    ensures Done(dm, log, done', alarms)
    ensures if held then done' == AllChecks(lists) else Working(lists, i + 1, done')
  {
    WorkingStep(lists, i, done);
    Grouped(log, done, Checks(lists[i]));
    ReportsConcat(log, done, Checks(lists[i]));
    alarms, held := CheckList(dm, lists[i], log + done);
    alarms, done' := before + alarms, done + Checks(lists[i]);
  }

  /** The loop of the thread. */
  method Work(dm: DataManager, lists: seq<seq<Entry>>, ghost log: seq<Entry>) returns (alarms: seq<Alarm>, ghost done: seq<Entry>)
    requires Done(dm, log, [], [])
    modifies dm`histories, dm`Repr, dm.Repr
    ensures Done(dm, log, done, alarms)
    ensures done == AllChecks(lists) || Working(lists, |lists|, done)
  {
    alarms, done := [], [];
    var i := 0;
    WorkStarts(lists);
    while i < |lists|
      invariant fresh(dm.Repr - old(dm.Repr))
      invariant Working(lists, i, done) && Done(dm, log, done, alarms)
    {
      var held;
      alarms, held, done := NextPass(dm, lists, i, alarms, log, done);
      if held {
        return;
      }
      i := i + 1;
    }
  }

  /**
   The data manager's thread: pass after pass, each over the list as it finds
   it, until a pass leaves the mutex held; the next check would wait for ever.
   */
  method DataManagerThread(dm: DataManager, lists: seq<seq<Entry>>, ghost log: seq<Entry>) returns (alarms: seq<Alarm>)
    requires Holds(dm, log)
    modifies dm`histories, dm`Repr, dm.Repr
    ensures Done(dm, log, AllChecks(lists), alarms)
  {
    assert log + [] == log;
    ghost var done;
    alarms, done := Work(dm, lists, log);
    WorkEnds(lists, done);
  }

  // ---- What a gateway run can report ----

  /** A reading as the gateway generates them: `rand() % 50`. */
  ghost predicate Generated(temperature: real) {
    exists r: nat :: temperature == Simulated(r)
  }

  function Simulated(r: nat): real {
    (r % 50) as real
  }

  /** Every reading that reached a node lies between 0 and 49 degrees. */
  ghost predicate Mild(list: seq<Entry>) {
    forall k :: 0 <= k < |list| && list[k].latest.isValid ==> 0.0 <= list[k].latest.temperature <= 49.0
  }

  ghost predicate OnlyGenerated(actions: seq<Action>) {
    forall k :: 0 <= k < |actions| && actions[k].Refresh? ==> Generated(actions[k].data.temperature)
  }

  lemma {:induction false} RemovalKeepsMild(g: Gateway, r: Removal)
    requires Mild(g.list)
    ensures Mild(RemovalStep(g, r).0.list)
  {
    if r.GivenBack? && r.at < |g.list| {
      var rest := Without(g.list, r.at);
      assert forall k :: 0 <= k < |rest| ==> rest[k] == g.list[if k < r.at then k else k + 1];
    }
  }

  lemma {:induction false} StepKeepsMild(g: Gateway, a: Action)
    requires Mild(g.list) && (a.Refresh? ==> Generated(a.data.temperature))
    ensures Mild(Step(g, a).list)
  {
    match a
    case AcceptorRemovalStep => if g.acceptor.Removing? { RemovalKeepsMild(g, g.acceptor.removal); }
    case RemoverStep(t) => if t < |g.removers| && g.removers[t].Inside? { RemovalKeepsMild(g, g.removers[t].removal); }
    case _ =>
  }

  lemma {:induction false} RunKeepsMild(g: Gateway, actions: seq<Action>)
    requires Mild(g.list) && OnlyGenerated(actions)
    ensures Mild(Run(g, actions).list)
    decreases |actions|
  {
    if actions != [] {
      StepKeepsMild(g, actions[0]);
      assert forall k :: 0 <= k < |actions[1..]| ==> actions[1..][k] == actions[k + 1];
      RunKeepsMild(Step(g, actions[0]), actions[1..]);
    }
  }

  /** At some moment of the run the list held this entry.  Readings arrive while a pass is under way. */
  ghost predicate Seen(n: nat, actions: seq<Action>, e: Entry) {
    exists t: nat :: t <= |actions| && e in Run(Init(n), actions[..t]).list
  }

  ghost predicate AllSeen(n: nat, actions: seq<Action>, lists: seq<seq<Entry>>) {
    forall k, e :: 0 <= k < |lists| && e in lists[k] ==> Seen(n, actions, e)
  }

  lemma {:induction false} AllChecksAreSeen(n: nat, actions: seq<Action>, lists: seq<seq<Entry>>)
    requires AllSeen(n, actions, lists)
    ensures forall e :: e in AllChecks(lists) ==> L.IsChecked(e) && Seen(n, actions, e)
  {
    if lists != [] {
      ChecksAreChecked(lists[0]);
      assert forall e :: e in lists[0] ==> Seen(n, actions, e);
      assert forall k :: 0 <= k < |lists[1..]| ==> lists[1..][k] == lists[k + 1];
      AllChecksAreSeen(n, actions, lists[1..]);
    }
  }

  lemma {:induction false} SeenIsMild(n: nat, actions: seq<Action>, e: Entry)
    requires OnlyGenerated(actions) && Seen(n, actions, e) && L.IsChecked(e)
    ensures 0.0 <= e.latest.temperature <= 49.0
  {
    var t: nat :| t <= |actions| && e in Run(Init(n), actions[..t]).list;
    RunKeepsMild(Init(n), actions[..t]);
  }

  lemma {:induction false} MildTemperatures(log: seq<Entry>, id: int)
    requires forall k :: 0 <= k < |log| ==> log[k].latest.temperature <= 49.0
    ensures forall i :: 0 <= i < |Temperatures(log, id)| ==> Temperatures(log, id)[i] <= 49.0
  {
    if log != [] {
      MildTemperatures(log[..|log| - 1], id);
    }
  }

  lemma {:induction false} MildReports(done: seq<Entry>)
    requires forall k :: 0 <= k < |done| ==> done[k].latest.temperature <= 49.0
    ensures Overheating !in Reports([], done)
  {
    if done != [] {
      MildReports(done[..|done| - 1]);
      assert [] + done == done;
      var id := done[|done| - 1].conn.sensorId;
      MildTemperatures(done, id);
      MildNeverOverheats(Temperatures(done, id));
    }
  }

  /**
   No run of the gateway reports overheating: whatever the interleaving of
   accepts, removals and generated readings, and whatever passes the data
   manager makes over what it finds, repeated ids and repeated readings
   included, every alarm is another one.
   */
  lemma {:induction false} GatewayNeverOverheats(n: nat, actions: seq<Action>, lists: seq<seq<Entry>>)
    requires OnlyGenerated(actions) && AllSeen(n, actions, lists)
    ensures Overheating !in Reports([], AllChecks(lists))
  {
    var done := AllChecks(lists);
    AllChecksAreSeen(n, actions, lists);
    forall k | 0 <= k < |done|
      ensures done[k].latest.temperature <= 49.0
    {
      assert done[k] in done;
      SeenIsMild(n, actions, done[k]);
    }
    MildReports(done);
  }

  /** The data manager's thread in such a run, from its start. */
  method DataManagerNeverOverheats(ghost n: nat, ghost actions: seq<Action>, lists: seq<seq<Entry>>)
    returns (alarms: seq<Alarm>)
    requires OnlyGenerated(actions) && AllSeen(n, actions, lists)
    ensures Overheating !in alarms
  {
    var dm := new DataManager();
    alarms := DataManagerThread(dm, lists, []);
    GatewayNeverOverheats(n, actions, lists);
  }
}
