/**
 The two halves of one defect, put together: the accept path hands out ids
 past the end of the data manager's table, and the data check stops for ever
 at such an id.
 */
module GatewayDeadlock {
  import opened IpLimiter
  import opened SensorConnections
  import opened GatewayThreads
  import opened GatewaySolo
  import opened Temperature
  import L = LockOrder
  import K = LockLeak

  /** `k` sensors are linked, each with its own address and port, newest first; the id is the rank of arrival. */
  ghost predicate Crowded(g: Gateway, k: nat) {
    && Idle(g) && |g.list| == g.activeCount == k
    && WellFormed(g.table) && |g.table| == k
    && (forall j: nat :: k <= j < MAX_UNIQUE_IPS ==> !Known(g.table, Visitor(j)))
    && (forall i :: 0 <= i < k ==>
          var c := g.list[i].conn; c.sensorId == c.port == k - 1 - i && c.isActive && c.status == Connected)
  }

  lemma {:induction false} CrowdIsReachable(k: nat, now: int) returns (run: seq<Action>)
    requires k <= MAX_UNIQUE_IPS
    ensures Crowded(Run(Init(0), run), k)
  {
    run := [];
    if k > 0 {
      var before := CrowdIsReachable(k - 1, now);
      var g := Run(Init(0), before);
      var ip := Visitor(k - 1);
      AdmitCounts(g.table, ip);
      run := AppendAccept(0, before, 0, ip, k - 1, now);
      var g' := Run(Init(0), run);
      assert forall i :: 1 <= i < k ==> g'.list[i] == g.list[i - 1];
      forall j: nat | k <= j < MAX_UNIQUE_IPS
        ensures !Known(g'.table, Visitor(j))
      {
        assert Visitor(j)[0] != ip[0];
      }
    }
  }

  /** With 101 sensors connected, which the limiter allows, the newest carries id 100, and has sent a reading. */
  lemma {:induction false} BadIdIsReachable(now: int, data: SensorData) returns (run: seq<Action>)
    requires data.isValid
    ensures var list := Run(Init(0), run).list; |list| == MAX_CONNECTIONS + 1 && K.IsBad(list[0])
  {
    var crowd := CrowdIsReachable(MAX_CONNECTIONS + 1, now);
    var g := Run(Init(0), crowd);
    var reading := Refresh(MAX_CONNECTIONS, data, now);
    RunConcat(Init(0), crowd, [reading]);
    RunOne(g, reading);
    run := crowd + [reading];
    assert FirstWithId(g.list, MAX_CONNECTIONS) == 0;
  }

  /** The data manager's passes once it has found `list`: it will check some sensor after the one at the head. */
  ghost predicate ChecksOn(list: seq<Entry>, alarm: Entry -> bool, data: seq<L.Pass>) {
    && list != [] && K.OnlyData(data) && data != [] && data[0] == L.DataPass(list, alarm)
    && K.HasChecked(list[1..] + K.Visits(data[1..]))
  }

  lemma {:induction false} ChecksOnAfterBad(list: seq<Entry>, alarm: Entry -> bool, data: seq<L.Pass>)
    requires ChecksOn(list, alarm, data) && K.IsBad(list[0])
    ensures !K.NothingAfterBad(K.Visits(data))
  {
    var after := list[1..] + K.Visits(data[1..]);
    assert K.Visits(data) == [list[0]] + after;
    var k :| 0 <= k < |after| && L.IsChecked(after[k]);
    assert K.IsBad(K.Visits(data)[0]) && L.IsChecked(K.Visits(data)[k + 1]);
  }

  /**
   From that state, in the company of any other gateway threads and under any
   schedule, the data manager never finishes if it is to check any sensor again;
   the run can always be continued to its hang, and does end there unless it is
   broken off.
   */
  lemma {:induction false} DataManagerCanHang(now: int, reading: SensorData) returns (run: seq<Action>)
    requires reading.isValid
    ensures var list := Run(Init(0), run).list;
      && |list| == MAX_CONNECTIONS + 1
      && forall alarm: Entry -> bool, data: seq<L.Pass>, others: seq<seq<L.Pass>>, schedule: seq<nat> ::
           ChecksOn(list, alarm, data) && K.NoneData(others) ==> Freezes(data, others, schedule)
  {
    run := BadIdIsReachable(now, reading);
    var list := Run(Init(0), run).list;
    forall alarm: Entry -> bool, data: seq<L.Pass>, others: seq<seq<L.Pass>>, schedule: seq<nat>
      | ChecksOn(list, alarm, data) && K.NoneData(others)
      ensures Freezes(data, others, schedule)
    {
      ChecksOnAfterBad(list, alarm, data);
      var rest := K.HangIsInevitable(data, others, schedule);
      FrozenForEver(L.Run(K.Gathered(data, others), schedule), rest);
    }
  }

  /** The data manager is unfinished, hangs unless something can move, and can be brought to a freeze. */
  ghost predicate Freezes(data: seq<L.Pass>, others: seq<seq<L.Pass>>, schedule: seq<nat>) {
    var ts := L.Run(K.Gathered(data, others), schedule);
    && ts != [] && ts[0].rest != []
    && (K.Hung(ts, 0) || exists t: nat :: L.Enabled(ts, t))
    && exists rest: seq<nat> :: Frozen(L.Run(ts, rest))
  }

  /**
   The data manager hangs: whatever is scheduled from here on, no accept, terminate, disconnect, sweep
   or status request starts, and no thread with one of them ahead finishes.
   */
  ghost predicate Frozen(ts: seq<L.Thread>) {
    K.Hung(ts, 0) &&
    forall later: seq<nat>, t: nat :: t < |ts| ==>
      && (K.AtConnection(ts[t]) ==> L.Run(ts, later)[t] == ts[t])
      && (K.NeedsConnection(ts[t]) ==> L.Run(ts, later)[t].rest != [])
  }

  lemma {:induction false} FrozenForEver(ts: seq<L.Thread>, rest: seq<nat>)
    requires K.Hung(L.Run(ts, rest), 0)
    ensures Frozen(L.Run(ts, rest))
  {
    var hung := L.Run(ts, rest);
    forall later: seq<nat>, t: nat | t < |hung|
      ensures K.AtConnection(hung[t]) ==> L.Run(hung, later)[t] == hung[t]
      ensures K.NeedsConnection(hung[t]) ==> L.Run(hung, later)[t].rest != []
    {
      K.HungForEver(hung, 0, later);
    }
  }
}
