/** buildVroom (extended.go:228-255): the VROOM problem for one day, one
    vehicle per agent and one job per account active that day. */
module Vroom {
  import opened Numeric
  import opened Recurrence
  import opened Domain

  /** A vehicle; Start and End are [lng, lat]. */
  datatype VroomVehicle = VroomVehicle(id: int, start: seq<real>, end: seq<real>)

  /** A job; TimeWindows is empty (omitted) or a single [start, end] pair, in seconds. */
  datatype VroomJob = VroomJob(id: int, service: int, location: seq<real>, timeWindows: seq<seq<int>>)

  datatype VroomInput = VroomInput(jobs: seq<VroomJob>, vehicles: seq<VroomVehicle>)

  /** The cycle length when the scenario leaves it at 0. */
  const DefaultCycle: int := 28

  /** int(clamp(min/200, 0, 1)*200)*60: whole service minutes, capped at 200, in seconds. */
  function ServiceSeconds(acc: Account): (r: int)
    ensures 0 <= r <= 12000 && r % 60 == 0
  {
    TruncToInt(ServiceRatio(acc) * 200.0) * 60
  }

  /** A whole number of minutes up to 200 is kept exactly. */
  lemma ServiceOfWholeMinutes(acc: Account, m: int)
    requires 0 <= m <= 200 && acc.serviceMinutes == m as real
    ensures ServiceSeconds(acc) == m * 60
  {
    assert ServiceRatio(acc) * 200.0 == m as real;
  }

  /** Anything from 200 minutes up is capped at 12000 seconds. */
  lemma ServiceCapped(acc: Account)
    requires acc.serviceMinutes >= 200.0
    ensures ServiceSeconds(acc) == 12000
  {
  }

  /** int(m)*60 in Go's 64-bit int arithmetic: the product wraps around. */
  function MinutesToSeconds(m: real): (r: int)
    ensures MinInt64 <= r <= MaxInt64
  {
    WrapInt64(TruncToInt(m) * 60)
  }

  /** The minute counts whose product with 60 does not wrap (with room to spare). */
  predicate WithinInt64Seconds(m: real) {
    -1.5e17 <= m <= 1.5e17
  }

  /** Below the wrap-around bound, the seconds are exactly the truncated minutes times 60. */
  lemma MinutesToSecondsExact(m: real)
    requires WithinInt64Seconds(m)
    ensures MinutesToSeconds(m) == TruncToInt(m) * 60
  {
    var t := TruncToInt(m);
    assert -150000000000000000 <= t <= 150000000000000000;
  }

  /** The window start, int(ServiceWindowStartMin)*60. */
  function WindowStart(acc: Account): (r: int)
    ensures MinInt64 <= r <= MaxInt64
  {
    MinutesToSeconds(acc.windowStartMin)
  }

  /** The window end, int(ServiceWindowStartMin+ServiceWindowDurationMin)*60. */
  function WindowEnd(acc: Account): (r: int)
    ensures MinInt64 <= r <= MaxInt64
  {
    MinutesToSeconds(acc.windowStartMin + acc.windowDurationMin)
  }

  /** The job's time windows: one [start, end] pair exactly when end > start. */
  function TimeWindows(acc: Account): (w: seq<seq<int>>)
    ensures w != [] <==> WindowEnd(acc) > WindowStart(acc)
    ensures w != [] ==> w == [[WindowStart(acc), WindowEnd(acc)]]
  {
    if WindowEnd(acc) > WindowStart(acc) then [[WindowStart(acc), WindowEnd(acc)]] else []
  }

  /** A window that does not last gives no time window. */
  lemma NoWindowWithoutDuration(acc: Account)
    requires acc.windowDurationMin <= 0.0
    requires WithinInt64Seconds(acc.windowStartMin) && WithinInt64Seconds(acc.windowStartMin + acc.windowDurationMin)
    ensures TimeWindows(acc) == []
  {
    MinutesToSecondsExact(acc.windowStartMin);
    MinutesToSecondsExact(acc.windowStartMin + acc.windowDurationMin);
    TruncMonotone(acc.windowStartMin + acc.windowDurationMin, acc.windowStartMin);
  }

  /** A window from a non-negative start lasting at least a minute is kept, to the minute. */
  lemma WindowOfAMinute(acc: Account)
    requires acc.windowStartMin >= 0.0 && acc.windowDurationMin >= 1.0
    requires WithinInt64Seconds(acc.windowStartMin + acc.windowDurationMin)
    ensures TimeWindows(acc) == [[WindowStart(acc), WindowEnd(acc)]]
    ensures WindowEnd(acc) - WindowStart(acc) >= 60
  {
    MinutesToSecondsExact(acc.windowStartMin);
    MinutesToSecondsExact(acc.windowStartMin + acc.windowDurationMin);
    TruncMonotone(acc.windowStartMin + 1.0, acc.windowStartMin + acc.windowDurationMin);
    assert TruncToInt(acc.windowStartMin + 1.0) == TruncToInt(acc.windowStartMin) + 1;
  }

  /** Past the bound the wrap-around decides the test end > start: a window
      starting at 1.6e17 minutes with a negative duration wraps its start
      below zero, while its end does not wrap, so a time window is emitted. */
  lemma WrappedStartKeepsWindow(acc: Account)
    requires acc.windowStartMin == 1.6e17 && acc.windowDurationMin == -1.0e16
    ensures WindowStart(acc) < 0 < WindowEnd(acc)
    ensures TimeWindows(acc) != []
  {
    assert TruncToInt(acc.windowStartMin) == 160000000000000000;
    assert WindowStart(acc) == 9600000000000000000 - 0x1_0000_0000_0000_0000;
    MinutesToSecondsExact(acc.windowStartMin + acc.windowDurationMin);
    assert TruncToInt(acc.windowStartMin + acc.windowDurationMin) == 150000000000000000;
  }

  function VehicleFor(i: int, ag: Agent): VroomVehicle {
    VroomVehicle(i + 1, [ag.lng, ag.lat], [ag.lng, ag.lat])
  }

  function JobFor(i: int, acc: Account): VroomJob {
    VroomJob(i + 1, ServiceSeconds(acc), [acc.lng, acc.lat], TimeWindows(acc))
  }

  /** The vehicle loop: one vehicle appended per agent. */
  function Vehicles(agents: seq<Agent>): seq<VroomVehicle> {
    if agents == [] then []
    else Vehicles(agents[..|agents| - 1]) + [VehicleFor(|agents| - 1, agents[|agents| - 1])]
  }

  /** The job loop: one job appended per active account. */
  function Jobs(active: seq<Account>): seq<VroomJob> {
    if active == [] then []
    else Jobs(active[..|active| - 1]) + [JobFor(|active| - 1, active[|active| - 1])]
  }

  /** The accounts buildVroom turns into jobs. */
  function VroomActive(sc: Scenario, day: int, occ: Occurrences): seq<Account> {
    ActiveAccounts(sc.accounts, OrDefault(sc.params.cycleDays, DefaultCycle), occ, day)
  }

  /** buildVroom, as a value. */
  function VroomOf(sc: Scenario, day: int, occ: Occurrences): VroomInput {
    VroomInput(Jobs(VroomActive(sc, day, occ)), Vehicles(sc.agents))
  }

  /** Vehicle i is agent i, numbered from 1, starting and ending where the agent starts. */
  lemma {:induction false} VehiclesShape(agents: seq<Agent>)
    ensures |Vehicles(agents)| == |agents|
    ensures forall i :: 0 <= i < |agents| ==>
      && Vehicles(agents)[i].id == i + 1
      && Vehicles(agents)[i].start == Vehicles(agents)[i].end == [agents[i].lng, agents[i].lat]
  {
    if agents != [] {
      var n := |agents| - 1;
      VehiclesShape(agents[..n]);
      assert forall i :: 0 <= i < n ==> agents[..n][i] == agents[i];
    }
  }

  /** Job i is active account i, numbered from 1, at the account's location. */
  lemma {:induction false} JobsShape(active: seq<Account>)
    ensures |Jobs(active)| == |active|
    ensures forall i :: 0 <= i < |active| ==> Jobs(active)[i] == JobFor(i, active[i])
  {
    if active != [] {
      var n := |active| - 1;
      JobsShape(active[..n]);
      assert forall i :: 0 <= i < n ==> active[..n][i] == active[i];
    }
  }

  /** The VROOM input of a day: the vehicles in agent order, the jobs in the
      order of the accounts active that day, each job's service in [0, 12000]
      and a window only when it ends after it starts. */
  lemma VroomShape(sc: Scenario, day: int, occ: Occurrences)
    ensures var vin := VroomOf(sc, day, occ);
      && |vin.vehicles| == |sc.agents|
      && (forall i :: 0 <= i < |sc.agents| ==>
            vin.vehicles[i].id == i + 1 && vin.vehicles[i].start == vin.vehicles[i].end == [sc.agents[i].lng, sc.agents[i].lat])
    ensures var vin := VroomOf(sc, day, occ); var act := VroomActive(sc, day, occ);
      && |vin.jobs| == |act|
      && (forall i :: 0 <= i < |act| ==>
            && vin.jobs[i].id == i + 1
            && vin.jobs[i].location == [act[i].lng, act[i].lat]
            && 0 <= vin.jobs[i].service <= 12000
            && (vin.jobs[i].timeWindows == [] ||
                (vin.jobs[i].timeWindows == [[WindowStart(act[i]), WindowEnd(act[i])]] && WindowStart(act[i]) < WindowEnd(act[i]))))
  {
    VehiclesShape(sc.agents);
    JobsShape(VroomActive(sc, day, occ));
  }

  /** Exactly the accounts active on the day become jobs, and a day outside the cycle gives none. */
  lemma VroomJobsAreActive(sc: Scenario, day: int, occ: Occurrences)
    ensures forall a :: a in VroomActive(sc, day, occ) <==>
      a in sc.accounts && ActiveOn(a, OrDefault(sc.params.cycleDays, DefaultCycle), occ, day)
    ensures (day < 0 || OrDefault(sc.params.cycleDays, DefaultCycle) <= day) ==> VroomOf(sc, day, occ).jobs == []
  {
    if day < 0 || OrDefault(sc.params.cycleDays, DefaultCycle) <= day {
      ActiveAccountsOutsideCycle(sc.accounts, OrDefault(sc.params.cycleDays, DefaultCycle), occ, day);
    }
  }

  lemma VehiclesNext(agents: seq<Agent>, i: int)
    requires 0 <= i < |agents|
    ensures Vehicles(agents[..i + 1]) == Vehicles(agents[..i]) + [VehicleFor(i, agents[i])]
  {
    assert agents[..i + 1][..i] == agents[..i];
  }

  lemma JobsNext(active: seq<Account>, k: int)
    requires 0 <= k < |active|
    ensures Jobs(active[..k + 1]) == Jobs(active[..k]) + [JobFor(k, active[k])]
  {
    assert active[..k + 1][..k] == active[..k];
  }

  /** The vehicle loop of buildVroom. */
  method BuildVehicles(agents: seq<Agent>) returns (vehicles: seq<VroomVehicle>)
    ensures vehicles == Vehicles(agents)
  {
    vehicles := [];
    var i := 0;
    while i < |agents|
      invariant 0 <= i <= |agents|
      invariant vehicles == Vehicles(agents[..i])
    {
      var ag := agents[i];
      vehicles := vehicles + [VroomVehicle(i + 1, [ag.lng, ag.lat], [ag.lng, ag.lat])];
      VehiclesNext(agents, i);
      i := i + 1;
    }
    assert agents[..i] == agents;
  }

  /** One job, with its integer conversions. */
  method BuildJob(k: int, acc: Account) returns (job: VroomJob)
    ensures job == JobFor(k, acc)
  {
    var service := TruncToInt(Clamp(acc.serviceMinutes / 200.0, 0.0, 1.0) * 200.0) * 60;
    var start := WrapInt64(TruncToInt(acc.windowStartMin) * 60);
    var end := WrapInt64(TruncToInt(acc.windowStartMin + acc.windowDurationMin) * 60);
    var windows: seq<seq<int>> := [];
    if end > start {
      windows := [[start, end]];
    }
    job := VroomJob(k + 1, service, [acc.lng, acc.lat], windows);
  }

  /** The job loop of buildVroom. */
  method BuildJobs(active: seq<Account>) returns (jobs: seq<VroomJob>)
    ensures jobs == Jobs(active)
  {
    jobs := [];
    var k := 0;
    while k < |active|
      invariant 0 <= k <= |active|
      invariant jobs == Jobs(active[..k])
    {
      var job := BuildJob(k, active[k]);
      jobs := jobs + [job];
      JobsNext(active, k);
      k := k + 1;
    }
    assert active[..k] == active;
  }

  /** buildVroom: vehicles, the cycle default, the active accounts, then jobs. */
  method BuildVroom(sc: Scenario, day: int, occ: Occurrences) returns (vin: VroomInput)
    ensures vin == VroomOf(sc, day, occ)
  {
    var vehicles := BuildVehicles(sc.agents);
    var cycle := sc.params.cycleDays;
    if cycle == 0 {
      cycle := DefaultCycle;
    }
    var active := CollectActive(sc.accounts, cycle, occ, day);
    var jobs := BuildJobs(active);
    vin := VroomInput(jobs, vehicles);
  }
}
