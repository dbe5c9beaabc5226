/** naiveSim (extended.go:275-313): the greedy one-day simulation. Each
    account active on the day, in input order, goes to the nearest vehicle,
    which drives there at 50 km/h and serves it. The vehicles live in an
    array updated in place. The great-circle distance havKM is a parameter. */
module Simulation {
  import opened Wrappers
  import opened Numeric
  import opened Recurrence
  import opened Domain

  /** havKM(lat1, lng1, lat2, lng2), in kilometres. */
  type HavKM = (real, real, real, real) -> real

  /** One simulated vehicle: where it is and the seconds it has driven and served. */
  datatype Veh = Veh(lat: real, lng: real, drive: real, service: real)

  datatype SimStats = SimStats(
    drivingSec: seq<real>, serviceSec: seq<real>, repsUsed: seq<int>, unassigned: int,
    totalTravelSec: real, totalServiceSec: real, totalIdleSec: real)

  /** vs[best] on an empty vehicle slice: the index-out-of-range panic. */
  datatype SimError = NoVehicle

  const SpeedKmh: real := 50.0

  /** The initial bestD, 1e18. */
  const FarAway: real := 1_000_000_000_000_000_000.0

  /** The cycle length when the scenario leaves it at 0. */
  const DefaultCycle: int := 28

  /** toSec: the driving time in seconds for a distance in kilometres. */
  function ToSec(km: real): (r: real)
    ensures r == 72.0 * km
  {
    km / SpeedKmh * 3600.0
  }

  /** clamp(min/200, 0, 1)*200*60: the service time in seconds, without truncation. */
  function ServiceSec(acc: Account): (r: real)
    ensures 0.0 <= r <= 12000.0
    ensures 0.0 <= acc.serviceMinutes <= 200.0 ==> r == acc.serviceMinutes * 60.0
  {
    ServiceRatio(acc) * 200.0 * 60.0
  }

  function Dist(v: Veh, acc: Account, hav: HavKM): real {
    hav(v.lat, v.lng, acc.lat, acc.lng)
  }

  /** The vehicles at the start of the day: at their agents' start, nothing driven or served. */
  function Fleet(agents: seq<Agent>): (vs: seq<Veh>)
    ensures |vs| == |agents|
  {
    seq(|agents|, i requires 0 <= i < |agents| => Veh(agents[i].lat, agents[i].lng, 0.0, 0.0))
  }

  /** The nearest-vehicle scan over the first n vehicles: (best, bestD). */
  function Scan(vs: seq<Veh>, acc: Account, hav: HavKM, n: int): (int, real)
    requires 0 <= n <= |vs|
  {
    if n == 0 then (0, FarAway)
    else
      var prev := Scan(vs, acc, hav, n - 1);
      var d := Dist(vs[n - 1], acc, hav);
      if d < prev.1 then (n - 1, d) else prev
  }

  function Nearest(vs: seq<Veh>, acc: Account, hav: HavKM): (int, real) {
    Scan(vs, acc, hav, |vs|)
  }

  /** The scan finds the first vehicle at the least distance below 1e18; when
      no vehicle is that close it keeps index 0 and distance 1e18. */
  lemma {:induction false} ScanIsFirstNearest(vs: seq<Veh>, acc: Account, hav: HavKM, n: int)
    requires 0 <= n <= |vs|
    ensures var (b, d) := Scan(vs, acc, hav, n);
      && d <= FarAway
      && (forall j :: 0 <= j < n ==> d <= Dist(vs[j], acc, hav))
      && (d < FarAway ==> 0 <= b < n && Dist(vs[b], acc, hav) == d && forall j :: 0 <= j < b ==> Dist(vs[j], acc, hav) > d)
      && (d == FarAway ==> b == 0)
  {
    if n > 0 {
      ScanIsFirstNearest(vs, acc, hav, n - 1);
    }
  }

  /** The nearest vehicle is a valid index whenever there is a vehicle. */
  lemma NearestInRange(vs: seq<Veh>, acc: Account, hav: HavKM)
    requires |vs| > 0
    ensures 0 <= Nearest(vs, acc, hav).0 < |vs|
  {
    ScanIsFirstNearest(vs, acc, hav, |vs|);
  }

  /** One loop iteration: the nearest vehicle drives to the account and serves it. */
  function Assign(vs: seq<Veh>, acc: Account, hav: HavKM): (r: seq<Veh>)
    requires |vs| > 0
    ensures |r| == |vs|
  {
    NearestInRange(vs, acc, hav);
    var (b, d) := Nearest(vs, acc, hav);
    vs[b := Veh(acc.lat, acc.lng, vs[b].drive + ToSec(d), vs[b].service + ServiceSec(acc))]
  }

  /** After an assignment the first nearest vehicle stands at the account,
      its drive grown by the time to get there and its service by the
      account's; every other vehicle is as it was. */
  lemma AssignMovesNearest(vs: seq<Veh>, acc: Account, hav: HavKM)
    requires |vs| > 0
    ensures var r := Assign(vs, acc, hav); var (b, d) := Nearest(vs, acc, hav);
      && 0 <= b < |vs|
      && (forall j :: 0 <= j < |vs| ==> (d <= Dist(vs[j], acc, hav)) && (j < b ==> d < Dist(vs[j], acc, hav)))
      && r[b].lat == acc.lat && r[b].lng == acc.lng
      && r[b].drive == vs[b].drive + ToSec(d)
      && r[b].service == vs[b].service + ServiceSec(acc)
      && (forall j :: 0 <= j < |vs| && j != b ==> r[j] == vs[j])
  {
    ScanIsFirstNearest(vs, acc, hav, |vs|);
  }

  /** The account loop, in order; it panics on the first account when there is no vehicle. */
  function Dispatch(vs: seq<Veh>, accs: seq<Account>, hav: HavKM): (r: Result<seq<Veh>, SimError>)
    ensures r.Success? ==> |r.value| == |vs|
  {
    if accs == [] then Success(vs)
    else
      match Dispatch(vs, accs[..|accs| - 1], hav)
      case Failure(e) => Failure(e)
      case Success(w) => if |w| == 0 then Failure(NoVehicle) else Success(Assign(w, accs[|accs| - 1], hav))
  }

  /** The loop panics exactly when some account is active and there is no vehicle. */
  lemma {:induction false} DispatchFailsIff(vs: seq<Veh>, accs: seq<Account>, hav: HavKM)
    ensures Dispatch(vs, accs, hav).Failure? <==> |vs| == 0 && accs != []
  {
    if accs != [] {
      DispatchFailsIff(vs, accs[..|accs| - 1], hav);
    }
  }

  /** The service seconds of the accounts, in order. */
  function ServiceSecs(accs: seq<Account>): (r: seq<real>)
    ensures |r| == |accs|
  {
    seq(|accs|, i requires 0 <= i < |accs| => ServiceSec(accs[i]))
  }

  function Drives(vs: seq<Veh>): (r: seq<real>)
    ensures |r| == |vs|
  {
    seq(|vs|, i requires 0 <= i < |vs| => vs[i].drive)
  }

  function Services(vs: seq<Veh>): (r: seq<real>)
    ensures |r| == |vs|
  {
    seq(|vs|, i requires 0 <= i < |vs| => vs[i].service)
  }

  /** An assignment adds exactly the account's service time to the fleet's total. */
  lemma AssignServiceTotal(vs: seq<Veh>, acc: Account, hav: HavKM)
    requires |vs| > 0
    ensures Sum(Services(Assign(vs, acc, hav))) == Sum(Services(vs)) + ServiceSec(acc)
  {
    NearestInRange(vs, acc, hav);
    var b := Nearest(vs, acc, hav).0;
    var r := Assign(vs, acc, hav);
    assert Services(r) == Services(vs)[b := r[b].service];
    SumUpdate(Services(vs), b, r[b].service);
  }

  /** Service is conserved: the fleet's total grows by the accounts' service times. */
  lemma {:induction false} DispatchServiceTotal(vs: seq<Veh>, accs: seq<Account>, hav: HavKM)
    requires Dispatch(vs, accs, hav).Success?
    ensures Sum(Services(Dispatch(vs, accs, hav).value)) == Sum(Services(vs)) + Sum(ServiceSecs(accs))
  {
    if accs != [] {
      var n := |accs| - 1;
      DispatchServiceTotal(vs, accs[..n], hav);
      var w := Dispatch(vs, accs[..n], hav).value;
      AssignServiceTotal(w, accs[n], hav);
      assert ServiceSecs(accs) == ServiceSecs(accs[..n]) + [ServiceSec(accs[n])];
      SumSnoc(ServiceSecs(accs[..n]), ServiceSec(accs[n]));
    }
  }

  /** The statistics of the final fleet. */
  function Stats(vs: seq<Veh>, agents: int, accounts: int, served: int): SimStats {
    SimStats(Drives(vs), Services(vs), [agents], Max(0, accounts - served), Sum(Drives(vs)), Sum(Services(vs)), 0.0)
  }

  lemma StatsOfTally(vs: seq<Veh>, drives: seq<real>, services: seq<real>, totalDrive: real, totalService: real,
                     agents: int, accounts: int, served: int)
    requires drives == Drives(vs) && services == Services(vs)
    requires totalDrive == Sum(drives) && totalService == Sum(services)
    ensures SimStats(drives, services, [agents], Max(0, accounts - served), totalDrive, totalService, 0.0)
         == Stats(vs, agents, accounts, served)
  {
  }

  /** The accounts naiveSim serves. */
  function SimActive(sc: Scenario, day: int, occ: Occurrences): seq<Account> {
    ActiveAccounts(sc.accounts, OrDefault(sc.params.cycleDays, DefaultCycle), occ, day)
  }

  /** naiveSim, as a value. */
  function NaiveSimOf(sc: Scenario, day: int, occ: Occurrences, hav: HavKM): Result<SimStats, SimError> {
    var accs := SimActive(sc, day, occ);
    match Dispatch(Fleet(sc.agents), accs, hav)
    case Failure(e) => Failure(e)
    case Success(vs) => Success(Stats(vs, |sc.agents|, |sc.accounts|, |accs|))
  }

  lemma NaiveSimCases(sc: Scenario, day: int, occ: Occurrences, hav: HavKM, accs: seq<Account>, outcome: Result<seq<Veh>, SimError>)
    requires accs == SimActive(sc, day, occ)
    requires outcome == Dispatch(Fleet(sc.agents), accs, hav)
    ensures outcome.Failure? ==> NaiveSimOf(sc, day, occ, hav) == Failure(NoVehicle)
    ensures outcome.Success? ==> NaiveSimOf(sc, day, occ, hav) == Success(Stats(outcome.value, |sc.agents|, |sc.accounts|, |accs|))
  {
    if outcome.Failure? {
      assert outcome.error.NoVehicle?;
      assert outcome == Failure(NoVehicle);
    }
  }

  /** naiveSim panics exactly when there is no agent but some account is active. */
  lemma NaiveSimFailsIff(sc: Scenario, day: int, occ: Occurrences, hav: HavKM)
    ensures NaiveSimOf(sc, day, occ, hav).Failure? <==> sc.agents == [] && SimActive(sc, day, occ) != []
  {
    DispatchFailsIff(Fleet(sc.agents), SimActive(sc, day, occ), hav);
  }

  lemma SumOfZeros(s: seq<real>)
    requires forall i :: 0 <= i < |s| ==> s[i] == 0.0
    ensures Sum(s) == 0.0
  {
    SumBounds(s, 0.0, 0.0);
  }

  /** The statistics of a simulated day: one entry per agent, the totals are
      the sums over vehicles, one rep count, no idle time, the accounts not
      active that day as unassigned, and the total service the sum of the
      active accounts' service times. */
  lemma NaiveSimStats(sc: Scenario, day: int, occ: Occurrences, hav: HavKM)
    requires NaiveSimOf(sc, day, occ, hav).Success?
    ensures var st := NaiveSimOf(sc, day, occ, hav).value;
      && |st.drivingSec| == |sc.agents| && |st.serviceSec| == |sc.agents|
      && st.totalTravelSec == Sum(st.drivingSec)
      && st.totalServiceSec == Sum(st.serviceSec)
      && st.repsUsed == [|sc.agents|]
      && st.totalIdleSec == 0.0
      && st.unassigned == |sc.accounts| - |SimActive(sc, day, occ)|
      && st.totalServiceSec == Sum(ServiceSecs(SimActive(sc, day, occ)))
  {
    var accs := SimActive(sc, day, occ);
    DispatchServiceTotal(Fleet(sc.agents), accs, hav);
    SumOfZeros(Services(Fleet(sc.agents)));
  }

  /** The vehicle slice, built from the agents. */
  method InitFleet(agents: seq<Agent>) returns (vs: array<Veh>)
    ensures fresh(vs)
    ensures vs[..] == Fleet(agents)
  {
    vs := new Veh[|agents|](_ => Veh(0.0, 0.0, 0.0, 0.0));
    var i := 0;
    while i < |agents|
      invariant 0 <= i <= |agents|
      invariant forall j :: 0 <= j < i ==> vs[j] == Fleet(agents)[j]
      invariant forall j :: i <= j < vs.Length ==> vs[j] == Veh(0.0, 0.0, 0.0, 0.0)
    {
      vs[i] := Veh(agents[i].lat, agents[i].lng, 0.0, 0.0);
      i := i + 1;
    }
  }

  /** The inner loop: the nearest vehicle, by strict comparison from 1e18. */
  method NearestVehicle(vs: array<Veh>, acc: Account, hav: HavKM) returns (best: int, bestD: real)
    ensures (best, bestD) == Nearest(vs[..], acc, hav)
  {
    best, bestD := 0, FarAway;
    var i := 0;
    while i < vs.Length
      invariant 0 <= i <= vs.Length
      invariant (best, bestD) == Scan(vs[..], acc, hav, i)
    {
      var d := hav(vs[i].lat, vs[i].lng, acc.lat, acc.lng);
      if d < bestD {
        bestD := d;
        best := i;
      }
      i := i + 1;
    }
  }

  /** One account: the three in-place updates of vs[best]. */
  method Serve(vs: array<Veh>, acc: Account, hav: HavKM)
    requires vs.Length > 0
    modifies vs
    ensures vs[..] == Assign(old(vs[..]), acc, hav)
  {
    var best, bestD := NearestVehicle(vs, acc, hav);
    NearestInRange(vs[..], acc, hav);
    vs[best] := vs[best].(drive := vs[best].drive + ToSec(bestD));
    vs[best] := vs[best].(lat := acc.lat, lng := acc.lng);
    vs[best] := vs[best].(service := vs[best].service + Clamp(acc.serviceMinutes / 200.0, 0.0, 1.0) * 200.0 * 60.0);
  }

  lemma DispatchNext(vs: seq<Veh>, accs: seq<Account>, k: int, hav: HavKM, cur: seq<Veh>)
    requires 0 <= k < |accs| && |cur| > 0
    requires Dispatch(vs, accs[..k], hav) == Success(cur)
    ensures Dispatch(vs, accs[..k + 1], hav) == Success(Assign(cur, accs[k], hav))
  {
    assert accs[..k + 1][..k] == accs[..k];
  }

  /** The account loop over the vehicle array; a failure leaves the panic. */
  method DispatchAll(vs: array<Veh>, accs: seq<Account>, hav: HavKM) returns (ok: bool)
    modifies vs
    ensures ok <==> Dispatch(old(vs[..]), accs, hav).Success?
    ensures ok ==> vs[..] == Dispatch(old(vs[..]), accs, hav).value
  {
    ghost var start := vs[..];
    var k := 0;
    while k < |accs|
      invariant 0 <= k <= |accs|
      invariant Dispatch(start, accs[..k], hav) == Success(vs[..])
    {
      if vs.Length == 0 {
        DispatchFailsIff(start, accs, hav);
        return false;
      }
      ghost var cur := vs[..];
      Serve(vs, accs[k], hav);
      DispatchNext(start, accs, k, hav, cur);
      k := k + 1;
    }
    assert accs[..k] == accs;
    return true;
  }

  /** The final loop over the vehicles: the two lists and the two totals. */
  method Tally(vs: array<Veh>) returns (drives: seq<real>, services: seq<real>, totalDrive: real, totalService: real)
    ensures drives == Drives(vs[..]) && services == Services(vs[..])
    ensures totalDrive == Sum(drives) && totalService == Sum(services)
  {
    drives, services := [], [];
    totalDrive, totalService := 0.0, 0.0;
    var i := 0;
    while i < vs.Length
      invariant 0 <= i <= vs.Length
      invariant drives == Drives(vs[..i]) && services == Services(vs[..i])
      invariant totalDrive == Sum(drives) && totalService == Sum(services)
    {
      var v := vs[i];
      SumSnoc(drives, v.drive);
      SumSnoc(services, v.service);
      drives := drives + [v.drive];
      services := services + [v.service];
      totalDrive := totalDrive + v.drive;
      totalService := totalService + v.service;
      assert Drives(vs[..i + 1]) == Drives(vs[..i]) + [v.drive];
      assert Services(vs[..i + 1]) == Services(vs[..i]) + [v.service];
      i := i + 1;
    }
    assert vs[..i] == vs[..];
  }

  /** naiveSim. */
  method NaiveSim(sc: Scenario, day: int, occ: Occurrences, hav: HavKM) returns (res: Result<SimStats, SimError>)
    ensures res == NaiveSimOf(sc, day, occ, hav)
  {
    var vs := InitFleet(sc.agents);
    var cycle := sc.params.cycleDays;
    if cycle == 0 {
      cycle := DefaultCycle;
    }
    var accs := CollectActive(sc.accounts, cycle, occ, day);
    assert accs == SimActive(sc, day, occ);
    ghost var outcome := Dispatch(Fleet(sc.agents), accs, hav);
    NaiveSimCases(sc, day, occ, hav, accs, outcome);
    var ok := DispatchAll(vs, accs, hav);
    if !ok {
      return Failure(NoVehicle);
    }
    assert vs[..] == outcome.value;
    var served := |accs|;
    ghost var fin := vs[..];
    var drives, services, totalDrive, totalService := Tally(vs);
    assert drives == Drives(fin) && services == Services(fin);
    res := Success(SimStats(drives, services, [|sc.agents|], Max(0, |sc.accounts| - served), totalDrive, totalService, 0.0));
    StatsOfTally(outcome.value, drives, services, totalDrive, totalService, |sc.agents|, |sc.accounts|, served);
  }
}
