/** The scenario a planner edits (main.go:61-114) and the per-account
    quantities that buildEmbedding, heatmapFor, buildVroom and naiveSim all
    derive from it in the same way. */
module Domain {
  import opened Numeric
  import opened GoStrings
  import opened Schedules
  import opened Recurrence

  datatype Agent = Agent(id: string, name: string, lat: real, lng: real, schedule: Schedule)

  datatype Account = Account(
    id: string, name: string, lat: real, lng: real,
    serviceMinutes: real, windowStartMin: real, windowDurationMin: real,
    pinnedAgentId: string, availableRatio: real,
    schedule: Schedule)

  datatype Globals = Globals(
    maxAgents: int, maxWorkMinutesPerWeek: real, maxWorkMinutesPerDay: real,
    maxTravelMinutesPerDay: real)

  /** Resolutions of the six channels, the H3 levels and the cycle length; 0 or empty means "use the server default". */
  datatype EmbeddingParams = EmbeddingParams(
    resStopTime: int, resWindowStart: int, resWindowDuration: int,
    resPinned: int, resAgentsAvailable: int, resAgentStart: int,
    h3Levels: seq<int>, cycleDays: int)

  datatype Scenario = Scenario(
    name: string, agents: seq<Agent>, accounts: seq<Account>,
    globals: Globals, params: EmbeddingParams)

  /** clamp(EstimatedServiceMinutes/200, 0, 1). */
  function ServiceRatio(acc: Account): (r: real)
    ensures 0.0 <= r <= 1.0
    ensures 0.0 <= acc.serviceMinutes <= 200.0 ==> r == acc.serviceMinutes / 200.0
  {
    Clamp(acc.serviceMinutes / 200.0, 0.0, 1.0)
  }

  /** clamp(ServiceWindowStartMin/1440, 0, 1): the start as a fraction of a day. */
  function WindowStartRatio(acc: Account): (r: real)
    ensures 0.0 <= r <= 1.0
    ensures 0.0 <= acc.windowStartMin <= 1440.0 ==> r == acc.windowStartMin / 1440.0
  {
    Clamp(acc.windowStartMin / 1440.0, 0.0, 1.0)
  }

  /** clamp(ServiceWindowDurationMin/1440, 0, 1). */
  function WindowDurationRatio(acc: Account): (r: real)
    ensures 0.0 <= r <= 1.0
    ensures 0.0 <= acc.windowDurationMin <= 1440.0 ==> r == acc.windowDurationMin / 1440.0
  {
    Clamp(acc.windowDurationMin / 1440.0, 0.0, 1.0)
  }

  /** 1 for an account pinned to an agent (after trimming white space), else 0. */
  function PinnedIndicator(acc: Account): (r: real)
    ensures r == 0.0 || r == 1.0
    ensures r == 1.0 <==> HasNonSpace(acc.pinnedAgentId)
  {
    TrimSpaceEmptyIff(acc.pinnedAgentId);
    if TrimSpace(acc.pinnedAgentId) != [] then 1.0 else 0.0
  }

  /** Globals.MaxAgents, or max(1, number of agents) when it is not positive. */
  function EffectiveMaxAgents(sc: Scenario): (m: int)
    ensures m >= 1
    ensures sc.globals.maxAgents > 0 ==> m == sc.globals.maxAgents
    ensures sc.globals.maxAgents <= 0 ==> m == Max(1, |sc.agents|)
  {
    if sc.globals.maxAgents <= 0 then Max(1, |sc.agents|) else sc.globals.maxAgents
  }

  /** AgentsAvailableRatio, or agents/maxAgents when it is not positive, clamped to [0, 1]. */
  function AvailabilityRatio(sc: Scenario, acc: Account): (r: real)
    ensures 0.0 <= r <= 1.0
    ensures 0.0 < acc.availableRatio <= 1.0 ==> r == acc.availableRatio
    ensures acc.availableRatio <= 0.0 && sc.globals.maxAgents <= 0 && |sc.agents| > 0 ==> r == 1.0
  {
    var avail := if acc.availableRatio <= 0.0 then |sc.agents| as real / EffectiveMaxAgents(sc) as real else acc.availableRatio;
    Clamp(avail, 0.0, 1.0)
  }

  /** An account is active on a day when the day is among its active days. */
  predicate ActiveOn(acc: Account, cycleDays: int, occ: Occurrences, day: int) {
    day in ActiveDays(acc.schedule, cycleDays, occ)
  }

  /** The members of a non-empty sequence: those of its prefix and its last element. */
  lemma SnocMembers<T>(s: seq<T>)
    requires s != []
    ensures forall a :: a in s <==> a in s[..|s| - 1] || a == s[|s| - 1]
  {
    assert s == s[..|s| - 1] + [s[|s| - 1]];
  }

  /** The accounts active on a day, in input order. */
  function ActiveAccounts(accounts: seq<Account>, cycleDays: int, occ: Occurrences, day: int): (act: seq<Account>)
    ensures |act| <= |accounts|
    ensures forall a :: a in act ==> a in accounts && ActiveOn(a, cycleDays, occ, day)
    ensures forall a :: a in accounts && ActiveOn(a, cycleDays, occ, day) ==> a in act
  {
    if accounts == [] then []
    else
      var pre := accounts[..|accounts| - 1];
      var prev := ActiveAccounts(pre, cycleDays, occ, day);
      var last := accounts[|accounts| - 1];
      SnocMembers(accounts);
      if ActiveOn(last, cycleDays, occ, day) then prev + [last] else prev
  }

  /** The selection keeps input order: it distributes over concatenation. */
  lemma {:induction false} ActiveAccountsAppend(xs: seq<Account>, ys: seq<Account>, cycleDays: int, occ: Occurrences, day: int)
    ensures ActiveAccounts(xs + ys, cycleDays, occ, day)
         == ActiveAccounts(xs, cycleDays, occ, day) + ActiveAccounts(ys, cycleDays, occ, day)
    decreases |ys|
  {
    if ys == [] {
      assert xs + ys == xs;
    } else {
      var n := |ys| - 1;
      assert (xs + ys)[..|xs + ys| - 1] == xs + ys[..n];
      assert (xs + ys)[|xs + ys| - 1] == ys[n];
      ActiveAccountsAppend(xs, ys[..n], cycleDays, occ, day);
    }
  }

  /** A day outside the cycle selects nobody. */
  lemma {:induction false} ActiveAccountsOutsideCycle(accounts: seq<Account>, cycleDays: int, occ: Occurrences, day: int)
    requires day < 0 || cycleDays <= day
    ensures ActiveAccounts(accounts, cycleDays, occ, day) == []
  {
    if accounts != [] {
      ActiveAccountsOutsideCycle(accounts[..|accounts| - 1], cycleDays, occ, day);
      ActiveDaysInCycle(accounts[|accounts| - 1].schedule, cycleDays, occ);
    }
  }

  /** The selection loop of buildVroom and naiveSim. */
  method CollectActive(accounts: seq<Account>, cycleDays: int, occ: Occurrences, day: int) returns (act: seq<Account>)
    ensures act == ActiveAccounts(accounts, cycleDays, occ, day)
  {
    act := [];
    var k := 0;
    while k < |accounts|
      invariant 0 <= k <= |accounts|
      invariant act == ActiveAccounts(accounts[..k], cycleDays, occ, day)
    {
      var days := ActiveDaysOf(accounts[k].schedule, cycleDays, occ);
      var here := ContainsDay(days, day);
      if here {
        act := act + [accounts[k]];
      }
      assert accounts[..k + 1][..k] == accounts[..k];
      k := k + 1;
    }
    assert accounts[..k] == accounts;
  }
}
