/** heatmapFor (extended.go:159-199): the accounts active on one day add the
    amplitude of one feature to the H3 cell they lie in; each cell that
    parses back becomes one output cell. */
module Heatmap {
  import opened Wrappers
  import opened Numeric
  import opened GoStrings
  import opened Recurrence
  import opened Domain

  /** h3.LatLngToCell(lat, lng, level).String(). */
  type CellOf = (real, real, int) -> string

  /** cell.UnmarshalText then h3.CellToLatLng: None when the text does not parse. */
  type CellCenter = string -> Option<(real, real)>

  datatype HeatCell = HeatCell(h3Index: string, lat: real, lng: real, value: real)

  /** The five account channels of the embedding. */
  predicate KnownFeature(feature: string) {
    feature == "service_stop_time" || feature == "service_window_start" || feature == "service_window_duration"
    || feature == "pinned_accounts" || feature == "agents_available"
  }

  /** The amplitude of one account for a feature name; None for an unknown name. */
  function FeatureAmplitude(sc: Scenario, acc: Account, feature: string): (r: Option<real>)
    ensures r.Some? <==> KnownFeature(feature)
    ensures r.Some? ==> 0.0 <= r.value <= 1.0
    ensures feature == "service_stop_time" ==> r == Some(ServiceRatio(acc))
    ensures feature == "service_window_start" ==> r == Some(WindowStartRatio(acc))
    ensures feature == "service_window_duration" ==> r == Some(WindowDurationRatio(acc))
    ensures feature == "pinned_accounts" ==> (r == Some(1.0) <==> HasNonSpace(acc.pinnedAgentId))
    ensures feature == "agents_available" ==> r == Some(AvailabilityRatio(sc, acc))
  {
    if feature == "service_stop_time" then Some(ServiceRatio(acc))
    else if feature == "service_window_start" then Some(WindowStartRatio(acc))
    else if feature == "service_window_duration" then Some(WindowDurationRatio(acc))
    else if feature == "pinned_accounts" then Some(PinnedIndicator(acc))
    else if feature == "agents_available" then Some(AvailabilityRatio(sc, acc))
    else None
  }

  /** An account contributes when it is active on the day and the feature is known. */
  predicate Contributes(sc: Scenario, acc: Account, feature: string, day: int, cycle: int, occ: Occurrences) {
    ActiveOn(acc, cycle, occ, day) && FeatureAmplitude(sc, acc, feature).Some?
  }

  /** m[h] += amp: a missing key reads as 0. */
  function AddTo(m: map<string, real>, h: string, amp: real): (r: map<string, real>)
    ensures r.Keys == m.Keys + {h}
    ensures r[h] == (if h in m then m[h] else 0.0) + amp
    ensures forall g :: g in m && g != h ==> r[g] == m[g]
  {
    m[h := (if h in m then m[h] else 0.0) + amp]
  }

  /** The accumulation loop over the accounts, in order. */
  function Totals(sc: Scenario, accounts: seq<Account>, feature: string, day: int, level: int, cycle: int,
                  occ: Occurrences, cellOf: CellOf): map<string, real>
  {
    if accounts == [] then map[]
    else
      var m := Totals(sc, accounts[..|accounts| - 1], feature, day, level, cycle, occ, cellOf);
      var acc := accounts[|accounts| - 1];
      if Contributes(sc, acc, feature, day, cycle, occ)
      then AddTo(m, cellOf(acc.lat, acc.lng, level), FeatureAmplitude(sc, acc, feature).value)
      else m
  }

  lemma TotalsLast(sc: Scenario, accounts: seq<Account>, feature: string, day: int, level: int, cycle: int,
                   occ: Occurrences, cellOf: CellOf)
    requires accounts != []
    ensures var m := Totals(sc, accounts[..|accounts| - 1], feature, day, level, cycle, occ, cellOf);
      var acc := accounts[|accounts| - 1];
      Totals(sc, accounts, feature, day, level, cycle, occ, cellOf)
      == match Contribution(sc, acc, feature, day, level, cycle, occ, cellOf)
         case None => m
         case Some(c) => AddTo(m, c.0, c.1)
  {
  }

  /** Reference definition: the sum of the amplitudes of the contributing accounts in cell h. */
  function CellSum(sc: Scenario, accounts: seq<Account>, feature: string, day: int, level: int, cycle: int,
                   occ: Occurrences, cellOf: CellOf, h: string): real
  {
    if accounts == [] then 0.0
    else
      var acc := accounts[|accounts| - 1];
      CellSum(sc, accounts[..|accounts| - 1], feature, day, level, cycle, occ, cellOf, h)
        + (if Contributes(sc, acc, feature, day, cycle, occ) && cellOf(acc.lat, acc.lng, level) == h
           then FeatureAmplitude(sc, acc, feature).value else 0.0)
  }

  /** Number of contributing accounts in cell h. */
  function CellCount(sc: Scenario, accounts: seq<Account>, feature: string, day: int, level: int, cycle: int,
                     occ: Occurrences, cellOf: CellOf, h: string): nat
  {
    if accounts == [] then 0
    else
      var acc := accounts[|accounts| - 1];
      CellCount(sc, accounts[..|accounts| - 1], feature, day, level, cycle, occ, cellOf, h)
        + (if Contributes(sc, acc, feature, day, cycle, occ) && cellOf(acc.lat, acc.lng, level) == h then 1 else 0)
  }

  /** A cell is in the map exactly when some account contributes to it, and
      its value is the sum over those accounts (accounts in one cell add up). */
  lemma {:induction false} TotalsAreCellSums(sc: Scenario, accounts: seq<Account>, feature: string, day: int, level: int,
                                             cycle: int, occ: Occurrences, cellOf: CellOf, h: string)
    ensures h in Totals(sc, accounts, feature, day, level, cycle, occ, cellOf)
            <==> CellCount(sc, accounts, feature, day, level, cycle, occ, cellOf, h) > 0
    ensures h in Totals(sc, accounts, feature, day, level, cycle, occ, cellOf)
            ==> Totals(sc, accounts, feature, day, level, cycle, occ, cellOf)[h]
                == CellSum(sc, accounts, feature, day, level, cycle, occ, cellOf, h)
  {
    if accounts != [] {
      var prev := accounts[..|accounts| - 1];
      TotalsAreCellSums(sc, prev, feature, day, level, cycle, occ, cellOf, h);
      if CellCount(sc, prev, feature, day, level, cycle, occ, cellOf, h) == 0 {
        CellSumOfEmptyCell(sc, prev, feature, day, level, cycle, occ, cellOf, h);
      }
    }
  }

  /** A cell no account contributes to sums to 0. */
  lemma {:induction false} CellSumOfEmptyCell(sc: Scenario, accounts: seq<Account>, feature: string, day: int, level: int,
                                              cycle: int, occ: Occurrences, cellOf: CellOf, h: string)
    requires CellCount(sc, accounts, feature, day, level, cycle, occ, cellOf, h) == 0
    ensures CellSum(sc, accounts, feature, day, level, cycle, occ, cellOf, h) == 0.0
  {
    if accounts != [] {
      CellSumOfEmptyCell(sc, accounts[..|accounts| - 1], feature, day, level, cycle, occ, cellOf, h);
    }
  }

  /** Each cell's value lies between 0 and the number of accounts summed into it. */
  lemma {:induction false} CellSumBounds(sc: Scenario, accounts: seq<Account>, feature: string, day: int, level: int,
                                         cycle: int, occ: Occurrences, cellOf: CellOf, h: string)
    ensures 0.0 <= CellSum(sc, accounts, feature, day, level, cycle, occ, cellOf, h)
              <= CellCount(sc, accounts, feature, day, level, cycle, occ, cellOf, h) as real
  {
    if accounts != [] {
      CellSumBounds(sc, accounts[..|accounts| - 1], feature, day, level, cycle, occ, cellOf, h);
    }
  }

  /** An unknown feature name contributes nothing. */
  lemma {:induction false} UnknownFeatureIsEmpty(sc: Scenario, accounts: seq<Account>, feature: string, day: int, level: int,
                                                 cycle: int, occ: Occurrences, cellOf: CellOf)
    requires !KnownFeature(feature)
    ensures Totals(sc, accounts, feature, day, level, cycle, occ, cellOf) == map[]
  {
    if accounts != [] {
      UnknownFeatureIsEmpty(sc, accounts[..|accounts| - 1], feature, day, level, cycle, occ, cellOf);
    }
  }

  /** The output cells for the keys in ks: one per key of m that parses back. */
  function CellsOf(m: map<string, real>, ks: set<string>, center: CellCenter): set<HeatCell> {
    set h | h in ks && h in m && center(h).Some? :: HeatCell(h, center(h).value.0, center(h).value.1, m[h])
  }

  /** The output cells of heatmapFor for a map of totals. */
  function Cells(m: map<string, real>, center: CellCenter): set<HeatCell> {
    CellsOf(m, m.Keys, center)
  }

  /** What one account adds, if anything: its cell and its amplitude. */
  function Contribution(sc: Scenario, acc: Account, feature: string, day: int, level: int, cycle: int,
                        occ: Occurrences, cellOf: CellOf): Option<(string, real)>
  {
    if Contributes(sc, acc, feature, day, cycle, occ)
    then Some((cellOf(acc.lat, acc.lng, level), FeatureAmplitude(sc, acc, feature).value))
    else None
  }

  /** The body of the account loop up to m[h] += amp: the schedule test and the feature switch. */
  method AccountContribution(sc: Scenario, acc: Account, feature: string, day: int, level: int, cycle: int,
                             occ: Occurrences, cellOf: CellOf) returns (c: Option<(string, real)>)
    ensures c == Contribution(sc, acc, feature, day, level, cycle, occ, cellOf)
  {
    var active := ActiveDaysOf(acc.schedule, cycle, occ);
    var ok := ContainsDay(active, day);
    if !ok {
      return None;
    }
    var amp := FeatureAmplitude(sc, acc, feature);
    if amp.None? {
      return None;
    }
    c := Some((cellOf(acc.lat, acc.lng, level), amp.value));
  }

  /** The accumulation loop of heatmapFor. */
  method AccumulateTotals(sc: Scenario, feature: string, day: int, level: int, cycle: int,
                          occ: Occurrences, cellOf: CellOf) returns (m: map<string, real>)
    ensures m == Totals(sc, sc.accounts, feature, day, level, cycle, occ, cellOf)
  {
    m := map[];
    var k := 0;
    while k < |sc.accounts|
      invariant 0 <= k <= |sc.accounts|
      invariant m == Totals(sc, sc.accounts[..k], feature, day, level, cycle, occ, cellOf)
    {
      assert sc.accounts[..k + 1][..k] == sc.accounts[..k];
      TotalsLast(sc, sc.accounts[..k + 1], feature, day, level, cycle, occ, cellOf);
      var c := AccountContribution(sc, sc.accounts[k], feature, day, level, cycle, occ, cellOf);
      if c.Some? {
        m := AddTo(m, c.value.0, c.value.1);
      }
      k := k + 1;
    }
    assert sc.accounts[..k] == sc.accounts;
  }

  /** The elements of a sequence, as a set. */
  function Elements(s: seq<HeatCell>): set<HeatCell> {
    set c | c in s
  }

  lemma ElementsAppend(s: seq<HeatCell>, c: HeatCell)
    ensures Elements(s + [c]) == Elements(s) + {c}
  {
  }

  /** Appending a cell whose key is new keeps the keys distinct and inside done + {key}. */
  lemma DistinctAppend(out: seq<HeatCell>, cell: HeatCell, done: set<string>)
    requires forall i :: 0 <= i < |out| ==> out[i].h3Index in done
    requires forall i, j :: 0 <= i < j < |out| ==> out[i].h3Index != out[j].h3Index
    requires cell.h3Index !in done
    ensures forall i :: 0 <= i < |out| + 1 ==> (out + [cell])[i].h3Index in done + {cell.h3Index}
    ensures forall i, j :: 0 <= i < j < |out| + 1 ==> (out + [cell])[i].h3Index != (out + [cell])[j].h3Index
  {
    var s := out + [cell];
    forall i, j | 0 <= i < j < |s| ensures s[i].h3Index != s[j].h3Index {
      if j == |out| {
        assert s[i] == out[i];
      } else {
        assert s[i] == out[i] && s[j] == out[j];
      }
    }
  }

  /** What the emission loop has produced after taking the keys in done:
      the cells of those keys, each key at most once. */
  predicate Emitted(m: map<string, real>, center: CellCenter, out: seq<HeatCell>, done: set<string>) {
    && Elements(out) == CellsOf(m, done, center)
    && (forall i :: 0 <= i < |out| ==> out[i].h3Index in done)
    && (forall i, j :: 0 <= i < j < |out| ==> out[i].h3Index != out[j].h3Index)
    && |out| <= |done|
  }

  /** One iteration of the emission loop: key h, appended when it parses back. */
  method EmitOne(m: map<string, real>, center: CellCenter, out: seq<HeatCell>, done: set<string>, h: string)
    returns (next: seq<HeatCell>)
    requires h in m && h !in done
    requires Emitted(m, center, out, done)
    ensures Emitted(m, center, next, done + {h})
  {
    next := out;
    var about := center(h);
    CellsGrow(m, done, h, center);
    if about.Some? {
      var cell := HeatCell(h, about.value.0, about.value.1, m[h]);
      ElementsAppend(out, cell);
      DistinctAppend(out, cell, done);
      next := out + [cell];
    }
    assert |done + {h}| == |done| + 1;
  }

  /** The emission loop: the keys are taken in an unspecified order, as Go's
      map iteration does; a key that does not parse back is skipped. */
  method EmitCells(m: map<string, real>, center: CellCenter) returns (out: seq<HeatCell>)
    ensures Elements(out) == Cells(m, center)
    ensures forall i, j :: 0 <= i < j < |out| ==> out[i].h3Index != out[j].h3Index
    ensures |out| <= |m|
  {
    out := [];
    var rest := m.Keys;
    var done: set<string> := {};
    while rest != {}
      invariant rest + done == m.Keys && rest !! done
      invariant Emitted(m, center, out, done)
      decreases |rest|
    {
      var h :| h in rest;
      out := EmitOne(m, center, out, done, h);
      rest := rest - {h};
      done := done + {h};
    }
    assert done == m.Keys;
  }

  /** Taking one more key adds at most its cell. */
  lemma CellsGrow(m: map<string, real>, done: set<string>, h: string, center: CellCenter)
    requires h in m && h !in done
    ensures CellsOf(m, done + {h}, center)
         == CellsOf(m, done, center) + (if center(h).Some? then {HeatCell(h, center(h).value.0, center(h).value.1, m[h])} else {})
  {
    var extra := if center(h).Some? then {HeatCell(h, center(h).value.0, center(h).value.1, m[h])} else {};
    forall c | c in CellsOf(m, done + {h}, center) ensures c in CellsOf(m, done, center) + extra {
      var g :| g in done + {h} && g in m && center(g).Some? && c == HeatCell(g, center(g).value.0, center(g).value.1, m[g]);
      if g != h {
        assert g in done;
      }
    }
  }

  /** heatmapFor: the cycle falls back to the server default when 0. */
  method HeatmapFor(sc: Scenario, feature: string, day: int, level: int, defaultCycle: int,
                    occ: Occurrences, cellOf: CellOf, center: CellCenter) returns (out: seq<HeatCell>)
    ensures var m := Totals(sc, sc.accounts, feature, day, level, OrDefault(sc.params.cycleDays, defaultCycle), occ, cellOf);
      && Elements(out) == Cells(m, center)
      && (forall i, j :: 0 <= i < j < |out| ==> out[i].h3Index != out[j].h3Index)
      && |out| <= |m|
  {
    var cycle := sc.params.cycleDays;
    if cycle == 0 {
      cycle := defaultCycle;
    }
    var m := AccumulateTotals(sc, feature, day, level, cycle, occ, cellOf);
    out := EmitCells(m, center);
  }
}
