/** buildEmbedding (main.go:245-337): resolves the parameters against the
    server defaults, accumulates six waveform channels (one per account
    feature and one for agent start locations), L2-normalises each, and lays
    them out in a fixed order with the offsets of each channel. */
module Embedding {
  import opened Wrappers
  import opened Numeric
  import opened Schedules
  import opened Recurrence
  import opened Domain
  import opened Signal

  /** The embedding section of the server configuration. */
  datatype EmbeddingConfig = EmbeddingConfig(
    cycleDays: int, h3Levels: seq<int>,
    resStopTime: int, resWindowStart: int, resWindowDuration: int,
    resPinned: int, resAgentsAvailable: int, resAgentStart: int,
    overshoot: real, baseFrequency: real)

  /** The channel names, in the order of the flat embedding. */
  const ChannelOrder: seq<string> := [
    "service_stop_time", "service_window_start", "service_window_duration",
    "pinned_accounts", "agents_available", "agent_start_locations"]

  /** The parameter defaulting at the top of buildEmbedding. */
  function Resolve(p: EmbeddingParams, cfg: EmbeddingConfig): (q: EmbeddingParams)
    ensures q.resStopTime == OrDefault(p.resStopTime, cfg.resStopTime)
    ensures q.resWindowStart == OrDefault(p.resWindowStart, cfg.resWindowStart)
    ensures q.resWindowDuration == OrDefault(p.resWindowDuration, cfg.resWindowDuration)
    ensures q.resPinned == OrDefault(p.resPinned, cfg.resPinned)
    ensures q.resAgentsAvailable == OrDefault(p.resAgentsAvailable, cfg.resAgentsAvailable)
    ensures q.resAgentStart == OrDefault(p.resAgentStart, cfg.resAgentStart)
    ensures q.h3Levels == (if |p.h3Levels| == 0 then cfg.h3Levels else p.h3Levels)
    ensures q.cycleDays == OrDefault(p.cycleDays, cfg.cycleDays)
  {
    EmbeddingParams(
      OrDefault(p.resStopTime, cfg.resStopTime),
      OrDefault(p.resWindowStart, cfg.resWindowStart),
      OrDefault(p.resWindowDuration, cfg.resWindowDuration),
      OrDefault(p.resPinned, cfg.resPinned),
      OrDefault(p.resAgentsAvailable, cfg.resAgentsAvailable),
      OrDefault(p.resAgentStart, cfg.resAgentStart),
      if |p.h3Levels| == 0 then cfg.h3Levels else p.h3Levels,
      OrDefault(p.cycleDays, cfg.cycleDays))
  }

  /** Resolving twice changes nothing more; a request that sets every field keeps it. */
  lemma ResolveIdempotent(p: EmbeddingParams, cfg: EmbeddingConfig)
    ensures Resolve(Resolve(p, cfg), cfg) == Resolve(p, cfg)
    ensures p.resStopTime != 0 && p.resWindowStart != 0 && p.resWindowDuration != 0 && p.resPinned != 0
         && p.resAgentsAvailable != 0 && p.resAgentStart != 0 && |p.h3Levels| != 0 && p.cycleDays != 0
         ==> Resolve(p, cfg) == p
  {
  }

  /** An all-zero channel of n entries (make([]float64, n)). */
  function Zeros(n: nat): (z: seq<real>)
    ensures |z| == n && forall i :: 0 <= i < n ==> z[i] == 0.0
  {
    seq(n, i => 0.0)
  }

  /** The five account channels, accumulated together. */
  datatype Channels = Channels(
    stopTime: seq<real>, windowStart: seq<real>, windowDuration: seq<real>,
    pinned: seq<real>, agentsAvailable: seq<real>)

  /** The five amplitudes of one account. */
  datatype Amps = Amps(stopTime: real, windowStart: real, windowDuration: real, pinned: real, agentsAvailable: real)

  function AccountAmps(sc: Scenario, acc: Account, overshoot: real): Amps {
    Amps(Amplitude(ServiceRatio(acc), overshoot), Amplitude(WindowStartRatio(acc), overshoot),
         Amplitude(WindowDurationRatio(acc), overshoot), Amplitude(PinnedIndicator(acc), overshoot),
         Amplitude(AvailabilityRatio(sc, acc), overshoot))
  }

  /** One active day of one account: the five superimpose calls. */
  function DayStep(c: Channels, a: Amps, phi: real, base: real, levels: seq<int>, sin: Sine): Channels {
    Channels(
      Superimposed(c.stopTime, a.stopTime, base, levels, phi, sin),
      Superimposed(c.windowStart, a.windowStart, base, levels, phi, sin),
      Superimposed(c.windowDuration, a.windowDuration, base, levels, phi, sin),
      Superimposed(c.pinned, a.pinned, base, levels, phi, sin),
      Superimposed(c.agentsAvailable, a.agentsAvailable, base, levels, phi, sin))
  }

  /** The day loop of one account. */
  function DaysStep(c: Channels, a: Amps, latN: real, lngN: real, days: seq<int>, cycle: int,
                    base: real, levels: seq<int>, sin: Sine): Channels
  {
    if days == [] then c
    else DayStep(DaysStep(c, a, latN, lngN, days[..|days| - 1], cycle, base, levels, sin), a,
                 PhShift(latN, lngN, days[|days| - 1], cycle), base, levels, sin)
  }

  /** The account of an iteration contributes on each of its active days. */
  function AccountStep(c: Channels, sc: Scenario, acc: Account, p: EmbeddingParams, cfg: EmbeddingConfig,
                       occ: Occurrences, sin: Sine): Channels
  {
    DaysStep(c, AccountAmps(sc, acc, cfg.overshoot), Normalize(acc.lat, -90.0, 90.0), Normalize(acc.lng, -180.0, 180.0),
             ActiveDays(acc.schedule, p.cycleDays, occ), p.cycleDays, cfg.baseFrequency, p.h3Levels, sin)
  }

  /** The account loop, over the accounts in order. */
  function AccountsStep(c: Channels, sc: Scenario, accounts: seq<Account>, p: EmbeddingParams, cfg: EmbeddingConfig,
                        occ: Occurrences, sin: Sine): Channels
  {
    if accounts == [] then c
    else AccountStep(AccountsStep(c, sc, accounts[..|accounts| - 1], p, cfg, occ, sin), sc,
                     accounts[|accounts| - 1], p, cfg, occ, sin)
  }

  /** The agent loop: each agent adds a full-amplitude wave phased by its start location. */
  function AgentsStep(v: seq<real>, agents: seq<Agent>, p: EmbeddingParams, cfg: EmbeddingConfig, sin: Sine): (w: seq<real>)
    ensures |w| == |v|
  {
    if agents == [] then v
    else
      var ag := agents[|agents| - 1];
      Superimposed(AgentsStep(v, agents[..|agents| - 1], p, cfg, sin), Amplitude(1.0, cfg.overshoot), cfg.baseFrequency,
                   p.h3Levels, PhShift(Normalize(ag.lat, -90.0, 90.0), Normalize(ag.lng, -180.0, 180.0), 0, p.cycleDays), sin)
  }

  lemma {:induction false} DaysStepLengths(c: Channels, a: Amps, latN: real, lngN: real, days: seq<int>, cycle: int,
                                           base: real, levels: seq<int>, sin: Sine)
    ensures var r := DaysStep(c, a, latN, lngN, days, cycle, base, levels, sin);
      |r.stopTime| == |c.stopTime| && |r.windowStart| == |c.windowStart| && |r.windowDuration| == |c.windowDuration|
      && |r.pinned| == |c.pinned| && |r.agentsAvailable| == |c.agentsAvailable|
  {
    if days != [] {
      DaysStepLengths(c, a, latN, lngN, days[..|days| - 1], cycle, base, levels, sin);
    }
  }

  /** Accumulation never changes a channel's length. */
  lemma {:induction false} AccountsStepLengths(c: Channels, sc: Scenario, accounts: seq<Account>, p: EmbeddingParams,
                                               cfg: EmbeddingConfig, occ: Occurrences, sin: Sine)
    ensures var r := AccountsStep(c, sc, accounts, p, cfg, occ, sin);
      |r.stopTime| == |c.stopTime| && |r.windowStart| == |c.windowStart| && |r.windowDuration| == |c.windowDuration|
      && |r.pinned| == |c.pinned| && |r.agentsAvailable| == |c.agentsAvailable|
  {
    if accounts != [] {
      var prev := AccountsStep(c, sc, accounts[..|accounts| - 1], p, cfg, occ, sin);
      AccountsStepLengths(c, sc, accounts[..|accounts| - 1], p, cfg, occ, sin);
      var acc := accounts[|accounts| - 1];
      DaysStepLengths(prev, AccountAmps(sc, acc, cfg.overshoot), Normalize(acc.lat, -90.0, 90.0), Normalize(acc.lng, -180.0, 180.0),
                      ActiveDays(acc.schedule, p.cycleDays, occ), p.cycleDays, cfg.baseFrequency, p.h3Levels, sin);
    }
  }

  /** The flat embedding with each channel's [start, end) and the channels by name. */
  datatype Layout = Layout(embedding: seq<real>, offsets: map<string, (int, int)>)

  /** The appendWithOffset closure. */
  function AppendWithOffset(l: Layout, name: string, v: seq<real>): (r: Layout)
    ensures r.embedding == l.embedding + v
    ensures r.offsets == l.offsets[name := (|l.embedding|, |l.embedding| + |v|)]
  {
    Layout(l.embedding + v, l.offsets[name := (|l.embedding|, |l.embedding| + |v|)])
  }

  /** The channels appended one after another, starting from an empty layout. */
  function Assemble(names: seq<string>, comps: seq<seq<real>>): Layout
    requires |names| == |comps|
  {
    if names == [] then Layout([], map[])
    else AppendWithOffset(Assemble(names[..|names| - 1], comps[..|comps| - 1]), names[|names| - 1], comps[|comps| - 1])
  }

  /** The concatenation of the channels. */
  function Flatten(comps: seq<seq<real>>): seq<real> {
    if comps == [] then [] else Flatten(comps[..|comps| - 1]) + comps[|comps| - 1]
  }

  /** The offset of channel k: the total length of the channels before it. */
  function Start(comps: seq<seq<real>>, k: int): int
    requires 0 <= k <= |comps|
  {
    |Flatten(comps[..k])|
  }

  /** Flattening distributes over concatenation. */
  lemma {:induction false} FlattenAppend(a: seq<seq<real>>, b: seq<seq<real>>)
    ensures Flatten(a + b) == Flatten(a) + Flatten(b)
    decreases |b|
  {
    if b == [] {
      assert a + b == a;
    } else {
      var m := |b| - 1;
      assert (a + b)[..|a + b| - 1] == a + b[..m];
      assert (a + b)[|a + b| - 1] == b[m];
      FlattenAppend(a, b[..m]);
      calc {
        Flatten(a + b);
        Flatten(a + b[..m]) + b[m];
        Flatten(a) + Flatten(b[..m]) + b[m];
        Flatten(a) + (Flatten(b[..m]) + b[m]);
      }
    }
  }

  /** The offset of a channel within a prefix is its offset in the whole. */
  lemma StartOfPrefix(comps: seq<seq<real>>, n: nat, k: nat)
    requires k <= n <= |comps|
    ensures Start(comps[..n], k) == Start(comps, k)
  {
    assert comps[..n][..k] == comps[..k];
  }

  /** The offsets tile [0, |embedding|): the first starts at 0, each ends where
      the next starts, the last ends at the end, and each slice is its channel. */
  lemma StartsTile(comps: seq<seq<real>>, k: nat)
    requires k < |comps|
    ensures Start(comps, 0) == 0
    ensures Start(comps, k + 1) == Start(comps, k) + |comps[k]|
    ensures Start(comps, |comps|) == |Flatten(comps)|
    ensures 0 <= Start(comps, k) <= Start(comps, k + 1) <= |Flatten(comps)|
    ensures Flatten(comps)[Start(comps, k)..Start(comps, k + 1)] == comps[k]
  {
    assert comps[..|comps|] == comps;
    FlattenSnoc(comps, k);
    FlattenSplit(comps, k);
    SliceMiddle(Flatten(comps[..k]), comps[k], Flatten(comps[k + 1..]));
  }

  lemma FlattenSnoc(comps: seq<seq<real>>, k: nat)
    requires k < |comps|
    ensures Flatten(comps[..k + 1]) == Flatten(comps[..k]) + comps[k]
  {
    assert comps[..k + 1][..k] == comps[..k];
  }

  lemma FlattenSplit(comps: seq<seq<real>>, k: nat)
    requires k < |comps|
    ensures Flatten(comps) == Flatten(comps[..k + 1]) + Flatten(comps[k + 1..])
  {
    assert comps == comps[..k + 1] + comps[k + 1..];
    FlattenAppend(comps[..k + 1], comps[k + 1..]);
  }

  lemma SliceMiddle(a: seq<real>, b: seq<real>, c: seq<real>)
    ensures (a + b + c)[|a|..|a| + |b|] == b
  {
  }

  /** The layout's embedding is the concatenation of the channels. */
  lemma {:induction false} AssembleEmbedding(names: seq<string>, comps: seq<seq<real>>)
    requires |names| == |comps|
    ensures Assemble(names, comps).embedding == Flatten(comps)
  {
    if names != [] {
      AssembleEmbedding(names[..|names| - 1], comps[..|comps| - 1]);
    }
  }

  /** The layout has an offset entry for each name and no other. */
  lemma {:induction false} AssembleKeys(names: seq<string>, comps: seq<seq<real>>)
    requires |names| == |comps|
    ensures Assemble(names, comps).offsets.Keys == (set i | 0 <= i < |names| :: names[i])
  {
    if names != [] {
      var n := |names| - 1;
      AssembleKeys(names[..n], comps[..n]);
      var all := set i | 0 <= i < |names| :: names[i];
      var before := set i | 0 <= i < n :: names[..n][i];
      forall x | x in all ensures x in before + {names[n]} {
        var i :| 0 <= i < |names| && names[i] == x;
        if i < n {
          assert names[..n][i] == x;
        }
      }
      forall x | x in before ensures x in all {
        var i :| 0 <= i < n && names[..n][i] == x;
        assert names[i] == x;
      }
      assert all == before + {names[n]};
    }
  }

  /** With distinct names, each channel's offsets are [Start(k), Start(k+1)). */
  lemma {:induction false} AssembleOffsets(names: seq<string>, comps: seq<seq<real>>)
    requires |names| == |comps|
    requires forall i, j :: 0 <= i < j < |names| ==> names[i] != names[j]
    ensures forall k :: 0 <= k < |names| ==>
              names[k] in Assemble(names, comps).offsets && Assemble(names, comps).offsets[names[k]] == (Start(comps, k), Start(comps, k + 1))
  {
    if names != [] {
      var n := |names| - 1;
      var prev := Assemble(names[..n], comps[..n]);
      AssembleOffsets(names[..n], comps[..n]);
      AssembleEmbedding(names[..n], comps[..n]);
      var l := Assemble(names, comps);
      assert comps[..n + 1] == comps;
      assert l.offsets == prev.offsets[names[n] := (|prev.embedding|, |prev.embedding| + |comps[n]|)];
      forall k | 0 <= k < n
        ensures names[k] in l.offsets && l.offsets[names[k]] == (Start(comps, k), Start(comps, k + 1))
      {
        assert names[..n][k] == names[k];
        assert names[k] != names[n];
        StartOfPrefix(comps, n, k);
        StartOfPrefix(comps, n, k + 1);
      }
      assert Start(comps, n) == |prev.embedding|;
    }
  }

  /** The six named channels laid out in ChannelOrder: one entry per name, the
      first starting at 0, each ending where the next starts, the last ending
      at the end. */
  lemma LayoutOfSix(comps: seq<seq<real>>)
    requires |comps| == 6
    ensures var l := Assemble(ChannelOrder, comps);
      && l.embedding == Flatten(comps)
      && l.offsets.Keys == (set k | 0 <= k < 6 :: ChannelOrder[k])
      && (forall k :: 0 <= k < 6 ==> ChannelOrder[k] in l.offsets)
      && l.offsets[ChannelOrder[0]].0 == 0
      && l.offsets[ChannelOrder[5]].1 == |l.embedding|
      && (forall k :: 0 <= k < 5 ==> l.offsets[ChannelOrder[k]].1 == l.offsets[ChannelOrder[k + 1]].0)
  {
    ChannelOrderDistinct();
    AssembleEmbedding(ChannelOrder, comps);
    AssembleKeys(ChannelOrder, comps);
    AssembleOffsets(ChannelOrder, comps);
    StartsTile(comps, 0);
    StartsTile(comps, 5);
    var l := Assemble(ChannelOrder, comps);
    forall k | 0 <= k < 5
      ensures l.offsets[ChannelOrder[k]].1 == l.offsets[ChannelOrder[k + 1]].0
    {
      assert l.offsets[ChannelOrder[k]] == (Start(comps, k), Start(comps, k + 1));
      assert l.offsets[ChannelOrder[k + 1]] == (Start(comps, k + 1), Start(comps, k + 2));
    }
  }

  /** Each of the six channels is the slice of the embedding between its offsets. */
  lemma SlicesOfSix(comps: seq<seq<real>>)
    requires |comps| == 6
    ensures var l := Assemble(ChannelOrder, comps);
      forall k :: 0 <= k < 6 ==>
        && ChannelOrder[k] in l.offsets
        && 0 <= l.offsets[ChannelOrder[k]].0 <= l.offsets[ChannelOrder[k]].1 <= |l.embedding|
        && l.embedding[l.offsets[ChannelOrder[k]].0..l.offsets[ChannelOrder[k]].1] == comps[k]
  {
    ChannelOrderDistinct();
    AssembleEmbedding(ChannelOrder, comps);
    AssembleOffsets(ChannelOrder, comps);
    StartsTile(comps, 0);
    StartsTile(comps, 1);
    StartsTile(comps, 2);
    StartsTile(comps, 3);
    StartsTile(comps, 4);
    StartsTile(comps, 5);
  }

  datatype EmbedError = NegativeLength(channel: string)

  /** What buildEmbedding returns: the flat vector, the channels by name, their offsets, and the meta data. */
  datatype EmbeddingResult = EmbeddingResult(
    embedding: seq<real>, components: map<string, seq<real>>, offsets: map<string, (int, int)>,
    h3Levels: seq<int>, cycleDays: int, order: seq<string>)

  /** The resolution of each channel, in ChannelOrder. */
  function Resolutions(p: EmbeddingParams): seq<int> {
    [p.resStopTime, p.resWindowStart, p.resWindowDuration, p.resPinned, p.resAgentsAvailable, p.resAgentStart]
  }

  /** make([]float64, n) panics for the first negative n, in the order the channels are allocated. */
  function FirstNegative(p: EmbeddingParams): Option<string> {
    if p.resAgentStart < 0 then Some("agent_start_locations")
    else if p.resPinned < 0 then Some("pinned_accounts")
    else if p.resAgentsAvailable < 0 then Some("agents_available")
    else if p.resStopTime < 0 then Some("service_stop_time")
    else if p.resWindowStart < 0 then Some("service_window_start")
    else if p.resWindowDuration < 0 then Some("service_window_duration")
    else None
  }

  /** The six channels, in ChannelOrder, for non-negative resolutions. */
  function Components(sc: Scenario, cfg: EmbeddingConfig, occ: Occurrences, sin: Sine, sqrt: SqrtFn): (comps: seq<seq<real>>)
    requires FirstNegative(Resolve(sc.params, cfg)).None?
    ensures |comps| == 6
    ensures forall k :: 0 <= k < 6 ==> |comps[k]| == Resolutions(Resolve(sc.params, cfg))[k]
  {
    var p := Resolve(sc.params, cfg);
    var agent := L2Normalized(AgentsStep(Zeros(p.resAgentStart), sc.agents, p, cfg, sin), sqrt);
    var c0 := Channels(Zeros(p.resStopTime), Zeros(p.resWindowStart), Zeros(p.resWindowDuration),
                       Zeros(p.resPinned), Zeros(p.resAgentsAvailable));
    var c := AccountsStep(c0, sc, sc.accounts, p, cfg, occ, sin);
    AccountsStepLengths(c0, sc, sc.accounts, p, cfg, occ, sin);
    [L2Normalized(c.stopTime, sqrt), L2Normalized(c.windowStart, sqrt), L2Normalized(c.windowDuration, sqrt),
     L2Normalized(c.pinned, sqrt), L2Normalized(c.agentsAvailable, sqrt), agent]
  }

  /** buildEmbedding, as a value. */
  function Embed(sc: Scenario, cfg: EmbeddingConfig, occ: Occurrences, sin: Sine, sqrt: SqrtFn): Result<EmbeddingResult, EmbedError> {
    var p := Resolve(sc.params, cfg);
    match FirstNegative(p)
    case Some(ch) => Failure(NegativeLength(ch))
    case None =>
      Success(Package(Components(sc, cfg, occ, sin, sqrt), p))
  }

  /** The response of buildEmbedding around its six channels. */
  function Package(comps: seq<seq<real>>, p: EmbeddingParams): EmbeddingResult
    requires |comps| == 6
  {
    var l := Assemble(ChannelOrder, comps);
    EmbeddingResult(l.embedding, ByName(comps), l.offsets, p.h3Levels, p.cycleDays, ChannelOrder)
  }

  /** The components map of the response: each channel under its name. */
  function ByName(comps: seq<seq<real>>): (m: map<string, seq<real>>)
    requires |comps| == 6
    ensures m.Keys == (set k | 0 <= k < 6 :: ChannelOrder[k])
    ensures forall k :: 0 <= k < 6 ==> m[ChannelOrder[k]] == comps[k]
  {
    ChannelOrderDistinct();
    map k | 0 <= k < 6 :: ChannelOrder[k] := comps[k]
  }

  /** buildEmbedding fails exactly when a resolved resolution is negative. */
  lemma EmbedFailsIffNegative(sc: Scenario, cfg: EmbeddingConfig, occ: Occurrences, sin: Sine, sqrt: SqrtFn)
    ensures Embed(sc, cfg, occ, sin, sqrt).Failure? <==> exists k :: 0 <= k < 6 && Resolutions(Resolve(sc.params, cfg))[k] < 0
  {
    var rs := Resolutions(Resolve(sc.params, cfg));
    if FirstNegative(Resolve(sc.params, cfg)).None? {
      assert forall k :: 0 <= k < 6 ==> rs[k] >= 0;
    } else {
      assert rs[0] < 0 || rs[1] < 0 || rs[2] < 0 || rs[3] < 0 || rs[4] < 0 || rs[5] < 0;
    }
  }

  lemma ChannelOrderDistinct()
    ensures forall i, j :: 0 <= i < j < |ChannelOrder| ==> ChannelOrder[i] != ChannelOrder[j]
  {
  }

  /** The layout of a packaged response: the channels concatenated in
      ChannelOrder, each named channel found at its offsets, and the offsets
      tiling the whole vector. */
  lemma PackageLayout(comps: seq<seq<real>>, p: EmbeddingParams)
    requires |comps| == 6
    ensures var r := Package(comps, p);
      && r.order == ChannelOrder
      && r.components.Keys == (set k | 0 <= k < 6 :: ChannelOrder[k])
      && r.offsets.Keys == r.components.Keys
      && (forall k :: 0 <= k < 6 ==> r.components[ChannelOrder[k]] == comps[k])
      && r.offsets[ChannelOrder[0]].0 == 0
      && r.offsets[ChannelOrder[5]].1 == |r.embedding|
      && (forall k :: 0 <= k < 5 ==> r.offsets[ChannelOrder[k]].1 == r.offsets[ChannelOrder[k + 1]].0)
      && (forall k :: 0 <= k < 6 ==>
            && 0 <= r.offsets[ChannelOrder[k]].0 <= r.offsets[ChannelOrder[k]].1 <= |r.embedding|
            && r.embedding[r.offsets[ChannelOrder[k]].0..r.offsets[ChannelOrder[k]].1] == r.components[ChannelOrder[k]])
  {
    LayoutOfSix(comps);
    SlicesOfSix(comps);
  }

  /** A successful embedding: the six channels have the resolved lengths, in the layout above. */
  lemma EmbedLayout(sc: Scenario, cfg: EmbeddingConfig, occ: Occurrences, sin: Sine, sqrt: SqrtFn)
    requires Embed(sc, cfg, occ, sin, sqrt).Success?
    ensures FirstNegative(Resolve(sc.params, cfg)).None?
    ensures Embed(sc, cfg, occ, sin, sqrt).value == Package(Components(sc, cfg, occ, sin, sqrt), Resolve(sc.params, cfg))
    ensures forall k :: 0 <= k < 6 ==> |Components(sc, cfg, occ, sin, sqrt)[k]| == Resolutions(Resolve(sc.params, cfg))[k]
  {
  }

  /** With no agents the agent channel stays all zero, which l2Normalize leaves as it is. */
  lemma NoAgentsZeroChannel(sc: Scenario, cfg: EmbeddingConfig, occ: Occurrences, sin: Sine, sqrt: SqrtFn)
    requires FirstNegative(Resolve(sc.params, cfg)).None?
    requires sc.agents == []
    ensures Components(sc, cfg, occ, sin, sqrt)[5] == Zeros(Resolve(sc.params, cfg).resAgentStart)
  {
    L2NormalizedZero(Zeros(Resolve(sc.params, cfg).resAgentStart), sqrt);
  }

  lemma AgentsStepLast(v: seq<real>, agents: seq<Agent>, p: EmbeddingParams, cfg: EmbeddingConfig, sin: Sine)
    requires agents != []
    ensures var ag := agents[|agents| - 1];
      AgentsStep(v, agents, p, cfg, sin)
      == Superimposed(AgentsStep(v, agents[..|agents| - 1], p, cfg, sin), Amplitude(1.0, cfg.overshoot), cfg.baseFrequency,
                      p.h3Levels, PhShift(Normalize(ag.lat, -90.0, 90.0), Normalize(ag.lng, -180.0, 180.0), 0, p.cycleDays), sin)
  {
  }

  lemma DaysStepNext(c: Channels, a: Amps, latN: real, lngN: real, days: seq<int>, t: int, cycle: int,
                     base: real, levels: seq<int>, sin: Sine, cur: Channels, next: Channels)
    requires 0 <= t < |days|
    requires cur == DaysStep(c, a, latN, lngN, days[..t], cycle, base, levels, sin)
    requires next == DayStep(cur, a, PhShift(latN, lngN, days[t], cycle), base, levels, sin)
    ensures next == DaysStep(c, a, latN, lngN, days[..t + 1], cycle, base, levels, sin)
  {
    assert days[..t + 1][..t] == days[..t];
  }

  lemma AccountsStepNext(start: Channels, sc: Scenario, accounts: seq<Account>, k: int, cur: Channels, next: Channels,
                         p: EmbeddingParams, cfg: EmbeddingConfig, occ: Occurrences, sin: Sine)
    requires 0 <= k < |accounts|
    requires cur == AccountsStep(start, sc, accounts[..k], p, cfg, occ, sin)
    requires next == AccountStep(cur, sc, accounts[k], p, cfg, occ, sin)
    ensures next == AccountsStep(start, sc, accounts[..k + 1], p, cfg, occ, sin)
  {
    assert accounts[..k + 1][..k] == accounts[..k];
  }

  /** The agent loop of buildEmbedding and its normalisation. */
  method AgentChannel(sc: Scenario, p: EmbeddingParams, cfg: EmbeddingConfig, sin: Sine, sqrt: SqrtFn)
    returns (agentVec: array<real>)
    requires p.resAgentStart >= 0
    ensures fresh(agentVec)
    ensures agentVec[..] == L2Normalized(AgentsStep(Zeros(p.resAgentStart), sc.agents, p, cfg, sin), sqrt)
  {
    agentVec := new real[p.resAgentStart](_ => 0.0);
    var amp := Amplitude(1.0, cfg.overshoot);
    var i := 0;
    while i < |sc.agents|
      invariant 0 <= i <= |sc.agents|
      invariant agentVec[..] == AgentsStep(Zeros(p.resAgentStart), sc.agents[..i], p, cfg, sin)
    {
      var ag := sc.agents[i];
      var phi := PhShift(Normalize(ag.lat, -90.0, 90.0), Normalize(ag.lng, -180.0, 180.0), 0, p.cycleDays);
      Superimpose(agentVec, amp, cfg.baseFrequency, p.h3Levels, phi, sin);
      assert sc.agents[..i + 1][..i] == sc.agents[..i];
      AgentsStepLast(Zeros(p.resAgentStart), sc.agents[..i + 1], p, cfg, sin);
      i := i + 1;
    }
    assert sc.agents[..i] == sc.agents;
    L2Normalize(agentVec, sqrt);
  }

  /** The five channels as they stand in the arrays. */
  function Snapshot(stop: array<real>, winStart: array<real>, winDur: array<real>, pinned: array<real>, avail: array<real>): Channels
    reads stop, winStart, winDur, pinned, avail
  {
    Channels(stop[..], winStart[..], winDur[..], pinned[..], avail[..])
  }

  /** The day loop of one account, feeding the five channels. */
  method AccumulateAccount(stop: array<real>, winStart: array<real>, winDur: array<real>, pinned: array<real>, avail: array<real>,
                           sc: Scenario, acc: Account, p: EmbeddingParams, cfg: EmbeddingConfig, occ: Occurrences, sin: Sine)
    requires stop != winStart && stop != winDur && stop != pinned && stop != avail
    requires winStart != winDur && winStart != pinned && winStart != avail
    requires winDur != pinned && winDur != avail && pinned != avail
    modifies stop, winStart, winDur, pinned, avail
    ensures Snapshot(stop, winStart, winDur, pinned, avail)
            == AccountStep(old(Snapshot(stop, winStart, winDur, pinned, avail)), sc, acc, p, cfg, occ, sin)
  {
    var days := ActiveDaysOf(acc.schedule, p.cycleDays, occ);
    var a := AccountAmps(sc, acc, cfg.overshoot);
    var latN := Normalize(acc.lat, -90.0, 90.0);
    var lngN := Normalize(acc.lng, -180.0, 180.0);
    ghost var before := Snapshot(stop, winStart, winDur, pinned, avail);
    ghost var cur := before;
    var t := 0;
    while t < |days|
      invariant 0 <= t <= |days|
      invariant cur == DaysStep(before, a, latN, lngN, days[..t], p.cycleDays, cfg.baseFrequency, p.h3Levels, sin)
      invariant Snapshot(stop, winStart, winDur, pinned, avail) == cur
    {
      var phi := PhShift(latN, lngN, days[t], p.cycleDays);
      SuperimposeDay(stop, winStart, winDur, pinned, avail, a, phi, cfg.baseFrequency, p.h3Levels, sin);
      ghost var next := Snapshot(stop, winStart, winDur, pinned, avail);
      DaysStepNext(before, a, latN, lngN, days, t, p.cycleDays, cfg.baseFrequency, p.h3Levels, sin, cur, next);
      cur := next;
      t := t + 1;
    }
    assert days[..t] == days;
  }

  /** The five superimpose calls of one active day. */
  method SuperimposeDay(stop: array<real>, winStart: array<real>, winDur: array<real>, pinned: array<real>, avail: array<real>,
                        a: Amps, phi: real, base: real, levels: seq<int>, sin: Sine)
    requires stop != winStart && stop != winDur && stop != pinned && stop != avail
    requires winStart != winDur && winStart != pinned && winStart != avail
    requires winDur != pinned && winDur != avail && pinned != avail
    modifies stop, winStart, winDur, pinned, avail
    ensures Snapshot(stop, winStart, winDur, pinned, avail)
            == DayStep(old(Snapshot(stop, winStart, winDur, pinned, avail)),
                       a, phi, base, levels, sin)
  {
    Superimpose(stop, a.stopTime, base, levels, phi, sin);
    Superimpose(winStart, a.windowStart, base, levels, phi, sin);
    Superimpose(winDur, a.windowDuration, base, levels, phi, sin);
    Superimpose(pinned, a.pinned, base, levels, phi, sin);
    Superimpose(avail, a.agentsAvailable, base, levels, phi, sin);
  }

  /** The account loop over the five channels. */
  method AccumulateAccounts(stop: array<real>, winStart: array<real>, winDur: array<real>, pinned: array<real>, avail: array<real>,
                            sc: Scenario, p: EmbeddingParams, cfg: EmbeddingConfig, occ: Occurrences, sin: Sine)
    requires stop != winStart && stop != winDur && stop != pinned && stop != avail
    requires winStart != winDur && winStart != pinned && winStart != avail
    requires winDur != pinned && winDur != avail && pinned != avail
    modifies stop, winStart, winDur, pinned, avail
    ensures Snapshot(stop, winStart, winDur, pinned, avail)
            == AccountsStep(old(Snapshot(stop, winStart, winDur, pinned, avail)), sc, sc.accounts, p, cfg, occ, sin)
  {
    ghost var start := Snapshot(stop, winStart, winDur, pinned, avail);
    ghost var cur := start;
    var k := 0;
    while k < |sc.accounts|
      invariant 0 <= k <= |sc.accounts|
      invariant cur == AccountsStep(start, sc, sc.accounts[..k], p, cfg, occ, sin)
      invariant Snapshot(stop, winStart, winDur, pinned, avail) == cur
    {
      AccumulateAccount(stop, winStart, winDur, pinned, avail, sc, sc.accounts[k], p, cfg, occ, sin);
      ghost var next := Snapshot(stop, winStart, winDur, pinned, avail);
      AccountsStepNext(start, sc, sc.accounts, k, cur, next, p, cfg, occ, sin);
      cur := next;
      k := k + 1;
    }
    assert sc.accounts[..k] == sc.accounts;
  }

  /** The l2Normalize calls on the five account channels. */
  method NormalizeChannels(stop: array<real>, winStart: array<real>, winDur: array<real>, pinned: array<real>, avail: array<real>,
                           sqrt: SqrtFn)
    requires stop != winStart && stop != winDur && stop != pinned && stop != avail
    requires winStart != winDur && winStart != pinned && winStart != avail
    requires winDur != pinned && winDur != avail && pinned != avail
    modifies stop, winStart, winDur, pinned, avail
    ensures var c := old(Snapshot(stop, winStart, winDur, pinned, avail));
      Snapshot(stop, winStart, winDur, pinned, avail)
      == Channels(L2Normalized(c.stopTime, sqrt), L2Normalized(c.windowStart, sqrt), L2Normalized(c.windowDuration, sqrt),
                  L2Normalized(c.pinned, sqrt), L2Normalized(c.agentsAvailable, sqrt))
  {
    L2Normalize(stop, sqrt);
    L2Normalize(winStart, sqrt);
    L2Normalize(winDur, sqrt);
    L2Normalize(pinned, sqrt);
    L2Normalize(avail, sqrt);
  }

  /** The five account channels: allocation, the account loop and the normalisations. */
  method AccountChannels(sc: Scenario, p: EmbeddingParams, cfg: EmbeddingConfig, occ: Occurrences, sin: Sine, sqrt: SqrtFn)
    returns (stop: array<real>, winStart: array<real>, winDur: array<real>, pinned: array<real>, avail: array<real>)
    requires p.resStopTime >= 0 && p.resWindowStart >= 0 && p.resWindowDuration >= 0
    requires p.resPinned >= 0 && p.resAgentsAvailable >= 0
    ensures fresh(stop) && fresh(winStart) && fresh(winDur) && fresh(pinned) && fresh(avail)
    ensures var c := AccountsStep(Channels(Zeros(p.resStopTime), Zeros(p.resWindowStart), Zeros(p.resWindowDuration),
                                           Zeros(p.resPinned), Zeros(p.resAgentsAvailable)), sc, sc.accounts, p, cfg, occ, sin);
      Snapshot(stop, winStart, winDur, pinned, avail)
      == Channels(L2Normalized(c.stopTime, sqrt), L2Normalized(c.windowStart, sqrt), L2Normalized(c.windowDuration, sqrt),
                  L2Normalized(c.pinned, sqrt), L2Normalized(c.agentsAvailable, sqrt))
  {
    pinned := new real[p.resPinned](_ => 0.0);
    avail := new real[p.resAgentsAvailable](_ => 0.0);
    stop := new real[p.resStopTime](_ => 0.0);
    winStart := new real[p.resWindowStart](_ => 0.0);
    winDur := new real[p.resWindowDuration](_ => 0.0);
    assert Snapshot(stop, winStart, winDur, pinned, avail)
        == Channels(Zeros(p.resStopTime), Zeros(p.resWindowStart), Zeros(p.resWindowDuration),
                    Zeros(p.resPinned), Zeros(p.resAgentsAvailable));
    AccumulateAccounts(stop, winStart, winDur, pinned, avail, sc, p, cfg, occ, sin);
    NormalizeChannels(stop, winStart, winDur, pinned, avail, sqrt);
  }

  /** buildEmbedding over arrays: the agent channel, the allocations that
      panic on a negative length, the account channels, and the six
      appendWithOffset calls in the source's order. */
  method BuildEmbedding(sc: Scenario, cfg: EmbeddingConfig, occ: Occurrences, sin: Sine, sqrt: SqrtFn)
    returns (res: Result<EmbeddingResult, EmbedError>)
    ensures res == Embed(sc, cfg, occ, sin, sqrt)
  {
    var p := Resolve(sc.params, cfg);
    if p.resAgentStart < 0 {
      return Failure(NegativeLength("agent_start_locations"));
    }
    var agentVec := AgentChannel(sc, p, cfg, sin, sqrt);
    if p.resPinned < 0 {
      return Failure(NegativeLength("pinned_accounts"));
    }
    if p.resAgentsAvailable < 0 {
      return Failure(NegativeLength("agents_available"));
    }
    if p.resStopTime < 0 {
      return Failure(NegativeLength("service_stop_time"));
    }
    if p.resWindowStart < 0 {
      return Failure(NegativeLength("service_window_start"));
    }
    if p.resWindowDuration < 0 {
      return Failure(NegativeLength("service_window_duration"));
    }
    var stop, winStart, winDur, pinned, avail := AccountChannels(sc, p, cfg, occ, sin, sqrt);
    var comps := [stop[..], winStart[..], winDur[..], pinned[..], avail[..], agentVec[..]];
    assert comps == Components(sc, cfg, occ, sin, sqrt);
    var layout := Layout([], map[]);
    layout := AppendWithOffset(layout, "service_stop_time", stop[..]);
    layout := AppendWithOffset(layout, "service_window_start", winStart[..]);
    layout := AppendWithOffset(layout, "service_window_duration", winDur[..]);
    layout := AppendWithOffset(layout, "pinned_accounts", pinned[..]);
    layout := AppendWithOffset(layout, "agents_available", avail[..]);
    layout := AppendWithOffset(layout, "agent_start_locations", agentVec[..]);
    AssembleSix(comps);
    res := Success(EmbeddingResult(layout.embedding, ByName(comps), layout.offsets, p.h3Levels, p.cycleDays, ChannelOrder));
  }

  /** Six appendWithOffset calls in a row are Assemble over ChannelOrder. */
  lemma AssembleSix(comps: seq<seq<real>>)
    requires |comps| == 6
    ensures Assemble(ChannelOrder, comps) ==
      AppendWithOffset(AppendWithOffset(AppendWithOffset(AppendWithOffset(AppendWithOffset(AppendWithOffset(
        Layout([], map[]), ChannelOrder[0], comps[0]), ChannelOrder[1], comps[1]), ChannelOrder[2], comps[2]),
        ChannelOrder[3], comps[3]), ChannelOrder[4], comps[4]), ChannelOrder[5], comps[5])
  {
    var l0 := Layout([], map[]);
    assert Assemble(ChannelOrder[..0], comps[..0]) == l0;
    var l1 := AppendWithOffset(l0, ChannelOrder[0], comps[0]);
    assert ChannelOrder[..1][..0] == ChannelOrder[..0] && comps[..1][..0] == comps[..0];
    assert Assemble(ChannelOrder[..1], comps[..1]) == l1;
    var l2 := AppendWithOffset(l1, ChannelOrder[1], comps[1]);
    assert ChannelOrder[..2][..1] == ChannelOrder[..1] && comps[..2][..1] == comps[..1];
    assert Assemble(ChannelOrder[..2], comps[..2]) == l2;
    var l3 := AppendWithOffset(l2, ChannelOrder[2], comps[2]);
    assert ChannelOrder[..3][..2] == ChannelOrder[..2] && comps[..3][..2] == comps[..2];
    assert Assemble(ChannelOrder[..3], comps[..3]) == l3;
    var l4 := AppendWithOffset(l3, ChannelOrder[3], comps[3]);
    assert ChannelOrder[..4][..3] == ChannelOrder[..3] && comps[..4][..3] == comps[..3];
    assert Assemble(ChannelOrder[..4], comps[..4]) == l4;
    var l5 := AppendWithOffset(l4, ChannelOrder[4], comps[4]);
    assert ChannelOrder[..5][..4] == ChannelOrder[..4] && comps[..5][..4] == comps[..4];
    assert Assemble(ChannelOrder[..5], comps[..5]) == l5;
    var l6 := AppendWithOffset(l5, ChannelOrder[5], comps[5]);
    assert ChannelOrder[..6][..5] == ChannelOrder[..5] && comps[..6][..5] == comps[..5];
    assert Assemble(ChannelOrder[..6], comps[..6]) == l6;
    assert ChannelOrder[..6] == ChannelOrder && comps[..6] == comps;
  }
}
