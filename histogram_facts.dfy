/** What `write_bot_data` promises about the feature and verification histograms: every
    entry is counted once under its table name or under "Unknown", only in detailed mode and
    only for available guilds, so the counts add up to the number of entries. */
module HistogramFacts {
  import opened Counters
  import opened Labels
  import opened Host
  import opened Lookup
  import opened BotData
  import opened GuildFacts

  /** How many keys of `ks` the table files under the name `n`. */
  function Occurrences(table: map<string, string>, ks: seq<string>, n: string): (k: nat)
    ensures k <= |ks|
  {
    if ks == [] then 0
    else Occurrences(table, ks[..|ks| - 1], n) + (if LabelIn(table, ks[|ks| - 1]) == n then 1 else 0)
  }

  /** How many keys of `ks` the table does not know. */
  function Unrecognised(table: map<string, string>, ks: seq<string>): (k: nat)
    ensures k <= |ks|
  {
    if ks == [] then 0
    else Unrecognised(table, ks[..|ks| - 1]) + (if ks[|ks| - 1] in table then 0 else 1)
  }

  /** "Unknown" counts exactly the keys the table does not know. */
  lemma {:induction false} UnknownCountsUnrecognised(ks: seq<string>)
    ensures Occurrences(FeatureNames, ks, "Unknown") == Unrecognised(FeatureNames, ks)
    ensures Occurrences(VerifyNames, ks, "Unknown") == Unrecognised(VerifyNames, ks)
  {
    if ks != [] {
      UnknownCountsUnrecognised(ks[..|ks| - 1]);
      UnknownIffNotInTable(ks[|ks| - 1]);
    }
  }

  /** Every feature entry adds one under its name: the count of each name grows by the
      entries filed under it, and a name is present exactly when it was or got an entry. */
  lemma {:induction false} FeaturesCounted(c: Counter<string>, fs: seq<string>, n: string)
    ensures Get(FeaturesTally(c, fs), n) == Get(c, n) + Occurrences(FeatureNames, fs, n)
    ensures n in FeaturesTally(c, fs) <==> n in c || Occurrences(FeatureNames, fs, n) > 0
  {
    if fs != [] {
      FeaturesCounted(c, fs[..|fs| - 1], n);
    }
  }

  /** The histogram's counts grow by exactly the number of entries. */
  lemma {:induction false} FeaturesSum(c: Counter<string>, fs: seq<string>)
    ensures MapSum(FeaturesTally(c, fs)) == MapSum(c) + |fs|
  {
    if fs != [] {
      FeaturesSum(c, fs[..|fs| - 1]);
      MapSumBump(FeaturesTally(c, fs[..|fs| - 1]), FeatureLabel(fs[|fs| - 1]), 1);
    }
  }

  lemma {:induction false} FeaturesAppend(c: Counter<string>, a: seq<string>, b: seq<string>)
    ensures FeaturesTally(c, a + b) == FeaturesTally(FeaturesTally(c, a), b)
  {
    if b != [] {
      assert (a + b)[..|a + b| - 1] == a + b[..|b| - 1];
      FeaturesAppend(c, a, b[..|b| - 1]);
    } else {
      assert a + b == a;
    }
  }

  /** The feature entries of the available guilds, guild by guild. */
  function AvailableFeatures(gs: seq<Guild>): seq<string>
  {
    if gs == [] then []
    else
      var g := gs[|gs| - 1];
      AvailableFeatures(gs[..|gs| - 1]) + (if g.unavailable then [] else g.features)
  }

  /** The verification levels of the available guilds, guild by guild. */
  function AvailableLevels(gs: seq<Guild>): (r: seq<string>)
    ensures |r| == |AvailableOf(gs)|
  {
    if gs == [] then []
    else
      var g := gs[|gs| - 1];
      AvailableLevels(gs[..|gs| - 1]) + (if g.unavailable then [] else [g.verification])
  }

  lemma GuildStepHistograms(t: Tally, g: Guild, mode: Mode)
    ensures GuildStep(t, g, mode).featuresCount
         == FeaturesTally(t.featuresCount, if mode == Detailed && !g.unavailable then g.features else [])
    ensures GuildStep(t, g, mode).verifyCount
         == if mode == Detailed && !g.unavailable then Bump(t.verifyCount, VerifyLabel(g.verification), 1) else t.verifyCount
  {
    if !g.unavailable && mode != Light {
      var t0 := t.(serverCounter := Bump(t.serverCounter, Members, g.memberCount));
      var t1 := if mode == Detailed then
          t0.(featuresCount := FeaturesTally(t0.featuresCount, g.features),
              verifyCount := Bump(t0.verifyCount, VerifyLabel(g.verification), 1))
        else t0;
      var t2 := t1.(serverCounter := Bump(t1.serverCounter, Roles, g.roleCount),
                    serverTempData := GuildSets(t1.serverTempData, g));
      ChannelsKeep(t2, g.meId, g.channels);
    }
  }

  /** The feature histogram after the guild loop counts the features of the available
      guilds in detailed mode, and nothing otherwise. */
  lemma {:induction false} GuildsTallyFeatures(t: Tally, gs: seq<Guild>, mode: Mode)
    ensures GuildsTally(t, gs, mode).featuresCount
         == FeaturesTally(t.featuresCount, if mode == Detailed then AvailableFeatures(gs) else [])
  {
    if gs != [] {
      var init := gs[..|gs| - 1];
      var g := gs[|gs| - 1];
      GuildsTallyFeatures(t, init, mode);
      GuildStepHistograms(GuildsTally(t, init, mode), g, mode);
      if mode == Detailed {
        FeaturesAppend(t.featuresCount, AvailableFeatures(init), if g.unavailable then [] else g.features);
      }
    }
  }

  /** The verification histogram as a fold over the levels it counted. */
  function LevelsTally(c: Counter<string>, vs: seq<string>): Counter<string>
  {
    if vs == [] then c
    else Bump(LevelsTally(c, vs[..|vs| - 1]), VerifyLabel(vs[|vs| - 1]), 1)
  }

  lemma {:induction false} LevelsCounted(c: Counter<string>, vs: seq<string>, n: string)
    ensures Get(LevelsTally(c, vs), n) == Get(c, n) + Occurrences(VerifyNames, vs, n)
    ensures n in LevelsTally(c, vs) <==> n in c || Occurrences(VerifyNames, vs, n) > 0
  {
    if vs != [] {
      LevelsCounted(c, vs[..|vs| - 1], n);
    }
  }

  lemma {:induction false} LevelsSum(c: Counter<string>, vs: seq<string>)
    ensures MapSum(LevelsTally(c, vs)) == MapSum(c) + |vs|
  {
    if vs != [] {
      LevelsSum(c, vs[..|vs| - 1]);
      MapSumBump(LevelsTally(c, vs[..|vs| - 1]), VerifyLabel(vs[|vs| - 1]), 1);
    }
  }

  /** The verification histogram after the guild loop counts one level per available guild
      in detailed mode, and nothing otherwise. */
  lemma {:induction false} GuildsTallyLevels(t: Tally, gs: seq<Guild>, mode: Mode)
    ensures GuildsTally(t, gs, mode).verifyCount
         == LevelsTally(t.verifyCount, if mode == Detailed then AvailableLevels(gs) else [])
  {
    if gs != [] {
      var init := gs[..|gs| - 1];
      var g := gs[|gs| - 1];
      GuildsTallyLevels(t, init, mode);
      GuildStepHistograms(GuildsTally(t, init, mode), g, mode);
      var vs := if mode == Detailed then AvailableLevels(init) else [];
      var vs' := if mode == Detailed then AvailableLevels(gs) else [];
      if mode == Detailed && !g.unavailable {
        assert vs' == vs + [g.verification];
        assert vs'[..|vs'| - 1] == vs;
        assert LevelsTally(t.verifyCount, vs') == Bump(LevelsTally(t.verifyCount, vs), VerifyLabel(g.verification), 1);
      } else {
        assert vs' == vs;
      }
    }
  }

  /** The histograms of a pass start empty. */
  lemma PassStart(h: HostView, s: Settings)
    ensures InitialTally(h, s).featuresCount == map[]
    ensures InitialTally(h, s).verifyCount == map[]
  {
  }

  /** From an empty histogram, the feature counts sum to the number of feature entries of
      the available guilds in detailed mode; outside it the histogram stays empty. */
  lemma FeatureHistogramSum(t: Tally, gs: seq<Guild>, mode: Mode)
    requires t.featuresCount == map[]
    ensures mode == Detailed ==> MapSum(GuildsTally(t, gs, mode).featuresCount) == |AvailableFeatures(gs)|
    ensures mode != Detailed ==> GuildsTally(t, gs, mode).featuresCount == map[]
  {
    var fs := if mode == Detailed then AvailableFeatures(gs) else [];
    GuildsTallyFeatures(t, gs, mode);
    FeaturesSum(t.featuresCount, fs);
  }

  /** "Unknown" counts the feature entries the table does not know. */
  lemma FeatureHistogramUnknown(t: Tally, gs: seq<Guild>, mode: Mode)
    requires t.featuresCount == map[]
    requires mode == Detailed
    ensures Get(GuildsTally(t, gs, mode).featuresCount, "Unknown") == Unrecognised(FeatureNames, AvailableFeatures(gs))
  {
    var fs := AvailableFeatures(gs);
    GuildsTallyFeatures(t, gs, mode);
    FeaturesCounted(map[], fs, "Unknown");
    UnknownCountsUnrecognised(fs);
  }

  /** From an empty histogram, the verification counts sum to the number of available
      guilds in detailed mode, and to nothing otherwise. */
  lemma VerificationHistogramSum(t: Tally, gs: seq<Guild>, mode: Mode)
    requires t.verifyCount == map[]
    ensures MapSum(GuildsTally(t, gs, mode).verifyCount) == if mode == Detailed then |AvailableOf(gs)| else 0
  {
    var vs := if mode == Detailed then AvailableLevels(gs) else [];
    GuildsTallyLevels(t, gs, mode);
    LevelsSum(t.verifyCount, vs);
  }

  /** "Unknown" counts the verification levels the table does not know. */
  lemma VerificationHistogramUnknown(t: Tally, gs: seq<Guild>, mode: Mode)
    requires t.verifyCount == map[]
    requires mode == Detailed
    ensures Get(GuildsTally(t, gs, mode).verifyCount, "Unknown") == Unrecognised(VerifyNames, AvailableLevels(gs))
  {
    var vs := AvailableLevels(gs);
    GuildsTallyLevels(t, gs, mode);
    LevelsCounted(map[], vs, "Unknown");
    UnknownCountsUnrecognised(vs);
  }

  /** Both histograms of a pass start empty, so the two lemmas above hold of every pass. */
  lemma PassHistograms(h: HostView, s: Settings)
    ensures ModeOf(s) == Detailed ==> MapSum(BotDataTally(h, s).featuresCount) == |AvailableFeatures(h.guilds)|
    ensures MapSum(BotDataTally(h, s).verifyCount) == if ModeOf(s) == Detailed then |AvailableOf(h.guilds)| else 0
  {
    PassStart(h, s);
    FeatureHistogramSum(InitialTally(h, s), h.guilds, ModeOf(s));
    VerificationHistogramSum(InitialTally(h, s), h.guilds, ModeOf(s));
  }

  /** A feature the table does not know, next to one it does. */
  lemma UnknownFeatureExample()
    ensures var c := FeaturesTally(map[], ["VIP_REGIONS", "FOO_BAR"]);
      c == map["VIP Voice Servers" := 1, "Unknown" := 1]
  {
    var c1 := FeaturesTally(map[], ["VIP_REGIONS"]);
    assert ["VIP_REGIONS", "FOO_BAR"][..1] == ["VIP_REGIONS"];
    assert c1 == map["VIP Voice Servers" := 1];
  }
}
