/** What `write_bot_data` promises across guilds: the channel and emoji counts, the guild id
    sets (unavailable, large, unchunked, boost tiers), the users of every available guild, the
    feature and verification histograms, and what a pass publishes. */
module GuildFacts {
  import opened Counters
  import opened Labels
  import opened Host
  import opened Lookup
  import opened Store
  import opened BotData
  import opened MemberFacts

  // ---------------------------------------------------------------------------------------
  // Channels and emojis

  /** The labels channel classification writes into `temp_data`. */
  predicate IsChannelLabel(l: Label)
  {
    l == NsfwTextChannels || l == NewsTextChannels || l == UsersInVcOnMobile
  }

  lemma {:induction false} MobileVoiceFrame(s: IdSets<Label>, ms: seq<Member>)
    ensures forall l :: l != UsersInVcOnMobile ==> (l in MobileVoiceIds(s, ms) <==> l in s)
    ensures forall l :: l != UsersInVcOnMobile ==> Ids(MobileVoiceIds(s, ms), l) == Ids(s, l)
  {
    if ms != [] {
      MobileVoiceFrame(s, ms[..|ms| - 1]);
    }
  }

  /** One channel leaves the histograms and the guild id sets alone, whatever they hold. */
  lemma ChannelStepKeeps(t: Tally, meId: int, c: Channel)
    ensures ChannelStep(t, meId, c).verifyCount == t.verifyCount
    ensures ChannelStep(t, meId, c).featuresCount == t.featuresCount
    ensures forall x :: ChannelStep(t.(serverTempData := x), meId, c) == ChannelStep(t, meId, c).(serverTempData := x)
  {
    forall x ensures ChannelStep(t.(serverTempData := x), meId, c) == ChannelStep(t, meId, c).(serverTempData := x) {
      match c {
        case Text(_, _, _) =>
        case Voice(_, ms) =>
        case Category(_) =>
        case Other(_) =>
      }
    }
  }

  /** One channel touches only the channel labels of `temp_data`. */
  lemma ChannelStepTemp(t: Tally, meId: int, c: Channel)
    ensures forall l :: !IsChannelLabel(l) ==> (l in ChannelStep(t, meId, c).tempData <==> l in t.tempData)
    ensures forall l :: !IsChannelLabel(l) ==> Ids(ChannelStep(t, meId, c).tempData, l) == Ids(t.tempData, l)
  {
    if c.Voice? {
      MobileVoiceFrame(t.tempData, c.members);
    }
  }

  lemma {:induction false} ChannelsKeep(t: Tally, meId: int, cs: seq<Channel>)
    ensures ChannelsTally(t, meId, cs).verifyCount == t.verifyCount
    ensures ChannelsTally(t, meId, cs).featuresCount == t.featuresCount
    ensures ChannelsTally(t, meId, cs).serverTempData == t.serverTempData
    ensures forall x :: ChannelsTally(t.(serverTempData := x), meId, cs) == ChannelsTally(t, meId, cs).(serverTempData := x)
  {
    if cs != [] {
      var init := cs[..|cs| - 1];
      ChannelsKeep(t, meId, init);
      ChannelStepKeeps(ChannelsTally(t, meId, init), meId, cs[|cs| - 1]);
      forall x
        ensures ChannelsTally(t.(serverTempData := x), meId, cs) == ChannelsTally(t, meId, cs).(serverTempData := x)
      {
        var r := ChannelsTally(t, meId, init);
        assert ChannelsTally(t.(serverTempData := x), meId, init) == r.(serverTempData := x);
        assert r.(serverTempData := x) == r.(serverTempData := x);
      }
    }
  }

  lemma {:induction false} ChannelsTemp(t: Tally, meId: int, cs: seq<Channel>)
    ensures forall l :: !IsChannelLabel(l) ==> (l in ChannelsTally(t, meId, cs).tempData <==> l in t.tempData)
    ensures forall l :: !IsChannelLabel(l) ==> Ids(ChannelsTally(t, meId, cs).tempData, l) == Ids(t.tempData, l)
  {
    if cs != [] {
      ChannelsTemp(t, meId, cs[..|cs| - 1]);
      ChannelStepTemp(ChannelsTally(t, meId, cs[..|cs| - 1]), meId, cs[|cs| - 1]);
    }
  }

  // ---------------------------------------------------------------------------------------
  // The guild id sets

  /** Whether a guild's id goes into the guild set `l`: an unavailable guild only into
      "Unavailable"; an available one, outside light mode, by its flags and boost tier. */
  predicate GuildFlagged(g: Guild, mode: Mode, l: Label)
  {
    || (g.unavailable && l == Unavailable)
    || (&& !g.unavailable && mode != Light
        && (|| (g.large && l == Large)
            || (!g.chunked && l == Unchunked)
            || (g.premiumTier != 0 && l == NitroBoosted)
            || (g.premiumTier == 1 && l == Tier1Nitro)
            || (g.premiumTier == 2 && l == Tier2Nitro)
            || (g.premiumTier == 3 && l == Tier3Nitro)))
  }

  function TierLabels(tier: int): set<Label>
  {
    (if tier != 0 then {NitroBoosted} else {})
    + (if tier == 1 then {Tier1Nitro} else if tier == 2 then {Tier2Nitro} else if tier == 3 then {Tier3Nitro} else {})
  }

  function FlagLabels(g: Guild): set<Label>
  {
    (if g.large then {Large} else {}) + (if !g.chunked then {Unchunked} else {}) + TierLabels(g.premiumTier)
  }

  function GuildSetLabels(g: Guild, mode: Mode): set<Label>
  {
    if g.unavailable then {Unavailable}
    else if mode == Light then {}
    else FlagLabels(g)
  }

  lemma GuildSetLink(g: Guild, mode: Mode)
    ensures forall l :: l in GuildSetLabels(g, mode) <==> GuildFlagged(g, mode, l)
  {
  }

  lemma PremiumAdds(s: IdSets<Label>, id: int, tier: int)
    ensures AddsTo(s, PremiumTally(s, id, tier), TierLabels(tier), id)
  {
    var s1 := if tier != 0 then AddId(s, NitroBoosted, id) else s;
    var boosted := if tier != 0 then {NitroBoosted} else {};
    if tier != 0 {
      AddsOne(s, NitroBoosted, id);
    } else {
      AddsNone(s, id);
    }
    if tier == 1 {
      AddsOne(s1, Tier1Nitro, id);
      AddsThen(s, s1, PremiumTally(s, id, tier), boosted, {Tier1Nitro}, id);
    } else if tier == 2 {
      AddsOne(s1, Tier2Nitro, id);
      AddsThen(s, s1, PremiumTally(s, id, tier), boosted, {Tier2Nitro}, id);
    } else if tier == 3 {
      AddsOne(s1, Tier3Nitro, id);
      AddsThen(s, s1, PremiumTally(s, id, tier), boosted, {Tier3Nitro}, id);
    } else {
      AddsNone(s1, id);
      AddsThen(s, s1, PremiumTally(s, id, tier), boosted, {}, id);
    }
  }

  lemma GuildSetsAdds(s: IdSets<Label>, g: Guild)
    ensures AddsTo(s, GuildSets(s, g), FlagLabels(g), g.id)
  {
    var st1 := if g.large then AddId(s, Large, g.id) else s;
    var st2 := if !g.chunked then AddId(st1, Unchunked, g.id) else st1;
    var large := if g.large then {Large} else {};
    var unchunked := if !g.chunked then {Unchunked} else {};
    if g.large { AddsOne(s, Large, g.id); } else { AddsNone(s, g.id); }
    if !g.chunked { AddsOne(st1, Unchunked, g.id); } else { AddsNone(st1, g.id); }
    AddsThen(s, st1, st2, large, unchunked, g.id);
    PremiumAdds(st2, g.id, g.premiumTier);
    AddsThen(s, st2, GuildSets(s, g), large + unchunked, TierLabels(g.premiumTier), g.id);
  }

  lemma GuildDetailsSets(t: Tally, g: Guild, detailed: bool)
    ensures GuildDetails(t, g, detailed).serverTempData == GuildSets(t.serverTempData, g)
  {
    var t1 := if detailed then
        t.(featuresCount := FeaturesTally(t.featuresCount, g.features),
           verifyCount := Bump(t.verifyCount, VerifyLabel(g.verification), 1))
      else t;
    var t2 := t1.(serverCounter := Bump(t1.serverCounter, Roles, g.roleCount),
                  serverTempData := GuildSets(t1.serverTempData, g));
    ChannelsKeep(t2, g.meId, g.channels);
  }

  /** One guild adds its id to exactly the guild sets it is flagged for. */
  lemma GuildStepSets(t: Tally, g: Guild, mode: Mode)
    ensures forall l :: l in GuildStep(t, g, mode).serverTempData <==> l in t.serverTempData || GuildFlagged(g, mode, l)
    ensures forall l :: Ids(GuildStep(t, g, mode).serverTempData, l) == Ids(t.serverTempData, l) + (if GuildFlagged(g, mode, l) then {g.id} else {})
  {
    GuildSetLink(g, mode);
    if g.unavailable {
      AddsOne(t.serverTempData, Unavailable, g.id);
    } else if mode == Light {
      AddsNone(t.serverTempData, g.id);
    } else {
      var t1 := t.(serverCounter := Bump(t.serverCounter, Members, g.memberCount));
      GuildDetailsSets(t1, g, mode == Detailed);
      GuildSetsAdds(t.serverTempData, g);
    }
  }

  lemma GuildStepSetKey(t: Tally, g: Guild, mode: Mode, l: Label)
    ensures l in GuildStep(t, g, mode).serverTempData <==> l in t.serverTempData || GuildFlagged(g, mode, l)
  {
    GuildStepSets(t, g, mode);
  }

  /** The ids of the guilds flagged for guild set `l`. */
  function GuildIds(gs: seq<Guild>, mode: Mode, l: Label): set<int>
  {
    set g | g in gs && GuildFlagged(g, mode, l) :: g.id
  }

  /** After the guild loop each guild set holds the ids of exactly the guilds flagged for it,
      and exists exactly when some guild was. */
  lemma {:induction false} GuildsTallySets(t: Tally, gs: seq<Guild>, mode: Mode)
    ensures forall l :: l in GuildsTally(t, gs, mode).serverTempData <==> l in t.serverTempData || GuildIds(gs, mode, l) != {}
    ensures forall l :: Ids(GuildsTally(t, gs, mode).serverTempData, l) == Ids(t.serverTempData, l) + GuildIds(gs, mode, l)
  {
    if gs != [] {
      var init := gs[..|gs| - 1];
      var g := gs[|gs| - 1];
      GuildsTallySets(t, init, mode);
      GuildStepSets(GuildsTally(t, init, mode), g, mode);
      assert gs == init + [g];
      forall l ensures GuildIds(gs, mode, l) == GuildIds(init, mode, l) + (if GuildFlagged(g, mode, l) then {g.id} else {}) {
        GuildIdsSnoc(init, g, mode, l);
      }
    }
  }

  lemma GuildIdsSnoc(gs: seq<Guild>, g: Guild, mode: Mode, l: Label)
    ensures GuildIds(gs + [g], mode, l) == GuildIds(gs, mode, l) + (if GuildFlagged(g, mode, l) then {g.id} else {})
  {
    var a := GuildIds(gs + [g], mode, l);
    var b := GuildIds(gs, mode, l) + (if GuildFlagged(g, mode, l) then {g.id} else {});
    forall y | y in a ensures y in b {
      var h :| h in gs + [g] && GuildFlagged(h, mode, l) && h.id == y;
      if h != g {
        assert h in gs;
      }
    }
    forall y | y in b ensures y in a {
      if y !in GuildIds(gs, mode, l) {
        assert g in gs + [g];
      } else {
        var h :| h in gs && GuildFlagged(h, mode, l) && h.id == y;
        assert h in gs + [g];
      }
    }
  }

  /** "Unavailable" holds the ids of exactly the unavailable guilds, in every mode. */
  lemma UnavailableSet(gs: seq<Guild>, mode: Mode)
    ensures GuildIds(gs, mode, Unavailable) == UnavailableIds(gs)
  {
  }

  /** The bucket of boost tier `k`. */
  function TierBucket(k: int): Label
    requires 1 <= k <= 3
  {
    if k == 1 then Tier1Nitro else if k == 2 then Tier2Nitro else Tier3Nitro
  }

  /** Each of tiers 1 to 3 has its own bucket of the available guilds outside light mode. */
  lemma TierSet(gs: seq<Guild>, mode: Mode, k: int)
    requires 1 <= k <= 3
    ensures GuildIds(gs, mode, TierBucket(k)) == set g | g in gs && !g.unavailable && mode != Light && g.premiumTier == k :: g.id
  {
  }

  /** "Nitro Boosted" holds every boosted guild, of any tier but 0, so every tier bucket is
      inside it; a tier outside 1 to 3 is boosted but in no bucket. */
  lemma BoostedSet(gs: seq<Guild>, mode: Mode)
    ensures GuildIds(gs, mode, NitroBoosted) == set g | g in gs && !g.unavailable && mode != Light && g.premiumTier != 0 :: g.id
    ensures forall k :: 1 <= k <= 3 ==> GuildIds(gs, mode, TierBucket(k)) <= GuildIds(gs, mode, NitroBoosted)
  {
    forall k | 1 <= k <= 3 ensures GuildIds(gs, mode, TierBucket(k)) <= GuildIds(gs, mode, NitroBoosted) {
      TierSet(gs, mode, k);
    }
  }

  /** In light mode the only guild set is "Unavailable". */
  lemma LightModeSets(gs: seq<Guild>, l: Label)
    requires l != Unavailable
    ensures GuildIds(gs, Light, l) == {}
  {
  }

  // ---------------------------------------------------------------------------------------
  // The members of every available guild

  lemma FiledIdsAppend(a: seq<Member>, b: seq<Member>, detailed: bool)
    ensures forall l :: FiledIds(a + b, detailed, l) == FiledIds(a, detailed, l) + FiledIds(b, detailed, l)
  {
    assert forall x :: x in a + b <==> x in a || x in b;
  }

  /** The member entries one guild classifies: none for an unavailable guild. */
  function GuildMembers(g: Guild): seq<Member>
  {
    if g.unavailable then [] else g.members
  }

  lemma GuildStepUsers(t: Tally, g: Guild, mode: Mode)
    ensures forall l :: !IsChannelLabel(l) ==>
      (l in GuildStep(t, g, mode).tempData <==> l in t.tempData || FiledIds(GuildMembers(g), mode == Detailed, l) != {})
    ensures forall l :: !IsChannelLabel(l) ==>
      Ids(GuildStep(t, g, mode).tempData, l) == Ids(t.tempData, l) + FiledIds(GuildMembers(g), mode == Detailed, l)
  {
    if !g.unavailable {
      var t1 := t.(serverCounter := Bump(t.serverCounter, Members, g.memberCount));
      var t2 := if mode == Light then t1 else GuildDetails(t1, g, mode == Detailed);
      if mode != Light {
        GuildDetailsTemp(t1, g, mode == Detailed);
      }
      MembersTallyFiles(t2.tempData, g.members, mode == Detailed);
    }
  }

  lemma GuildDetailsTemp(t: Tally, g: Guild, detailed: bool)
    ensures forall l :: !IsChannelLabel(l) ==> (l in GuildDetails(t, g, detailed).tempData <==> l in t.tempData)
    ensures forall l :: !IsChannelLabel(l) ==> Ids(GuildDetails(t, g, detailed).tempData, l) == Ids(t.tempData, l)
  {
    var t1 := if detailed then
        t.(featuresCount := FeaturesTally(t.featuresCount, g.features),
           verifyCount := Bump(t.verifyCount, VerifyLabel(g.verification), 1))
      else t;
    var t2 := t1.(serverCounter := Bump(t1.serverCounter, Roles, g.roleCount),
                  serverTempData := GuildSets(t1.serverTempData, g));
    ChannelsTemp(t2, g.meId, g.channels);
  }

  /** After the guild loop every member label holds the ids of exactly the entries of the
      available guilds filed under it: unavailable guilds contribute no member. */
  lemma {:induction false} GuildsTallyUsers(t: Tally, gs: seq<Guild>, mode: Mode)
    ensures forall l :: !IsChannelLabel(l) ==>
      (l in GuildsTally(t, gs, mode).tempData <==> l in t.tempData || FiledIds(AvailableMembers(gs), mode == Detailed, l) != {})
    ensures forall l :: !IsChannelLabel(l) ==>
      Ids(GuildsTally(t, gs, mode).tempData, l) == Ids(t.tempData, l) + FiledIds(AvailableMembers(gs), mode == Detailed, l)
  {
    if gs != [] {
      var init := gs[..|gs| - 1];
      var g := gs[|gs| - 1];
      GuildsTallyUsers(t, init, mode);
      GuildStepUsers(GuildsTally(t, init, mode), g, mode);
      assert AvailableMembers(gs) == AvailableMembers(init) + GuildMembers(g);
      FiledIdsAppend(AvailableMembers(init), GuildMembers(g), mode == Detailed);
    }
  }

  // ---------------------------------------------------------------------------------------
  // Unavailable guilds

  /** The working counters with the "Unavailable" set dropped. */
  function Strip(t: Tally): Tally
  {
    t.(serverTempData := t.serverTempData - {Unavailable})
  }

  lemma AddIdStrip(s: IdSets<Label>, k: Label, x: int)
    requires k != Unavailable
    ensures AddId(s, k, x) - {Unavailable} == AddId(s - {Unavailable}, k, x)
  {
  }

  lemma GuildSetsStrip(s: IdSets<Label>, g: Guild)
    ensures GuildSets(s, g) - {Unavailable} == GuildSets(s - {Unavailable}, g)
  {
    var s1 := if g.large then AddId(s, Large, g.id) else s;
    var s2 := if !g.chunked then AddId(s1, Unchunked, g.id) else s1;
    var s3 := if g.premiumTier != 0 then AddId(s2, NitroBoosted, g.id) else s2;
    if g.large { AddIdStrip(s, Large, g.id); }
    if !g.chunked { AddIdStrip(s1, Unchunked, g.id); }
    if g.premiumTier != 0 { AddIdStrip(s2, NitroBoosted, g.id); }
    if g.premiumTier == 1 { AddIdStrip(s3, Tier1Nitro, g.id); }
    else if g.premiumTier == 2 { AddIdStrip(s3, Tier2Nitro, g.id); }
    else if g.premiumTier == 3 { AddIdStrip(s3, Tier3Nitro, g.id); }
  }

  /** The guild sets a guild's details start from affect nothing else of the result. */
  lemma GuildDetailsFrame(t: Tally, g: Guild, detailed: bool, x: IdSets<Label>)
    ensures GuildDetails(t.(serverTempData := x), g, detailed)
         == GuildDetails(t, g, detailed).(serverTempData := GuildSets(x, g))
  {
    var t1 := if detailed then
        t.(featuresCount := FeaturesTally(t.featuresCount, g.features),
           verifyCount := Bump(t.verifyCount, VerifyLabel(g.verification), 1))
      else t;
    var t2 := t1.(serverCounter := Bump(t1.serverCounter, Roles, g.roleCount),
                  serverTempData := GuildSets(t1.serverTempData, g));
    ChannelsKeep(t2, g.meId, g.channels);
    assert t2.(serverTempData := GuildSets(x, g)) == t2.(serverTempData := GuildSets(x, g));
  }

  lemma GuildStepStrip(t: Tally, g: Guild, mode: Mode)
    ensures Strip(GuildStep(t, g, mode)) == if g.unavailable then Strip(t) else GuildStep(Strip(t), g, mode)
  {
    if !g.unavailable && mode != Light {
      var t1 := t.(serverCounter := Bump(t.serverCounter, Members, g.memberCount));
      GuildDetailsFrame(t1, g, mode == Detailed, t1.serverTempData - {Unavailable});
      GuildDetailsSets(t1, g, mode == Detailed);
      GuildSetsStrip(t1.serverTempData, g);
      assert t1.(serverTempData := t1.serverTempData) == t1;
    }
  }

  lemma AvailableOfAvailable(gs: seq<Guild>)
    requires forall g :: g in gs ==> !g.unavailable
    ensures AvailableOf(gs) == gs
  {
    if gs != [] {
      assert forall g :: g in gs[..|gs| - 1] ==> g in gs;
      AvailableOfAvailable(gs[..|gs| - 1]);
    }
  }

  lemma GuildsTallySnoc(t: Tally, gs: seq<Guild>, g: Guild, mode: Mode)
    ensures GuildsTally(t, gs + [g], mode) == GuildStep(GuildsTally(t, gs, mode), g, mode)
  {
    assert (gs + [g])[..|gs|] == gs;
  }

  lemma {:induction false} GuildsTallyStrip(t: Tally, gs: seq<Guild>, mode: Mode)
    ensures Strip(GuildsTally(t, gs, mode)) == GuildsTally(Strip(t), AvailableOf(gs), mode)
  {
    if gs != [] {
      var init := gs[..|gs| - 1];
      var g := gs[|gs| - 1];
      assert gs == init + [g];
      assert AvailableOf(gs) == AvailableOf(init) + (if g.unavailable then [] else [g]);
      GuildsTallySnoc(t, init, g, mode);
      GuildsTallyStrip(t, init, mode);
      GuildStepStrip(GuildsTally(t, init, mode), g, mode);
      if g.unavailable {
        assert AvailableOf(gs) == AvailableOf(init);
      } else {
        GuildsTallySnoc(Strip(t), AvailableOf(init), g, mode);
      }
    }
  }

  /** An unavailable guild contributes nothing but its id in "Unavailable": dropping every
      unavailable guild leaves all counters, histograms, member sets and other guild sets of
      the pass as they are. */
  lemma UnavailableContributesNothing(t: Tally, gs: seq<Guild>, mode: Mode)
    ensures Strip(GuildsTally(t, gs, mode)) == Strip(GuildsTally(t, AvailableOf(gs), mode))
  {
    GuildsTallyStrip(t, gs, mode);
    GuildsTallyStrip(t, AvailableOf(gs), mode);
    AvailableOfAvailable(AvailableOf(gs));
  }
}
