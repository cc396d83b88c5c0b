/** What one pass of `write_bot_data` leaves in the store: the cardinality of every member
    label and guild set it produced, the guild total and member count, and every other
    category untouched. */
module PublishFacts {
  import opened Counters
  import opened Labels
  import opened Host
  import opened Store
  import opened BotData
  import opened MemberFacts
  import opened GuildFacts
  import opened CountFacts

  /** The working counters a pass starts the guild loop with. */
  lemma PassStart(h: HostView, s: Settings)
    ensures InitialTally(h, s).tempData == map[]
    ensures InitialTally(h, s).serverTempData == map[]
    ensures InitialTally(h, s).serverCounter == map[Total := |h.guilds|]
  {
  }

  /** The pass writes only "bot", "guilds", "guild_features" and "guild_verification". */
  lemma PublishBotDataFrame(st: Stats, t: Tally)
    requires HasCategories(st)
    ensures var r := PublishBotData(st, t);
      && (forall c :: c in r <==> c in st)
      && forall c :: c in st && c != "bot" && c != "guilds" && c != "guild_features" && c != "guild_verification"
                     ==> r[c] == st[c]
  {
  }

  /** Any category other than the four keeps its labels. */
  lemma PublishBotDataKeeps(st: Stats, t: Tally, c: string)
    requires HasCategories(st) && c in st
    requires c != "bot" && c != "guilds" && c != "guild_features" && c != "guild_verification"
    ensures PublishBotData(st, t)[c] == st[c]
  {
  }

  /** Each of the four categories the pass writes is its old labels overwritten by the
      labels the pass produced for it, whatever the other categories hold. */
  lemma PublishBotDataCategories(st: Stats, t: Tally)
    requires HasCategories(st)
    ensures PublishBotData(st, t)["bot"] == st["bot"] + Ints(BotLabels(t))
    ensures PublishBotData(st, t)["guilds"] == st["guilds"] + Ints(GuildLabels(t))
    ensures PublishBotData(st, t)["guild_features"] == st["guild_features"] + NamedInts(t.featuresCount)
    ensures PublishBotData(st, t)["guild_verification"] == st["guild_verification"] + NamedInts(t.verifyCount)
  {
    var s1 := Publish(st, "bot", Ints(BotLabels(t)));
    var s2 := Publish(s1, "guilds", Ints(GuildLabels(t)));
    var s3 := Publish(s2, "guild_features", NamedInts(t.featuresCount));
    var s4 := Publish(s3, "guild_verification", NamedInts(t.verifyCount));
    PublishCategory(st, "bot", Ints(BotLabels(t)));
    PublishCategory(s1, "guilds", Ints(GuildLabels(t)));
    PublishCategory(s2, "guild_features", NamedInts(t.featuresCount));
    PublishCategory(s3, "guild_verification", NamedInts(t.verifyCount));
    assert s4["bot"] == s3["bot"] == s2["bot"] == s1["bot"];
    assert s4["guilds"] == s3["guilds"] == s2["guilds"];
    assert s4["guild_features"] == s3["guild_features"];
  }

  /** A label of "bot" the pass produced becomes its value; the later categories leave
      "bot" alone. */
  lemma PublishedBot(st: Stats, t: Tally, l: Label)
    requires HasCategories(st)
    requires l in BotLabels(t)
    ensures Fixed(l) in PublishBotData(st, t)["bot"]
    ensures PublishBotData(st, t)["bot"][Fixed(l)] == IntVal(BotLabels(t)[l])
  {
  }

  lemma PublishedGuilds(st: Stats, t: Tally, l: Label)
    requires HasCategories(st)
    requires l in GuildLabels(t)
    ensures Fixed(l) in PublishBotData(st, t)["guilds"]
    ensures PublishBotData(st, t)["guilds"][Fixed(l)] == IntVal(GuildLabels(t)[l])
  {
  }

  /** From empty id sets, the guild loop leaves every member label with filed ids among the
      "bot" counters, as the number of distinct ids of the available guilds' entries filed
      under it. */
  lemma TalliedMemberLabels(t: Tally, gs: seq<Guild>, mode: Mode)
    requires t.tempData == map[]
    ensures forall l :: !IsChannelLabel(l) && FiledIds(AvailableMembers(gs), mode == Detailed, l) != {} ==>
      && l in BotLabels(GuildsTally(t, gs, mode))
      && BotLabels(GuildsTally(t, gs, mode))[l] == |FiledIds(AvailableMembers(gs), mode == Detailed, l)|
  {
    GuildsTallyUsers(t, gs, mode);
  }

  /** Every member label a pass fills is published as the number of distinct ids of the
      available guilds' entries filed under it. */
  lemma PublishedMemberLabel(st: Stats, h: HostView, s: Settings, l: Label)
    requires HasCategories(st)
    requires !IsChannelLabel(l)
    requires FiledIds(AvailableMembers(h.guilds), ModeOf(s) == Detailed, l) != {}
    ensures Fixed(l) in PublishBotData(st, BotDataTally(h, s))["bot"]
    ensures PublishBotData(st, BotDataTally(h, s))["bot"][Fixed(l)]
         == IntVal(|FiledIds(AvailableMembers(h.guilds), ModeOf(s) == Detailed, l)|)
  {
    PassStart(h, s);
    TalliedMemberLabels(InitialTally(h, s), h.guilds, ModeOf(s));
    PublishedBot(st, BotDataTally(h, s), l);
  }

  /** Counters that hold every filed member label as its number of distinct ids hold
      "Unique Users", "Bots" and "Humans" as the number of distinct ids of all, of the bot and
      of the human entries, once there is one. */
  lemma TalliedUsers(c: Counter<Label>, ms: seq<Member>, detailed: bool)
    requires forall l :: !IsChannelLabel(l) && FiledIds(ms, detailed, l) != {} ==> l in c && c[l] == |FiledIds(ms, detailed, l)|
    ensures IdsOf(ms) != {} ==> UniqueUsers in c && c[UniqueUsers] == |IdsOf(ms)|
    ensures BotIdsOf(ms) != {} ==> Bots in c && c[Bots] == |BotIdsOf(ms)|
    ensures HumanIdsOf(ms) != {} ==> Humans in c && c[Humans] == |HumanIdsOf(ms)|
  {
    UsersOfMembers(ms, detailed);
  }

  /** "Unique Users", "Bots" and "Humans" publish the number of distinct ids of all, of the
      bot and of the human entries of the available guilds, once there is one. */
  lemma PublishedUniqueUsers(st: Stats, h: HostView, s: Settings)
    requires HasCategories(st)
    requires IdsOf(AvailableMembers(h.guilds)) != {}
    ensures Fixed(UniqueUsers) in PublishBotData(st, BotDataTally(h, s))["bot"]
    ensures PublishBotData(st, BotDataTally(h, s))["bot"][Fixed(UniqueUsers)] == IntVal(|IdsOf(AvailableMembers(h.guilds))|)
  {
    PassStart(h, s);
    TalliedMemberLabels(InitialTally(h, s), h.guilds, ModeOf(s));
    TalliedUsers(BotLabels(BotDataTally(h, s)), AvailableMembers(h.guilds), ModeOf(s) == Detailed);
    PublishedBot(st, BotDataTally(h, s), UniqueUsers);
  }

  lemma PublishedBots(st: Stats, h: HostView, s: Settings)
    requires HasCategories(st)
    requires BotIdsOf(AvailableMembers(h.guilds)) != {}
    ensures Fixed(Bots) in PublishBotData(st, BotDataTally(h, s))["bot"]
    ensures PublishBotData(st, BotDataTally(h, s))["bot"][Fixed(Bots)] == IntVal(|BotIdsOf(AvailableMembers(h.guilds))|)
  {
    PassStart(h, s);
    TalliedMemberLabels(InitialTally(h, s), h.guilds, ModeOf(s));
    TalliedUsers(BotLabels(BotDataTally(h, s)), AvailableMembers(h.guilds), ModeOf(s) == Detailed);
    PublishedBot(st, BotDataTally(h, s), Bots);
  }

  lemma PublishedHumans(st: Stats, h: HostView, s: Settings)
    requires HasCategories(st)
    requires HumanIdsOf(AvailableMembers(h.guilds)) != {}
    ensures Fixed(Humans) in PublishBotData(st, BotDataTally(h, s))["bot"]
    ensures PublishBotData(st, BotDataTally(h, s))["bot"][Fixed(Humans)] == IntVal(|HumanIdsOf(AvailableMembers(h.guilds))|)
  {
    PassStart(h, s);
    TalliedMemberLabels(InitialTally(h, s), h.guilds, ModeOf(s));
    TalliedUsers(BotLabels(BotDataTally(h, s)), AvailableMembers(h.guilds), ModeOf(s) == Detailed);
    PublishedBot(st, BotDataTally(h, s), Humans);
  }

  /** When each id has one bot flag and both kinds occur, the published "Bots" and
      "Humans" add up to the published "Unique Users". */
  lemma PublishedUserSplit(st: Stats, h: HostView, s: Settings)
    requires HasCategories(st)
    requires ConsistentBots(AvailableMembers(h.guilds))
    requires BotIdsOf(AvailableMembers(h.guilds)) != {} && HumanIdsOf(AvailableMembers(h.guilds)) != {}
    ensures var r := PublishBotData(st, BotDataTally(h, s))["bot"];
      && Fixed(UniqueUsers) in r && Fixed(Bots) in r && Fixed(Humans) in r
      && Num(r[Fixed(Bots)]) + Num(r[Fixed(Humans)]) == Num(r[Fixed(UniqueUsers)])
  {
    var ms := AvailableMembers(h.guilds);
    BotsAndHumans(ms);
    PublishedUniqueUsers(st, h, s);
    PublishedBots(st, h, s);
    PublishedHumans(st, h, s);
  }

  /** Every guild set a pass fills is published as the number of guilds flagged for it. */
  lemma PublishedGuildSet(st: Stats, h: HostView, s: Settings, l: Label)
    requires HasCategories(st)
    requires GuildIds(h.guilds, ModeOf(s), l) != {}
    ensures Fixed(l) in PublishBotData(st, BotDataTally(h, s))["guilds"]
    ensures PublishBotData(st, BotDataTally(h, s))["guilds"][Fixed(l)] == IntVal(|GuildIds(h.guilds, ModeOf(s), l)|)
  {
    var t := BotDataTally(h, s);
    PassStart(h, s);
    GuildsTallySets(InitialTally(h, s), h.guilds, ModeOf(s));
    assert l in t.serverTempData;
    PublishedGuilds(st, t, l);
  }

  /** "Unavailable" publishes the number of unavailable guilds, once there is one. */
  lemma PublishedUnavailable(st: Stats, h: HostView, s: Settings)
    requires HasCategories(st)
    requires UnavailableIds(h.guilds) != {}
    ensures Fixed(Unavailable) in PublishBotData(st, BotDataTally(h, s))["guilds"]
    ensures PublishBotData(st, BotDataTally(h, s))["guilds"][Fixed(Unavailable)] == IntVal(|UnavailableIds(h.guilds)|)
  {
    UnavailableSet(h.guilds, ModeOf(s));
    PublishedGuildSet(st, h, s, Unavailable);
  }

  /** No guild is flagged for a plain counter, so the sets never shadow one. */
  lemma {:induction false} NotASet(t: Tally, gs: seq<Guild>, mode: Mode, l: Label)
    requires l == Total || l == Members
    ensures l in GuildsTally(t, gs, mode).serverTempData <==> l in t.serverTempData
  {
    if gs != [] {
      NotASet(t, gs[..|gs| - 1], mode, l);
      GuildStepSetKey(GuildsTally(t, gs[..|gs| - 1], mode), gs[|gs| - 1], mode, l);
    }
  }

  lemma PassTotal(h: HostView, s: Settings)
    ensures Total in BotDataTally(h, s).serverCounter
    ensures Get(BotDataTally(h, s).serverCounter, Total) == |h.guilds|
    ensures Total !in BotDataTally(h, s).serverTempData
  {
    var t0 := InitialTally(h, s);
    var mode := ModeOf(s);
    PassStart(h, s);
    GuildsTallyKeysGrow(t0, h.guilds, mode);
    GuildsTallyCounter(t0, h.guilds, mode, Total);
    TotalIncrement(h.guilds, mode);
    NotASet(t0, h.guilds, mode, Total);
  }

  lemma PassMembers(h: HostView, s: Settings)
    requires AvailableOf(h.guilds) != []
    ensures Members in BotDataTally(h, s).serverCounter
    ensures Get(BotDataTally(h, s).serverCounter, Members) == MemberCountSum(h.guilds)
    ensures Members !in BotDataTally(h, s).serverTempData
  {
    var t0 := InitialTally(h, s);
    var mode := ModeOf(s);
    PassStart(h, s);
    GuildsTallyMembersKey(t0, h.guilds, mode);
    GuildsTallyCounter(t0, h.guilds, mode, Members);
    MembersIncrement(h.guilds, mode);
    NotASet(t0, h.guilds, mode, Members);
  }

  /** "Total" publishes the number of guilds, the unavailable ones included. */
  lemma PublishedTotal(st: Stats, h: HostView, s: Settings)
    requires HasCategories(st)
    ensures Fixed(Total) in PublishBotData(st, BotDataTally(h, s))["guilds"]
    ensures PublishBotData(st, BotDataTally(h, s))["guilds"][Fixed(Total)] == IntVal(|h.guilds|)
  {
    PassTotal(h, s);
    PublishedGuilds(st, BotDataTally(h, s), Total);
  }

  /** "Members" publishes the summed member counts of the available guilds, once there is
      one. */
  lemma PublishedMembers(st: Stats, h: HostView, s: Settings)
    requires HasCategories(st)
    requires AvailableOf(h.guilds) != []
    ensures Fixed(Members) in PublishBotData(st, BotDataTally(h, s))["guilds"]
    ensures PublishBotData(st, BotDataTally(h, s))["guilds"][Fixed(Members)] == IntVal(MemberCountSum(h.guilds))
  {
    PassMembers(h, s);
    PublishedGuilds(st, BotDataTally(h, s), Members);
  }
}
