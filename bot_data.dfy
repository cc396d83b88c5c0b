/** The guild/member collector `write_bot_data`: classification of guilds, channels, emojis
    and members into the working counters, flattening of the id sets, and publication into
    the "bot", "guilds", "guild_features" and "guild_verification" categories. */
module BotData {
  import opened Options
  import opened Counters
  import opened Labels
  import opened Host
  import opened Lookup
  import opened Store

  /** The collector's settings as read from the cache. */
  datatype Settings = Settings(lightmode: bool, detailed: bool, topgg: bool)

  /** What a pass collects: light mode forces `detailed` off. */
  datatype Mode = Light | Standard | Detailed

  function ModeOf(s: Settings): Mode
  {
    if s.lightmode then Light else if s.detailed then Detailed else Standard
  }

  /** What the collector reads from the host besides the guilds: the latency in whole
      milliseconds (`None` when rounding overflows), the shard count and the vote data
      `get_votes` returned (empty when no API key is set, the reply status is not 200 or the
      request times out). */
  datatype HostView = HostView(
    guilds: seq<Guild>,
    latencyMs: Option<int>,
    shardCount: int,
    votes: map<string, int>)

  /** The working counters of one pass: `counter`, `server_counter`, `verify_count`,
      `features_count`, `temp_data` and `server_temp_data`. */
  datatype Tally = Tally(
    counter: Counter<Label>,
    serverCounter: Counter<Label>,
    verifyCount: Counter<string>,
    featuresCount: Counter<string>,
    tempData: IdSets<Label>,
    serverTempData: IdSets<Label>)

  // ---------------------------------------------------------------------------------------
  // Classification of one member

  /** Add the member under `all` and under `bots` or `humans` by its bot flag. */
  function AddSplit(s: IdSets<Label>, all: Label, bots: Label, humans: Label, m: Member): (r: IdSets<Label>)
  {
    var s1 := AddId(s, all, m.id);
    if m.bot then AddId(s1, bots, m.id) else AddId(s1, humans, m.id)
  }

  /** One activity: streaming/playing are exclusive, then listening, watching, custom. */
  function ActivityStep(s: IdSets<Label>, m: Member, a: ActivityType): (r: IdSets<Label>)
  {
    match a
    case Streaming => AddSplit(s, UsersStreaming, BotsStreaming, HumansStreaming, m)
    case Playing => AddSplit(s, UsersGaming, BotsGaming, HumansGaming, m)
    case Listening => AddSplit(s, UsersListening, BotsListening, HumansListening, m)
    case Watching => AddSplit(s, UsersWatching, BotsWatching, HumansWatching, m)
    case Custom => AddSplit(s, UsersCustomStatus, BotsCustomStatus, HumansCustomStatus, m)
    case _ => s
  }

  /** Every activity of the member, in order. */
  function ActivitiesTally(s: IdSets<Label>, m: Member, acts: seq<ActivityType>): (r: IdSets<Label>)
  {
    if acts == [] then s
    else ActivityStep(ActivitiesTally(s, m, acts[..|acts| - 1]), m, acts[|acts| - 1])
  }

  /** Overall presence: "Connected" unless offline, then one bucket per status. */
  function PresenceStep(s: IdSets<Label>, m: Member): IdSets<Label>
  {
    var s1 := if m.status != Offline then AddSplit(s, UsersConnected, BotsConnected, HumansConnected, m) else s;
    match m.status
    case Online => AddSplit(s1, UsersOnline, BotsOnline, HumansOnline, m)
    case Idle => AddSplit(s1, IdleUsers, IdleBots, IdleHumans, m)
    case DoNotDisturb => AddSplit(s1, UsersDnd, BotsDnd, HumansDnd, m)
    case Offline => AddSplit(s1, UsersOffline, BotsOffline, HumanOffline, m)
    case Invisible => s1
  }

  /** Presence on one platform, into one of four buckets. */
  function PlatformStep(s: IdSets<Label>, id: int, st: Status, online: Label, idle: Label, dnd: Label, offline: Label): (r: IdSets<Label>)
  {
    match st
    case Online => AddId(s, online, id)
    case Idle => AddId(s, idle, id)
    case DoNotDisturb => AddId(s, dnd, id)
    case Offline => AddId(s, offline, id)
    case Invisible => s
  }

  /** `member.activities` holds a streaming activity. */
  predicate IsStreaming(m: Member)
  {
    Streaming in m.activities
  }

  /** Presence on each of mobile, desktop and browser. */
  function PlatformsStep(s: IdSets<Label>, m: Member): (r: IdSets<Label>)
  {
    var s1 := PlatformStep(s, m.id, m.mobileStatus, UsersOnlineMobile, UsersIdleMobile,
                           UsersDndMobile, UsersOfflineMobile);
    var s2 := PlatformStep(s1, m.id, m.desktopStatus, UsersOnlineDesktop, UsersIdleDesktop,
                           UsersDndDesktop, UsersOfflineDesktop);
    PlatformStep(s2, m.id, m.webStatus, UsersOnlineBrowser, UsersIdleBrowser,
                 UsersDndBrowser, UsersOfflineBrowser)
  }

  /** The detailed-mode classification of a member. */
  function DetailedStep(s: IdSets<Label>, m: Member): IdSets<Label>
  {
    var s1 := if OnMobile(m) then AddId(s, MobileUsers, m.id) else s;
    var s2 := ActivitiesTally(s1, m, m.activities);
    var s3 := if IsStreaming(m) then s2 else PresenceStep(s2, m);
    PlatformsStep(s3, m)
  }

  /** One member: always deduplicated by id into users/bots/humans, then detailed tallies. */
  function MemberStep(s: IdSets<Label>, m: Member, detailed: bool): IdSets<Label>
  {
    var s1 := AddSplit(s, UniqueUsers, Bots, Humans, m);
    if detailed then DetailedStep(s1, m) else s1
  }

  function MembersTally(s: IdSets<Label>, ms: seq<Member>, detailed: bool): IdSets<Label>
  {
    if ms == [] then s
    else MemberStep(MembersTally(s, ms[..|ms| - 1], detailed), ms[|ms| - 1], detailed)
  }

  // ---------------------------------------------------------------------------------------
  // Classification of channels, emojis and guilds

  /** `sum(1 for m in channel.members if m.bot)`. */
  function CountBots(ms: seq<Member>): (n: nat)
    ensures n <= |ms|
  {
    if ms == [] then 0
    else CountBots(ms[..|ms| - 1]) + (if ms[|ms| - 1].bot then 1 else 0)
  }

  /** The voice members on mobile, by id. */
  function MobileVoiceIds(s: IdSets<Label>, ms: seq<Member>): (r: IdSets<Label>)
  {
    if ms == [] then s
    else
      var s' := MobileVoiceIds(s, ms[..|ms| - 1]);
      var m := ms[|ms| - 1];
      if OnMobile(m) then AddId(s', UsersInVcOnMobile, m.id) else s'
  }

  /** One channel of a guild whose bot member is `meId`. */
  function ChannelStep(t: Tally, meId: int, c: Channel): (r: Tally)
  {
    var sc := Bump(t.serverCounter, ServerChannels, 1);
    match c
    case Text(id, nsfw, news) =>
      var s1 := if nsfw then AddId(t.tempData, NsfwTextChannels, id) else t.tempData;
      var s2 := if news then AddId(s1, NewsTextChannels, id) else s1;
      t.(serverCounter := Bump(sc, TextChannels, 1), tempData := s2)
    case Voice(_, ms) =>
      var sc1 := Bump(sc, VoiceChannels, 1);
      var c1 := Bump(t.counter, UsersInVc, |ms|);
      if HasMember(ms, meId) then
        t.(counter := Bump(c1, UsersInVcWithMe, |ms| - 1),
           serverCounter := Bump(sc1, BotsInVcWithMe, CountBots(ms) - 1),
           tempData := MobileVoiceIds(t.tempData, ms))
      else
        t.(counter := c1, serverCounter := sc1)
    case Category(_) =>
      t.(serverCounter := Bump(sc, ChannelCategories, 1))
    case Other(_) =>
      t.(serverCounter := sc)
  }

  function ChannelsTally(t: Tally, meId: int, cs: seq<Channel>): (r: Tally)
  {
    if cs == [] then t
    else ChannelStep(ChannelsTally(t, meId, cs[..|cs| - 1]), meId, cs[|cs| - 1])
  }

  function EmojisTally(sc: Counter<Label>, es: seq<Emoji>): Counter<Label>
  {
    if es == [] then sc
    else
      var sc' := EmojisTally(sc, es[..|es| - 1]);
      Bump(Bump(sc', Emojis, 1), if es[|es| - 1].animated then AnimatedEmojis else StaticEmojis, 1)
  }

  /** The feature histogram; every entry adds one under its table name or "Unknown". */
  function FeaturesTally(c: Counter<string>, fs: seq<string>): Counter<string>
  {
    if fs == [] then c
    else Bump(FeaturesTally(c, fs[..|fs| - 1]), FeatureLabel(fs[|fs| - 1]), 1)
  }

  /** Boost-tier buckets. */
  function PremiumTally(s: IdSets<Label>, id: int, tier: int): IdSets<Label>
  {
    var s1 := if tier != 0 then AddId(s, NitroBoosted, id) else s;
    if tier == 1 then AddId(s1, Tier1Nitro, id)
    else if tier == 2 then AddId(s1, Tier2Nitro, id)
    else if tier == 3 then AddId(s1, Tier3Nitro, id)
    else s1
  }

  /** The guild sets an available guild goes into outside light mode. */
  function GuildSets(s: IdSets<Label>, g: Guild): IdSets<Label>
  {
    var s1 := if g.large then AddId(s, Large, g.id) else s;
    var s2 := if !g.chunked then AddId(s1, Unchunked, g.id) else s1;
    PremiumTally(s2, g.id, g.premiumTier)
  }

  /** The part of an available guild's classification that light mode skips. */
  function GuildDetails(t: Tally, g: Guild, detailed: bool): (r: Tally)
  {
    var t1 := if detailed then
        t.(featuresCount := FeaturesTally(t.featuresCount, g.features),
           verifyCount := Bump(t.verifyCount, VerifyLabel(g.verification), 1))
      else t;
    var t2 := t1.(serverCounter := Bump(t1.serverCounter, Roles, g.roleCount),
                  serverTempData := GuildSets(t1.serverTempData, g));
    var t3 := ChannelsTally(t2, g.meId, g.channels);
    t3.(serverCounter := EmojisTally(t3.serverCounter, g.emojis))
  }

  /** One guild: an unavailable guild is only recorded as such. */
  function GuildStep(t: Tally, g: Guild, mode: Mode): Tally
  {
    if g.unavailable then
      t.(serverTempData := AddId(t.serverTempData, Unavailable, g.id))
    else
      var t1 := t.(serverCounter := Bump(t.serverCounter, Members, g.memberCount));
      var t2 := if mode == Light then t1 else GuildDetails(t1, g, mode == Detailed);
      t2.(tempData := MembersTally(t2.tempData, g.members, mode == Detailed))
  }

  function GuildsTally(t: Tally, gs: seq<Guild>, mode: Mode): Tally
  {
    if gs == [] then t
    else GuildStep(GuildsTally(t, gs[..|gs| - 1], mode), gs[|gs| - 1], mode)
  }

  /** The counters before the guild loop: votes, guild total, latency and shard count. */
  function InitialTally(h: HostView, s: Settings): Tally
  {
    var topgg := !s.lightmode && s.topgg;
    var v := h.votes;
    var c0: Counter<Label> := map[];
    var c1 := if topgg && "monthlyPoints" in v && v["monthlyPoints"] != 0 then c0[MonthlyVotes := v["monthlyPoints"]] else c0;
    var c2 := if topgg && "points" in v && v["points"] != 0 then c1[Votes := v["points"]] else c1;
    var c3 := if h.latencyMs.Some? then c2[DiscordLatency := h.latencyMs.value] else c2;
    Tally(c3[Shards := h.shardCount], map[Total := |h.guilds|], map[], map[], map[], map[])
  }

  /** The working counters at the end of the guild loop. */
  function BotDataTally(h: HostView, s: Settings): Tally
  {
    GuildsTally(InitialTally(h, s), h.guilds, ModeOf(s))
  }

  /** The labels published under "bot" and "guilds": counters, then set cardinalities. */
  function BotLabels(t: Tally): Counter<Label>
  {
    t.counter + Flatten(t.tempData)
  }

  function GuildLabels(t: Tally): Counter<Label>
  {
    t.serverCounter + Flatten(t.serverTempData)
  }

  /** The store after a pass with `t` as its working counters. */
  function PublishBotData(st: Stats, t: Tally): (r: Stats)
    requires HasCategories(st)
    ensures HasCategories(r)
  {
    var s1 := Publish(st, "bot", Ints(BotLabels(t)));
    var s2 := Publish(s1, "guilds", Ints(GuildLabels(t)));
    var s3 := Publish(s2, "guild_features", NamedInts(t.featuresCount));
    Publish(s3, "guild_verification", NamedInts(t.verifyCount))
  }

  // ---------------------------------------------------------------------------------------
  // The collector's loops

  /** The activities loop: classify each activity and note whether one is a stream. */
  method TallyActivities(s: IdSets<Label>, m: Member) returns (r: IdSets<Label>, streaming: bool)
    ensures r == ActivitiesTally(s, m, m.activities)
    ensures streaming == IsStreaming(m)
  {
    r := s;
    streaming := false;
    var j := 0;
    while j < |m.activities|
      invariant 0 <= j <= |m.activities|
      invariant r == ActivitiesTally(s, m, m.activities[..j])
      invariant streaming == (Streaming in m.activities[..j])
    {
      var a := m.activities[j];
      r := ActivityStep(r, m, a);
      if a == Streaming {
        streaming := true;
      }
      assert m.activities[..j + 1][..j] == m.activities[..j];
      assert m.activities[..j + 1] == m.activities[..j] + [a];
      j := j + 1;
    }
    assert m.activities[..j] == m.activities;
  }

  /** The detailed-mode part of the member loop body. */
  method TallyDetails(s: IdSets<Label>, m: Member) returns (r: IdSets<Label>)
    ensures r == DetailedStep(s, m)
  {
    r := s;
    if OnMobile(m) {
      r := AddId(r, MobileUsers, m.id);
    }
    var streaming;
    r, streaming := TallyActivities(r, m);
    if !streaming {
      r := PresenceStep(r, m);
    }
    r := PlatformsStep(r, m);
  }

  method TallyMember(s: IdSets<Label>, m: Member, detailed: bool) returns (r: IdSets<Label>)
    ensures r == MemberStep(s, m, detailed)
  {
    r := AddId(s, UniqueUsers, m.id);
    if m.bot {
      r := AddId(r, Bots, m.id);
    } else {
      r := AddId(r, Humans, m.id);
    }
    if detailed {
      r := TallyDetails(r, m);
    }
  }

  method TallyMembers(s: IdSets<Label>, ms: seq<Member>, detailed: bool) returns (r: IdSets<Label>)
    ensures r == MembersTally(s, ms, detailed)
  {
    r := s;
    var i := 0;
    while i < |ms|
      invariant 0 <= i <= |ms|
      invariant r == MembersTally(s, ms[..i], detailed)
    {
      r := TallyMember(r, ms[i], detailed);
      assert ms[..i + 1][..i] == ms[..i];
      i := i + 1;
    }
    assert ms[..i] == ms;
  }

  /** `sum(1 for m in channel.members if m.bot)`. */
  method CountVoiceBots(ms: seq<Member>) returns (bots: int)
    ensures bots == CountBots(ms)
  {
    bots := 0;
    var i := 0;
    while i < |ms|
      invariant 0 <= i <= |ms|
      invariant bots == CountBots(ms[..i])
    {
      if ms[i].bot {
        bots := bots + 1;
      }
      assert ms[..i + 1][..i] == ms[..i];
      i := i + 1;
    }
    assert ms[..i] == ms;
  }

  /** The loop recording the voice members that are on mobile. */
  method TallyMobileVoice(s: IdSets<Label>, ms: seq<Member>) returns (r: IdSets<Label>)
    ensures r == MobileVoiceIds(s, ms)
  {
    r := s;
    var i := 0;
    while i < |ms|
      invariant 0 <= i <= |ms|
      invariant r == MobileVoiceIds(s, ms[..i])
    {
      if OnMobile(ms[i]) {
        r := AddId(r, UsersInVcOnMobile, ms[i].id);
      }
      assert ms[..i + 1][..i] == ms[..i];
      i := i + 1;
    }
    assert ms[..i] == ms;
  }

  /** A voice channel: occupancy, and with the bot present its companions. */
  method TallyVoice(t: Tally, meId: int, ms: seq<Member>) returns (r: Tally)
    ensures forall id :: r == ChannelStep(t, meId, Voice(id, ms))
  {
    r := t.(serverCounter := Bump(Bump(t.serverCounter, ServerChannels, 1), VoiceChannels, 1),
            counter := Bump(t.counter, UsersInVc, |ms|));
    if HasMember(ms, meId) {
      var bots := CountVoiceBots(ms);
      var mobile := TallyMobileVoice(r.tempData, ms);
      r := r.(counter := Bump(r.counter, UsersInVcWithMe, |ms| - 1),
              serverCounter := Bump(r.serverCounter, BotsInVcWithMe, bots - 1),
              tempData := mobile);
    }
  }

  /** The body of the channel loop, by channel kind. */
  method TallyChannel(t: Tally, meId: int, c: Channel) returns (r: Tally)
    ensures r == ChannelStep(t, meId, c)
  {
    r := t;
    match c {
      case Text(id, nsfw, news) =>
        r := r.(serverCounter := Bump(Bump(r.serverCounter, ServerChannels, 1), TextChannels, 1));
        if nsfw {
          r := r.(tempData := AddId(r.tempData, NsfwTextChannels, id));
        }
        if news {
          r := r.(tempData := AddId(r.tempData, NewsTextChannels, id));
        }
      case Voice(_, ms) =>
        r := TallyVoice(r, meId, ms);
      case Category(_) =>
        r := r.(serverCounter := Bump(Bump(r.serverCounter, ServerChannels, 1), ChannelCategories, 1));
      case Other(_) =>
        r := r.(serverCounter := Bump(r.serverCounter, ServerChannels, 1));
    }
  }

  method TallyChannels(t: Tally, meId: int, cs: seq<Channel>) returns (r: Tally)
    ensures r == ChannelsTally(t, meId, cs)
  {
    r := t;
    var i := 0;
    while i < |cs|
      invariant 0 <= i <= |cs|
      invariant r == ChannelsTally(t, meId, cs[..i])
    {
      r := TallyChannel(r, meId, cs[i]);
      assert cs[..i + 1][..i] == cs[..i];
      i := i + 1;
    }
    assert cs[..i] == cs;
  }

  method TallyEmojis(sc: Counter<Label>, es: seq<Emoji>) returns (r: Counter<Label>)
    ensures r == EmojisTally(sc, es)
  {
    r := sc;
    var i := 0;
    while i < |es|
      invariant 0 <= i <= |es|
      invariant r == EmojisTally(sc, es[..i])
    {
      r := Bump(r, Emojis, 1);
      if es[i].animated {
        r := Bump(r, AnimatedEmojis, 1);
      } else {
        r := Bump(r, StaticEmojis, 1);
      }
      assert es[..i + 1][..i] == es[..i];
      i := i + 1;
    }
    assert es[..i] == es;
  }

  method TallyFeatures(c: Counter<string>, fs: seq<string>) returns (r: Counter<string>)
    ensures r == FeaturesTally(c, fs)
  {
    r := c;
    var i := 0;
    while i < |fs|
      invariant 0 <= i <= |fs|
      invariant r == FeaturesTally(c, fs[..i])
    {
      r := Bump(r, FeatureLabel(fs[i]), 1);
      assert fs[..i + 1][..i] == fs[..i];
      i := i + 1;
    }
    assert fs[..i] == fs;
  }

  /** The body of the guild loop. */
  method TallyGuild(t: Tally, g: Guild, mode: Mode) returns (r: Tally)
    ensures r == GuildStep(t, g, mode)
  {
    if g.unavailable {
      r := t.(serverTempData := AddId(t.serverTempData, Unavailable, g.id));
      return;
    }
    r := t.(serverCounter := Bump(t.serverCounter, Members, g.memberCount));
    if mode != Light {
      r := TallyGuildDetails(r, g, mode == Detailed);
    }
    var members := TallyMembers(r.tempData, g.members, mode == Detailed);
    r := r.(tempData := members);
  }

  method TallyGuildDetails(t: Tally, g: Guild, detailed: bool) returns (r: Tally)
    ensures r == GuildDetails(t, g, detailed)
  {
    r := t;
    if detailed {
      var fc := TallyFeatures(r.featuresCount, g.features);
      r := r.(featuresCount := fc, verifyCount := Bump(r.verifyCount, VerifyLabel(g.verification), 1));
    }
    r := r.(serverCounter := Bump(r.serverCounter, Roles, g.roleCount));
    var st := r.serverTempData;
    if g.large {
      st := AddId(st, Large, g.id);
    }
    if !g.chunked {
      st := AddId(st, Unchunked, g.id);
    }
    if g.premiumTier != 0 {
      st := AddId(st, NitroBoosted, g.id);
    }
    if g.premiumTier == 1 {
      st := AddId(st, Tier1Nitro, g.id);
    } else if g.premiumTier == 2 {
      st := AddId(st, Tier2Nitro, g.id);
    } else if g.premiumTier == 3 {
      st := AddId(st, Tier3Nitro, g.id);
    }
    r := r.(serverTempData := st);
    r := TallyChannels(r, g.meId, g.channels);
    var sc := TallyEmojis(r.serverCounter, g.emojis);
    r := r.(serverCounter := sc);
  }

  /** The counters set before the guild loop. */
  method StartTally(h: HostView, s: Settings) returns (t: Tally)
    ensures t == InitialTally(h, s)
  {
    var lightmode := s.lightmode;
    var topgg := if lightmode then false else s.topgg;
    var counter: Counter<Label> := map[];
    if topgg {
      var v := h.votes;
      if "monthlyPoints" in v && v["monthlyPoints"] != 0 {
        counter := counter[MonthlyVotes := v["monthlyPoints"]];
      }
      if "points" in v && v["points"] != 0 {
        counter := counter[Votes := v["points"]];
      }
    }
    if h.latencyMs.Some? {
      counter := counter[DiscordLatency := h.latencyMs.value];
    }
    counter := counter[Shards := h.shardCount];
    t := Tally(counter, map[Total := |h.guilds|], map[], map[], map[], map[]);
  }

  /** The working counters of a whole pass: initial counters, then the guild loop. */
  method CollectBotData(h: HostView, s: Settings) returns (t: Tally)
    ensures t == BotDataTally(h, s)
  {
    var detailed := if s.lightmode then false else s.detailed;
    var mode := if s.lightmode then Light else if detailed then Detailed else Standard;
    t := StartTally(h, s);
    var i := 0;
    while i < |h.guilds|
      invariant 0 <= i <= |h.guilds|
      invariant t == GuildsTally(InitialTally(h, s), h.guilds[..i], mode)
    {
      t := TallyGuild(t, h.guilds[i], mode);
      assert h.guilds[..i + 1][..i] == h.guilds[..i];
      i := i + 1;
    }
    assert h.guilds[..i] == h.guilds;
  }

  /** `for key, value in temp_data.items(): counter[key] = len(value)`. */
  method FlattenInto(c: Counter<Label>, s: IdSets<Label>) returns (r: Counter<Label>)
    ensures r == c + Flatten(s)
  {
    r := c;
    var todo := s.Keys;
    while todo != {}
      invariant todo <= s.Keys
      invariant r == c + Flatten(s - todo)
      decreases todo
    {
      var k :| k in todo;
      assert (c + Flatten(s - todo))[k := |s[k]|] == c + Flatten(s - (todo - {k}));
      r := r[k := |s[k]|];
      todo := todo - {k};
    }
    assert s - {} == s;
  }

  /** `write_bot_data`: one pass of the collector, published into the store. */
  method WriteBotData(bot: Bot, h: HostView, s: Settings)
    requires HasCategories(bot.stats)
    modifies bot
    ensures bot.stats == PublishBotData(old(bot.stats), BotDataTally(h, s))
    ensures HasCategories(bot.stats)
    ensures bot.statsReady == old(bot.statsReady)
  {
    var t := CollectBotData(h, s);
    var counter := FlattenInto(t.counter, t.tempData);
    var serverCounter := FlattenInto(t.serverCounter, t.serverTempData);
    bot.SetLabels("bot", Ints(counter));
    bot.SetLabels("guilds", Ints(serverCounter));
    bot.SetLabels("guild_features", NamedInts(t.featuresCount));
    bot.SetLabels("guild_verification", NamedInts(t.verifyCount));
  }
}
