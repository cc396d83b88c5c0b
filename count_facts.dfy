/** What `write_bot_data` promises about its plain counters (channels, emojis, voice
    occupancy, members, roles, the guild total) and about the values a pass publishes. */
module CountFacts {
  import opened Counters
  import opened Labels
  import opened Host
  import opened Lookup
  import opened Store
  import opened BotData
  import opened MemberFacts
  import opened GuildFacts

  // ---------------------------------------------------------------------------------------
  // Emojis

  function AnimatedCount(es: seq<Emoji>): (n: nat)
    ensures n <= |es|
  {
    if es == [] then 0
    else AnimatedCount(es[..|es| - 1]) + (if es[|es| - 1].animated then 1 else 0)
  }

  /** Every emoji counts under "Emojis" and under exactly one of "Animated Emojis" and
      "Static Emojis". */
  lemma {:induction false} EmojisCounted(sc: Counter<Label>, es: seq<Emoji>)
    ensures Get(EmojisTally(sc, es), Emojis) == Get(sc, Emojis) + |es|
    ensures Get(EmojisTally(sc, es), AnimatedEmojis) == Get(sc, AnimatedEmojis) + AnimatedCount(es)
    ensures Get(EmojisTally(sc, es), StaticEmojis) == Get(sc, StaticEmojis) + (|es| - AnimatedCount(es))
  {
    if es != [] {
      EmojisCounted(sc, es[..|es| - 1]);
    }
  }

  /** The emoji loop touches only the three emoji labels. */
  lemma {:induction false} EmojisFrame(sc: Counter<Label>, es: seq<Emoji>, l: Label)
    requires l != Emojis && l != AnimatedEmojis && l != StaticEmojis
    ensures Get(EmojisTally(sc, es), l) == Get(sc, l)
  {
    if es != [] {
      EmojisFrame(sc, es[..|es| - 1], l);
    }
  }

  // ---------------------------------------------------------------------------------------
  // Channels and voice occupancy

  /** The channel kinds the guild counters tell apart. */
  datatype ChannelKind = TextKind | VoiceKind | CategoryKind

  function KindLabel(k: ChannelKind): Label
  {
    match k
    case TextKind => TextChannels
    case VoiceKind => VoiceChannels
    case CategoryKind => ChannelCategories
  }

  predicate OfKind(c: Channel, k: ChannelKind)
  {
    match k
    case TextKind => c.Text?
    case VoiceKind => c.Voice?
    case CategoryKind => c.Category?
  }

  function KindCount(cs: seq<Channel>, k: ChannelKind): (n: nat)
    ensures n <= |cs|
  {
    if cs == [] then 0
    else KindCount(cs[..|cs| - 1], k) + (if OfKind(cs[|cs| - 1], k) then 1 else 0)
  }

  /** No channel is of two kinds, so the three kind counts never exceed the channel count. */
  lemma {:induction false} KindsBounded(cs: seq<Channel>)
    ensures KindCount(cs, TextKind) + KindCount(cs, VoiceKind) + KindCount(cs, CategoryKind) <= |cs|
  {
    if cs != [] {
      KindsBounded(cs[..|cs| - 1]);
    }
  }

  lemma ChannelStepCounted(t: Tally, meId: int, c: Channel, k: ChannelKind)
    ensures Get(ChannelStep(t, meId, c).serverCounter, ServerChannels) == Get(t.serverCounter, ServerChannels) + 1
    ensures Get(ChannelStep(t, meId, c).serverCounter, KindLabel(k))
         == Get(t.serverCounter, KindLabel(k)) + (if OfKind(c, k) then 1 else 0)
  {
    match k {
      case TextKind =>
      case VoiceKind =>
      case CategoryKind =>
    }
  }

  /** Every channel counts under "Server Channels", every text, voice and category channel
      under its kind's label. */
  lemma {:induction false} ChannelsCounted(t: Tally, meId: int, cs: seq<Channel>, k: ChannelKind)
    ensures Get(ChannelsTally(t, meId, cs).serverCounter, ServerChannels) == Get(t.serverCounter, ServerChannels) + |cs|
    ensures Get(ChannelsTally(t, meId, cs).serverCounter, KindLabel(k))
         == Get(t.serverCounter, KindLabel(k)) + KindCount(cs, k)
  {
    if cs != [] {
      var init := cs[..|cs| - 1];
      ChannelsCounted(t, meId, init, k);
      ChannelStepCounted(ChannelsTally(t, meId, init), meId, cs[|cs| - 1], k);
    }
  }

  /** The members of the voice channels the bot is in, and of all voice channels. */
  function VoiceOccupancy(cs: seq<Channel>): nat
  {
    if cs == [] then 0
    else VoiceOccupancy(cs[..|cs| - 1]) + (if cs[|cs| - 1].Voice? then |cs[|cs| - 1].members| else 0)
  }

  /** The members of the voice channels the bot sits in, the bot itself not counted. */
  function OccupancyWithMe(cs: seq<Channel>, meId: int): int
  {
    if cs == [] then 0
    else
      var c := cs[|cs| - 1];
      OccupancyWithMe(cs[..|cs| - 1], meId) + (if c.Voice? && HasMember(c.members, meId) then |c.members| - 1 else 0)
  }

  /** "Users in a VC" counts every voice channel's members, "Users in a VC with me" those
      of the channels the bot is in, less the bot itself. */
  lemma ChannelStepVoice(t: Tally, meId: int, c: Channel)
    ensures Get(ChannelStep(t, meId, c).counter, UsersInVc) == Get(t.counter, UsersInVc) + (if c.Voice? then |c.members| else 0)
    ensures Get(ChannelStep(t, meId, c).counter, UsersInVcWithMe)
         == Get(t.counter, UsersInVcWithMe) + (if c.Voice? && HasMember(c.members, meId) then |c.members| - 1 else 0)
  {
  }

  lemma {:induction false} VoiceCounted(t: Tally, meId: int, cs: seq<Channel>)
    ensures Get(ChannelsTally(t, meId, cs).counter, UsersInVc) == Get(t.counter, UsersInVc) + VoiceOccupancy(cs)
    ensures Get(ChannelsTally(t, meId, cs).counter, UsersInVcWithMe) == Get(t.counter, UsersInVcWithMe) + OccupancyWithMe(cs, meId)
  {
    if cs != [] {
      var init := cs[..|cs| - 1];
      VoiceCounted(t, meId, init);
      ChannelStepVoice(ChannelsTally(t, meId, init), meId, cs[|cs| - 1]);
    }
  }

  /** The guild counters the channel loop writes. */
  predicate IsChannelCounter(l: Label)
  {
    l == ServerChannels || l == TextChannels || l == VoiceChannels || l == ChannelCategories || l == BotsInVcWithMe
  }

  lemma ChannelStepServerFrame(t: Tally, meId: int, c: Channel, l: Label)
    requires !IsChannelCounter(l)
    ensures Get(ChannelStep(t, meId, c).serverCounter, l) == Get(t.serverCounter, l)
  {
    match c {
      case Text(_, _, _) =>
      case Voice(_, _) =>
      case Category(_) =>
      case Other(_) =>
    }
  }

  lemma ChannelStepCounterFrame(t: Tally, meId: int, c: Channel, l: Label)
    requires l != UsersInVc && l != UsersInVcWithMe
    ensures l in ChannelStep(t, meId, c).counter <==> l in t.counter
  {
  }

  /** The channel loop leaves every other guild counter, and every bot counter but the two
      voice counts, alone. */
  lemma {:induction false} ChannelsFrame(t: Tally, meId: int, cs: seq<Channel>, l: Label)
    ensures !IsChannelCounter(l) ==> Get(ChannelsTally(t, meId, cs).serverCounter, l) == Get(t.serverCounter, l)
    ensures l != UsersInVc && l != UsersInVcWithMe ==> (l in ChannelsTally(t, meId, cs).counter <==> l in t.counter)
  {
    if cs != [] {
      var init := cs[..|cs| - 1];
      ChannelsFrame(t, meId, init, l);
      var r := ChannelsTally(t, meId, init);
      if !IsChannelCounter(l) {
        ChannelStepServerFrame(r, meId, cs[|cs| - 1], l);
      }
      if l != UsersInVc && l != UsersInVcWithMe {
        ChannelStepCounterFrame(r, meId, cs[|cs| - 1], l);
      }
    }
  }

  // ---------------------------------------------------------------------------------------
  // Guild counters

  /** The member counts of the available guilds, added up. */
  function MemberCountSum(gs: seq<Guild>): int
  {
    if gs == [] then 0
    else
      var g := gs[|gs| - 1];
      MemberCountSum(gs[..|gs| - 1]) + (if g.unavailable then 0 else g.memberCount)
  }

  /** The role counts of the available guilds, added up. */
  function RoleCountSum(gs: seq<Guild>): nat
  {
    if gs == [] then 0
    else
      var g := gs[|gs| - 1];
      RoleCountSum(gs[..|gs| - 1]) + (if g.unavailable then 0 else g.roleCount)
  }

  lemma GuildDetailsCounters(t: Tally, g: Guild, detailed: bool, l: Label)
    requires !IsChannelCounter(l) && l != Emojis && l != AnimatedEmojis && l != StaticEmojis
    ensures Get(GuildDetails(t, g, detailed).serverCounter, l)
         == Get(t.serverCounter, l) + (if l == Roles then g.roleCount else 0)
  {
    var t1 := if detailed then
        t.(featuresCount := FeaturesTally(t.featuresCount, g.features),
           verifyCount := Bump(t.verifyCount, VerifyLabel(g.verification), 1))
      else t;
    var t2 := t1.(serverCounter := Bump(t1.serverCounter, Roles, g.roleCount),
                  serverTempData := GuildSets(t1.serverTempData, g));
    var t3 := ChannelsTally(t2, g.meId, g.channels);
    ChannelsFrame(t2, g.meId, g.channels, l);
    EmojisFrame(t3.serverCounter, g.emojis, l);
  }

  /** What one guild adds to a guild counter that neither channels nor emojis touch. */
  function GuildIncrement(g: Guild, mode: Mode, l: Label): int
  {
    if g.unavailable then 0
    else (if l == Members then g.memberCount else 0) + (if l == Roles && mode != Light then g.roleCount else 0)
  }

  lemma GuildStepCounter(t: Tally, g: Guild, mode: Mode, l: Label)
    requires !IsChannelCounter(l) && l != Emojis && l != AnimatedEmojis && l != StaticEmojis
    ensures Get(GuildStep(t, g, mode).serverCounter, l) == Get(t.serverCounter, l) + GuildIncrement(g, mode, l)
  {
    if !g.unavailable {
      var t1 := t.(serverCounter := Bump(t.serverCounter, Members, g.memberCount));
      if mode != Light {
        GuildDetailsCounters(t1, g, mode == Detailed, l);
      }
    }
  }

  lemma ChannelStepKeysGrow(t: Tally, meId: int, c: Channel)
    ensures t.serverCounter.Keys <= ChannelStep(t, meId, c).serverCounter.Keys
  {
  }

  lemma {:induction false} ChannelsKeysGrow(t: Tally, meId: int, cs: seq<Channel>)
    ensures t.serverCounter.Keys <= ChannelsTally(t, meId, cs).serverCounter.Keys
  {
    if cs != [] {
      ChannelsKeysGrow(t, meId, cs[..|cs| - 1]);
      ChannelStepKeysGrow(ChannelsTally(t, meId, cs[..|cs| - 1]), meId, cs[|cs| - 1]);
    }
  }

  lemma {:induction false} EmojisKeysGrow(sc: Counter<Label>, es: seq<Emoji>)
    ensures sc.Keys <= EmojisTally(sc, es).Keys
  {
    if es != [] {
      EmojisKeysGrow(sc, es[..|es| - 1]);
    }
  }

  lemma GuildDetailsKeysGrow(t: Tally, g: Guild, detailed: bool)
    ensures t.serverCounter.Keys <= GuildDetails(t, g, detailed).serverCounter.Keys
  {
    var t1 := if detailed then
        t.(featuresCount := FeaturesTally(t.featuresCount, g.features),
           verifyCount := Bump(t.verifyCount, VerifyLabel(g.verification), 1))
      else t;
    var t2 := t1.(serverCounter := Bump(t1.serverCounter, Roles, g.roleCount),
                  serverTempData := GuildSets(t1.serverTempData, g));
    var t3 := ChannelsTally(t2, g.meId, g.channels);
    ChannelsKeysGrow(t2, g.meId, g.channels);
    EmojisKeysGrow(t3.serverCounter, g.emojis);
  }

  /** A guild never removes a guild counter, and an available one creates "Members". */
  lemma GuildStepKeysGrow(t: Tally, g: Guild, mode: Mode)
    ensures t.serverCounter.Keys <= GuildStep(t, g, mode).serverCounter.Keys
    ensures !g.unavailable ==> Members in GuildStep(t, g, mode).serverCounter
  {
    if !g.unavailable && mode != Light {
      var t1 := t.(serverCounter := Bump(t.serverCounter, Members, g.memberCount));
      GuildDetailsKeysGrow(t1, g, mode == Detailed);
    }
  }

  /** What the guilds add to a guild counter that neither channels nor emojis touch. */
  function IncrementSum(gs: seq<Guild>, mode: Mode, l: Label): int
  {
    if gs == [] then 0
    else IncrementSum(gs[..|gs| - 1], mode, l) + GuildIncrement(gs[|gs| - 1], mode, l)
  }

  lemma {:induction false} GuildsTallyCounter(t: Tally, gs: seq<Guild>, mode: Mode, l: Label)
    requires !IsChannelCounter(l) && l != Emojis && l != AnimatedEmojis && l != StaticEmojis
    ensures Get(GuildsTally(t, gs, mode).serverCounter, l) == Get(t.serverCounter, l) + IncrementSum(gs, mode, l)
  {
    if gs != [] {
      GuildsTallyCounter(t, gs[..|gs| - 1], mode, l);
      GuildStepCounter(GuildsTally(t, gs[..|gs| - 1], mode), gs[|gs| - 1], mode, l);
    }
  }

  lemma {:induction false} GuildsTallyKeysGrow(t: Tally, gs: seq<Guild>, mode: Mode)
    ensures t.serverCounter.Keys <= GuildsTally(t, gs, mode).serverCounter.Keys
  {
    if gs != [] {
      GuildsTallyKeysGrow(t, gs[..|gs| - 1], mode);
      GuildStepKeysGrow(GuildsTally(t, gs[..|gs| - 1], mode), gs[|gs| - 1], mode);
    }
  }

  lemma {:induction false} GuildsTallyMembersKey(t: Tally, gs: seq<Guild>, mode: Mode)
    ensures AvailableOf(gs) != [] ==> Members in GuildsTally(t, gs, mode).serverCounter
  {
    if gs != [] {
      GuildsTallyMembersKey(t, gs[..|gs| - 1], mode);
      GuildStepKeysGrow(GuildsTally(t, gs[..|gs| - 1], mode), gs[|gs| - 1], mode);
    }
  }

  lemma {:induction false} TotalIncrement(gs: seq<Guild>, mode: Mode)
    ensures IncrementSum(gs, mode, Total) == 0
  {
    if gs != [] {
      TotalIncrement(gs[..|gs| - 1], mode);
    }
  }

  lemma {:induction false} MembersIncrement(gs: seq<Guild>, mode: Mode)
    ensures IncrementSum(gs, mode, Members) == MemberCountSum(gs)
  {
    if gs != [] {
      MembersIncrement(gs[..|gs| - 1], mode);
    }
  }

  lemma {:induction false} RolesIncrement(gs: seq<Guild>, mode: Mode)
    ensures IncrementSum(gs, mode, Roles) == if mode == Light then 0 else RoleCountSum(gs)
  {
    if gs != [] {
      RolesIncrement(gs[..|gs| - 1], mode);
    }
  }
}
