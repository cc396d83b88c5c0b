/** The member classification of `write_bot_data` against an independent reference: for
    each label, the condition under which a member entry is filed under it. Each step of the
    classification adds the member's id to exactly the labels whose condition holds;
    deduplication, the bot/human split and the presence buckets are facts about the
    conditions. */
module MemberFacts {
  import opened Counters
  import opened Labels
  import opened Host
  import opened BotData

  // ---------------------------------------------------------------------------------------
  // The reference classification

  /** The "all" label, and the bot or the human label by the member's flag. */
  predicate SplitFiled(all: Label, bots: Label, humans: Label, m: Member, l: Label)
  {
    l == all || (m.bot && l == bots) || (!m.bot && l == humans)
  }

  predicate ActivityFiled(m: Member, a: ActivityType, l: Label)
  {
    || (a == Streaming && SplitFiled(UsersStreaming, BotsStreaming, HumansStreaming, m, l))
    || (a == Playing && SplitFiled(UsersGaming, BotsGaming, HumansGaming, m, l))
    || (a == Listening && SplitFiled(UsersListening, BotsListening, HumansListening, m, l))
    || (a == Watching && SplitFiled(UsersWatching, BotsWatching, HumansWatching, m, l))
    || (a == Custom && SplitFiled(UsersCustomStatus, BotsCustomStatus, HumansCustomStatus, m, l))
  }

  /** The activity buckets: one per kind of activity the member has, whatever their order
      and however often a kind repeats. */
  predicate ActivitiesFiled(m: Member, acts: seq<ActivityType>, l: Label)
  {
    || (Streaming in acts && ActivityFiled(m, Streaming, l))
    || (Playing in acts && ActivityFiled(m, Playing, l))
    || (Listening in acts && ActivityFiled(m, Listening, l))
    || (Watching in acts && ActivityFiled(m, Watching, l))
    || (Custom in acts && ActivityFiled(m, Custom, l))
  }

  /** Overall presence: "Connected" unless offline, and the bucket of the status. */
  predicate PresenceFiled(m: Member, l: Label)
  {
    || (m.status != Offline && SplitFiled(UsersConnected, BotsConnected, HumansConnected, m, l))
    || (m.status == Online && SplitFiled(UsersOnline, BotsOnline, HumansOnline, m, l))
    || (m.status == Idle && SplitFiled(IdleUsers, IdleBots, IdleHumans, m, l))
    || (m.status == DoNotDisturb && SplitFiled(UsersDnd, BotsDnd, HumansDnd, m, l))
    || (m.status == Offline && SplitFiled(UsersOffline, BotsOffline, HumanOffline, m, l))
  }

  predicate PlatformFiled(st: Status, online: Label, idle: Label, dnd: Label, offline: Label, l: Label)
  {
    (st == Online && l == online) || (st == Idle && l == idle)
    || (st == DoNotDisturb && l == dnd) || (st == Offline && l == offline)
  }

  predicate PlatformsFiled(m: Member, l: Label)
  {
    || PlatformFiled(m.mobileStatus, UsersOnlineMobile, UsersIdleMobile, UsersDndMobile, UsersOfflineMobile, l)
    || PlatformFiled(m.desktopStatus, UsersOnlineDesktop, UsersIdleDesktop, UsersDndDesktop, UsersOfflineDesktop, l)
    || PlatformFiled(m.webStatus, UsersOnlineBrowser, UsersIdleBrowser, UsersDndBrowser, UsersOfflineBrowser, l)
  }

  /** The detailed-mode buckets; overall presence is skipped while the member streams. */
  predicate DetailedFiled(m: Member, l: Label)
  {
    || (OnMobile(m) && l == MobileUsers)
    || ActivitiesFiled(m, m.activities, l)
    || (!IsStreaming(m) && PresenceFiled(m, l))
    || PlatformsFiled(m, l)
  }

  /** Whether one member entry is filed under label `l`. */
  predicate Filed(m: Member, detailed: bool, l: Label)
  {
    SplitFiled(UniqueUsers, Bots, Humans, m, l) || (detailed && DetailedFiled(m, l))
  }

  // ---------------------------------------------------------------------------------------
  // The same classification as sets of labels, which compose step by step

  function SplitLabels(all: Label, bots: Label, humans: Label, m: Member): set<Label>
  {
    {all} + (if m.bot then {bots} else {humans})
  }

  function ActivityLabels(m: Member, a: ActivityType): set<Label>
  {
    match a
    case Streaming => SplitLabels(UsersStreaming, BotsStreaming, HumansStreaming, m)
    case Playing => SplitLabels(UsersGaming, BotsGaming, HumansGaming, m)
    case Listening => SplitLabels(UsersListening, BotsListening, HumansListening, m)
    case Watching => SplitLabels(UsersWatching, BotsWatching, HumansWatching, m)
    case Custom => SplitLabels(UsersCustomStatus, BotsCustomStatus, HumansCustomStatus, m)
    case _ => {}
  }

  function ActivitiesLabels(m: Member, acts: seq<ActivityType>): set<Label>
  {
    if acts == [] then {}
    else ActivitiesLabels(m, acts[..|acts| - 1]) + ActivityLabels(m, acts[|acts| - 1])
  }

  function PresenceLabels(m: Member): set<Label>
  {
    (if m.status != Offline then SplitLabels(UsersConnected, BotsConnected, HumansConnected, m) else {})
    + match m.status
      case Online => SplitLabels(UsersOnline, BotsOnline, HumansOnline, m)
      case Idle => SplitLabels(IdleUsers, IdleBots, IdleHumans, m)
      case DoNotDisturb => SplitLabels(UsersDnd, BotsDnd, HumansDnd, m)
      case Offline => SplitLabels(UsersOffline, BotsOffline, HumanOffline, m)
      case Invisible => {}
  }

  function PlatformLabel(st: Status, online: Label, idle: Label, dnd: Label, offline: Label): set<Label>
  {
    match st
    case Online => {online}
    case Idle => {idle}
    case DoNotDisturb => {dnd}
    case Offline => {offline}
    case Invisible => {}
  }

  function PlatformsLabels(m: Member): set<Label>
  {
    PlatformLabel(m.mobileStatus, UsersOnlineMobile, UsersIdleMobile, UsersDndMobile, UsersOfflineMobile)
    + PlatformLabel(m.desktopStatus, UsersOnlineDesktop, UsersIdleDesktop, UsersDndDesktop, UsersOfflineDesktop)
    + PlatformLabel(m.webStatus, UsersOnlineBrowser, UsersIdleBrowser, UsersDndBrowser, UsersOfflineBrowser)
  }

  function DetailedLabels(m: Member): set<Label>
  {
    (if OnMobile(m) then {MobileUsers} else {})
    + ActivitiesLabels(m, m.activities)
    + (if IsStreaming(m) then {} else PresenceLabels(m))
    + PlatformsLabels(m)
  }

  function MemberLabels(m: Member, detailed: bool): set<Label>
  {
    SplitLabels(UniqueUsers, Bots, Humans, m) + (if detailed then DetailedLabels(m) else {})
  }

  lemma SplitLink(all: Label, bots: Label, humans: Label, m: Member)
    ensures forall l :: l in SplitLabels(all, bots, humans, m) <==> SplitFiled(all, bots, humans, m, l)
  {
  }

  lemma ActivityLink(m: Member, a: ActivityType)
    ensures forall l :: l in ActivityLabels(m, a) <==> ActivityFiled(m, a, l)
  {
    match a
    case Streaming => SplitLink(UsersStreaming, BotsStreaming, HumansStreaming, m);
    case Playing => SplitLink(UsersGaming, BotsGaming, HumansGaming, m);
    case Listening => SplitLink(UsersListening, BotsListening, HumansListening, m);
    case Watching => SplitLink(UsersWatching, BotsWatching, HumansWatching, m);
    case Custom => SplitLink(UsersCustomStatus, BotsCustomStatus, HumansCustomStatus, m);
    case _ =>
  }

  lemma {:induction false} ActivitiesLink(m: Member, acts: seq<ActivityType>)
    ensures forall l :: l in ActivitiesLabels(m, acts) <==> ActivitiesFiled(m, acts, l)
  {
    if acts != [] {
      var init := acts[..|acts| - 1];
      var a := acts[|acts| - 1];
      ActivitiesLink(m, init);
      ActivityLink(m, a);
      assert acts == init + [a];
      assert forall b :: b in acts <==> b in init || b == a;
    }
  }

  lemma PresenceLink(m: Member)
    ensures forall l :: l in PresenceLabels(m) <==> PresenceFiled(m, l)
  {
    SplitLink(UsersConnected, BotsConnected, HumansConnected, m);
    match m.status
    case Online => SplitLink(UsersOnline, BotsOnline, HumansOnline, m);
    case Idle => SplitLink(IdleUsers, IdleBots, IdleHumans, m);
    case DoNotDisturb => SplitLink(UsersDnd, BotsDnd, HumansDnd, m);
    case Offline => SplitLink(UsersOffline, BotsOffline, HumanOffline, m);
    case Invisible =>
  }

  lemma PlatformLink(st: Status, online: Label, idle: Label, dnd: Label, offline: Label)
    ensures forall l :: l in PlatformLabel(st, online, idle, dnd, offline) <==> PlatformFiled(st, online, idle, dnd, offline, l)
  {
  }

  lemma DetailedLink(m: Member)
    ensures forall l :: l in DetailedLabels(m) <==> DetailedFiled(m, l)
  {
    ActivitiesLink(m, m.activities);
    PresenceLink(m);
    PlatformLink(m.mobileStatus, UsersOnlineMobile, UsersIdleMobile, UsersDndMobile, UsersOfflineMobile);
    PlatformLink(m.desktopStatus, UsersOnlineDesktop, UsersIdleDesktop, UsersDndDesktop, UsersOfflineDesktop);
    PlatformLink(m.webStatus, UsersOnlineBrowser, UsersIdleBrowser, UsersDndBrowser, UsersOfflineBrowser);
  }

  lemma MemberLink(m: Member, detailed: bool)
    ensures forall l :: l in MemberLabels(m, detailed) <==> Filed(m, detailed, l)
  {
    SplitLink(UniqueUsers, Bots, Humans, m);
    DetailedLink(m);
  }

  // ---------------------------------------------------------------------------------------
  // Each step of the classification adds the member under exactly its labels

  /** `r` is `s` with `x` added under every label of `ls` and nothing else changed. */
  ghost predicate AddsTo(s: IdSets<Label>, r: IdSets<Label>, ls: set<Label>, x: int)
  {
    && r.Keys == s.Keys + ls
    && forall l :: Ids(r, l) == Ids(s, l) + (if l in ls then {x} else {})
  }

  lemma AddsNone(s: IdSets<Label>, x: int)
    ensures AddsTo(s, s, {}, x)
  {
  }

  lemma AddsOne(s: IdSets<Label>, k: Label, x: int)
    ensures AddsTo(s, AddId(s, k, x), {k}, x)
  {
  }

  lemma AddsThen(s: IdSets<Label>, s1: IdSets<Label>, s2: IdSets<Label>, a: set<Label>, b: set<Label>, x: int)
    requires AddsTo(s, s1, a, x) && AddsTo(s1, s2, b, x)
    ensures AddsTo(s, s2, a + b, x)
  {
    forall l ensures Ids(s2, l) == Ids(s, l) + (if l in a + b then {x} else {}) {
      assert Ids(s2, l) == Ids(s1, l) + (if l in b then {x} else {});
    }
  }

  lemma AddSplitAdds(s: IdSets<Label>, all: Label, bots: Label, humans: Label, m: Member)
    ensures AddsTo(s, AddSplit(s, all, bots, humans, m), SplitLabels(all, bots, humans, m), m.id)
  {
    var s1 := AddId(s, all, m.id);
    AddsOne(s, all, m.id);
    if m.bot {
      AddsOne(s1, bots, m.id);
      AddsThen(s, s1, AddId(s1, bots, m.id), {all}, {bots}, m.id);
    } else {
      AddsOne(s1, humans, m.id);
      AddsThen(s, s1, AddId(s1, humans, m.id), {all}, {humans}, m.id);
    }
  }

  lemma ActivityStepAdds(s: IdSets<Label>, m: Member, a: ActivityType)
    ensures AddsTo(s, ActivityStep(s, m, a), ActivityLabels(m, a), m.id)
  {
    match a
    case Streaming => AddSplitAdds(s, UsersStreaming, BotsStreaming, HumansStreaming, m);
    case Playing => AddSplitAdds(s, UsersGaming, BotsGaming, HumansGaming, m);
    case Listening => AddSplitAdds(s, UsersListening, BotsListening, HumansListening, m);
    case Watching => AddSplitAdds(s, UsersWatching, BotsWatching, HumansWatching, m);
    case Custom => AddSplitAdds(s, UsersCustomStatus, BotsCustomStatus, HumansCustomStatus, m);
    case _ => AddsNone(s, m.id);
  }

  lemma {:induction false} ActivitiesAdds(s: IdSets<Label>, m: Member, acts: seq<ActivityType>)
    ensures AddsTo(s, ActivitiesTally(s, m, acts), ActivitiesLabels(m, acts), m.id)
  {
    if acts == [] {
      AddsNone(s, m.id);
    } else {
      var init := acts[..|acts| - 1];
      var s1 := ActivitiesTally(s, m, init);
      ActivitiesAdds(s, m, init);
      ActivityStepAdds(s1, m, acts[|acts| - 1]);
      AddsThen(s, s1, ActivitiesTally(s, m, acts), ActivitiesLabels(m, init), ActivityLabels(m, acts[|acts| - 1]), m.id);
    }
  }

  lemma PresenceAdds(s: IdSets<Label>, m: Member)
    ensures AddsTo(s, PresenceStep(s, m), PresenceLabels(m), m.id)
  {
    var connected := if m.status != Offline then SplitLabels(UsersConnected, BotsConnected, HumansConnected, m) else {};
    var s1 := if m.status != Offline then AddSplit(s, UsersConnected, BotsConnected, HumansConnected, m) else s;
    if m.status != Offline {
      AddSplitAdds(s, UsersConnected, BotsConnected, HumansConnected, m);
    } else {
      AddsNone(s, m.id);
    }
    match m.status
    case Online =>
      AddSplitAdds(s1, UsersOnline, BotsOnline, HumansOnline, m);
      AddsThen(s, s1, PresenceStep(s, m), connected, SplitLabels(UsersOnline, BotsOnline, HumansOnline, m), m.id);
    case Idle =>
      AddSplitAdds(s1, IdleUsers, IdleBots, IdleHumans, m);
      AddsThen(s, s1, PresenceStep(s, m), connected, SplitLabels(IdleUsers, IdleBots, IdleHumans, m), m.id);
    case DoNotDisturb =>
      AddSplitAdds(s1, UsersDnd, BotsDnd, HumansDnd, m);
      AddsThen(s, s1, PresenceStep(s, m), connected, SplitLabels(UsersDnd, BotsDnd, HumansDnd, m), m.id);
    case Offline =>
      AddSplitAdds(s1, UsersOffline, BotsOffline, HumanOffline, m);
      AddsThen(s, s1, PresenceStep(s, m), connected, SplitLabels(UsersOffline, BotsOffline, HumanOffline, m), m.id);
    case Invisible =>
      AddsNone(s1, m.id);
      AddsThen(s, s1, PresenceStep(s, m), connected, {}, m.id);
  }

  lemma PlatformAdds(s: IdSets<Label>, id: int, st: Status, online: Label, idle: Label, dnd: Label, offline: Label)
    ensures AddsTo(s, PlatformStep(s, id, st, online, idle, dnd, offline), PlatformLabel(st, online, idle, dnd, offline), id)
  {
    match st
    case Online => AddsOne(s, online, id);
    case Idle => AddsOne(s, idle, id);
    case DoNotDisturb => AddsOne(s, dnd, id);
    case Offline => AddsOne(s, offline, id);
    case Invisible => AddsNone(s, id);
  }

  lemma PlatformsAdds(s: IdSets<Label>, m: Member)
    ensures AddsTo(s, PlatformsStep(s, m), PlatformsLabels(m), m.id)
  {
    var s1 := PlatformStep(s, m.id, m.mobileStatus, UsersOnlineMobile, UsersIdleMobile, UsersDndMobile, UsersOfflineMobile);
    var s2 := PlatformStep(s1, m.id, m.desktopStatus, UsersOnlineDesktop, UsersIdleDesktop, UsersDndDesktop, UsersOfflineDesktop);
    var s3 := PlatformStep(s2, m.id, m.webStatus, UsersOnlineBrowser, UsersIdleBrowser, UsersDndBrowser, UsersOfflineBrowser);
    var a := PlatformLabel(m.mobileStatus, UsersOnlineMobile, UsersIdleMobile, UsersDndMobile, UsersOfflineMobile);
    var b := PlatformLabel(m.desktopStatus, UsersOnlineDesktop, UsersIdleDesktop, UsersDndDesktop, UsersOfflineDesktop);
    var c := PlatformLabel(m.webStatus, UsersOnlineBrowser, UsersIdleBrowser, UsersDndBrowser, UsersOfflineBrowser);
    PlatformAdds(s, m.id, m.mobileStatus, UsersOnlineMobile, UsersIdleMobile, UsersDndMobile, UsersOfflineMobile);
    PlatformAdds(s1, m.id, m.desktopStatus, UsersOnlineDesktop, UsersIdleDesktop, UsersDndDesktop, UsersOfflineDesktop);
    PlatformAdds(s2, m.id, m.webStatus, UsersOnlineBrowser, UsersIdleBrowser, UsersDndBrowser, UsersOfflineBrowser);
    AddsThen(s, s1, s2, a, b, m.id);
    AddsThen(s, s2, s3, a + b, c, m.id);
  }

  lemma DetailedAdds(s: IdSets<Label>, m: Member)
    ensures AddsTo(s, DetailedStep(s, m), DetailedLabels(m), m.id)
  {
    var mobile := if OnMobile(m) then {MobileUsers} else {};
    var presence := if IsStreaming(m) then {} else PresenceLabels(m);
    var s1 := if OnMobile(m) then AddId(s, MobileUsers, m.id) else s;
    var s2 := ActivitiesTally(s1, m, m.activities);
    var s3 := if IsStreaming(m) then s2 else PresenceStep(s2, m);
    if OnMobile(m) {
      AddsOne(s, MobileUsers, m.id);
    } else {
      AddsNone(s, m.id);
    }
    ActivitiesAdds(s1, m, m.activities);
    AddsThen(s, s1, s2, mobile, ActivitiesLabels(m, m.activities), m.id);
    if IsStreaming(m) {
      AddsNone(s2, m.id);
    } else {
      PresenceAdds(s2, m);
    }
    AddsThen(s, s2, s3, mobile + ActivitiesLabels(m, m.activities), presence, m.id);
    PlatformsAdds(s3, m);
    AddsThen(s, s3, DetailedStep(s, m), mobile + ActivitiesLabels(m, m.activities) + presence, PlatformsLabels(m), m.id);
  }

  lemma MemberStepAdds(s: IdSets<Label>, m: Member, detailed: bool)
    ensures AddsTo(s, MemberStep(s, m, detailed), MemberLabels(m, detailed), m.id)
  {
    var s1 := AddSplit(s, UniqueUsers, Bots, Humans, m);
    AddSplitAdds(s, UniqueUsers, Bots, Humans, m);
    if detailed {
      DetailedAdds(s1, m);
      AddsThen(s, s1, MemberStep(s, m, detailed), SplitLabels(UniqueUsers, Bots, Humans, m), DetailedLabels(m), m.id);
    } else {
      AddsNone(s1, m.id);
      AddsThen(s, s1, MemberStep(s, m, detailed), SplitLabels(UniqueUsers, Bots, Humans, m), {}, m.id);
    }
  }

  /** One iteration of the member loop adds the member's id under exactly the labels it is
      filed under, creating those labels, and changes nothing else. */
  lemma MemberStepFiles(s: IdSets<Label>, m: Member, detailed: bool)
    ensures forall l :: l in MemberStep(s, m, detailed) <==> l in s || Filed(m, detailed, l)
    ensures forall l :: Ids(MemberStep(s, m, detailed), l) == Ids(s, l) + (if Filed(m, detailed, l) then {m.id} else {})
  {
    MemberStepAdds(s, m, detailed);
    MemberLink(m, detailed);
  }

  // ---------------------------------------------------------------------------------------
  // What the classification promises about one member entry

  /** Every member entry is a unique user and exactly one of bot and human, in every mode. */
  lemma UserSplit(m: Member, detailed: bool)
    ensures Filed(m, detailed, UniqueUsers)
    ensures Filed(m, detailed, Bots) <==> m.bot
    ensures Filed(m, detailed, Humans) <==> !m.bot
  {
  }

  /** The overall presence buckets. */
  const PresenceSet: set<Label> := {
    UsersConnected, BotsConnected, HumansConnected,
    UsersOnline, BotsOnline, HumansOnline,
    IdleUsers, IdleBots, IdleHumans,
    UsersDnd, BotsDnd, HumansDnd,
    UsersOffline, BotsOffline, HumanOffline}

  /** A streaming member is in none of the overall presence buckets. */
  lemma StreamingSkipsPresence(m: Member, detailed: bool, l: Label)
    requires IsStreaming(m) && l in PresenceSet
    ensures !Filed(m, detailed, l)
  {
    if l == UsersConnected || l == UsersOnline || l == IdleUsers || l == UsersDnd || l == UsersOffline {
      StreamingSkipsUserPresence(m, detailed, l);
    } else if l == BotsConnected || l == BotsOnline || l == IdleBots || l == BotsDnd || l == BotsOffline {
      StreamingSkipsBotPresence(m, detailed, l);
    } else {
      StreamingSkipsHumanPresence(m, detailed, l);
    }
  }

  lemma StreamingSkipsUserPresence(m: Member, detailed: bool, l: Label)
    requires IsStreaming(m) && (l == UsersConnected || l == UsersOnline || l == IdleUsers || l == UsersDnd || l == UsersOffline)
    ensures !Filed(m, detailed, l)
  {
  }

  lemma StreamingSkipsBotPresence(m: Member, detailed: bool, l: Label)
    requires IsStreaming(m) && (l == BotsConnected || l == BotsOnline || l == IdleBots || l == BotsDnd || l == BotsOffline)
    ensures !Filed(m, detailed, l)
  {
  }

  lemma StreamingSkipsHumanPresence(m: Member, detailed: bool, l: Label)
    requires IsStreaming(m) && (l == HumansConnected || l == HumansOnline || l == IdleHumans || l == HumansDnd || l == HumanOffline)
    ensures !Filed(m, detailed, l)
  {
  }

  /** The users bucket of each status. */
  function StatusBucket(st: Status): Label
  {
    match st
    case Online => UsersOnline
    case Idle => IdleUsers
    case DoNotDisturb => UsersDnd
    case Offline | Invisible => UsersOffline
  }

  /** A member that is not streaming is in the bucket of its status and in no other one; an
      invisible member is in none of the four. */
  lemma PresenceBuckets(m: Member, st: Status)
    requires !IsStreaming(m) && st != Invisible
    ensures Filed(m, true, StatusBucket(st)) <==> m.status == st
  {
  }

  /** "Connected" means any status except offline, invisible included. */
  lemma ConnectedBucket(m: Member)
    requires !IsStreaming(m)
    ensures Filed(m, true, UsersConnected) <==> m.status != Offline
  {
  }

  /** "Mobile Users", only in detailed mode. */
  lemma MobileBucket(m: Member, detailed: bool)
    ensures Filed(m, detailed, MobileUsers) <==> detailed && OnMobile(m)
  {
  }

  /** A streaming member is counted as streaming, and as a streaming bot or human. */
  lemma StreamingCounted(m: Member)
    requires IsStreaming(m)
    ensures Filed(m, true, UsersStreaming)
    ensures Filed(m, true, BotsStreaming) <==> m.bot
    ensures Filed(m, true, HumansStreaming) <==> !m.bot
  {
  }

  // ---------------------------------------------------------------------------------------
  // The member loop

  /** The ids of the member entries filed under `l`. */
  function FiledIds(ms: seq<Member>, detailed: bool, l: Label): set<int>
  {
    set m | m in ms && Filed(m, detailed, l) :: m.id
  }

  lemma FiledIdsSnoc(ms: seq<Member>, m: Member, detailed: bool, l: Label)
    ensures FiledIds(ms + [m], detailed, l) == FiledIds(ms, detailed, l) + (if Filed(m, detailed, l) then {m.id} else {})
  {
    assert forall x :: x in ms + [m] <==> x in ms || x == m;
  }

  /** After the member loop each label holds the ids of exactly the entries filed under it,
      and a label exists exactly when some entry was filed under it. */
  lemma {:induction false} MembersTallyFiles(s: IdSets<Label>, ms: seq<Member>, detailed: bool)
    ensures forall l :: l in MembersTally(s, ms, detailed) <==> l in s || FiledIds(ms, detailed, l) != {}
    ensures forall l :: Ids(MembersTally(s, ms, detailed), l) == Ids(s, l) + FiledIds(ms, detailed, l)
  {
    if ms != [] {
      var init := ms[..|ms| - 1];
      var m := ms[|ms| - 1];
      var r := MembersTally(s, init, detailed);
      MembersTallyFiles(s, init, detailed);
      MemberStepFiles(r, m, detailed);
      assert ms == init + [m];
      forall l
        ensures FiledIds(ms, detailed, l) == FiledIds(init, detailed, l) + (if Filed(m, detailed, l) then {m.id} else {})
      {
        FiledIdsSnoc(init, m, detailed, l);
      }
    }
  }

  /** "Unique Users", "Bots" and "Humans" collect the ids of all, of the bot and of the human
      entries, in every mode. */
  lemma UsersOfMembers(ms: seq<Member>, detailed: bool)
    ensures FiledIds(ms, detailed, UniqueUsers) == IdsOf(ms)
    ensures FiledIds(ms, detailed, Bots) == BotIdsOf(ms)
    ensures FiledIds(ms, detailed, Humans) == HumanIdsOf(ms)
  {
    forall m | m in ms {
      UserSplit(m, detailed);
    }
  }

  /** Deduplication by id: never more unique users than member entries. */
  lemma {:induction false} UniqueAtMostEntries(ms: seq<Member>)
    ensures |IdsOf(ms)| <= |ms|
  {
    if ms != [] {
      var init := ms[..|ms| - 1];
      UniqueAtMostEntries(init);
      assert ms == init + [ms[|ms| - 1]];
      assert IdsOf(ms) == IdsOf(init) + {ms[|ms| - 1].id};
    }
  }

  /** The host reports the same bot flag for every entry of one user. */
  predicate ConsistentBots(ms: seq<Member>)
  {
    forall a, b :: a in ms && b in ms && a.id == b.id ==> a.bot == b.bot
  }

  /** Bots and humans cover the unique users; with consistent flags they split them, so
      "Bots" + "Humans" = "Unique Users". */
  lemma BotsAndHumans(ms: seq<Member>)
    ensures BotIdsOf(ms) + HumanIdsOf(ms) == IdsOf(ms)
    ensures ConsistentBots(ms) ==> BotIdsOf(ms) !! HumanIdsOf(ms)
    ensures ConsistentBots(ms) ==> |BotIdsOf(ms)| + |HumanIdsOf(ms)| == |IdsOf(ms)|
  {
    if ConsistentBots(ms) {
      assert BotIdsOf(ms) !! HumanIdsOf(ms);
      assert |BotIdsOf(ms) + HumanIdsOf(ms)| == |BotIdsOf(ms)| + |HumanIdsOf(ms)|;
    }
  }

  /** Without consistent flags a user can be counted as both. */
  lemma InconsistentBotsOverlap()
    ensures var ms := [Member(7, true, Online, Offline, Online, Offline, []),
                       Member(7, false, Online, Offline, Online, Offline, [])];
            |BotIdsOf(ms)| + |HumanIdsOf(ms)| == 2 && |IdsOf(ms)| == 1
  {
    var ms := [Member(7, true, Online, Offline, Online, Offline, []),
               Member(7, false, Online, Offline, Online, Offline, [])];
    assert BotIdsOf(ms) == {7};
    assert HumanIdsOf(ms) == {7};
    assert IdsOf(ms) == {7};
  }

  /** Only entries that are not streaming reach an overall presence bucket. */
  lemma StreamersOutOfPresence(ms: seq<Member>, detailed: bool, l: Label)
    requires l in PresenceSet
    ensures FiledIds(ms, detailed, l) <= set m | m in ms && !IsStreaming(m) :: m.id
  {
    forall m | m in ms && IsStreaming(m) {
      StreamingSkipsPresence(m, detailed, l);
    }
  }
}
