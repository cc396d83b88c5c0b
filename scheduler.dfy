/** The scheduler: `run_events` runs the five collectors of one cycle, `update_task`
    repeats cycles and sets the ready flag after the first one that completes. */
module Scheduler {
  import opened Options
  import opened Store
  import opened BotData
  import opened Currency
  import opened Shards
  import opened Audio
  import opened Adventure
  import opened PublishFacts

  /** What one cycle's collectors read from the host and the settings cache. */
  datatype Snapshot = Snapshot(
    host: HostView,
    settings: Settings,
    balances: seq<int>,
    latencies: seq<ShardLatency>,
    activePlayers: nat,
    allPlayers: nat,
    mart: Option<map<string, RawCount>>,
    adventureLoaded: bool,
    accounts: seq<Account>)

  /** The store after `run_events` with `t` as the bot-data collector's working counters:
      the five collectors in the order they are listed. */
  function CycleStats(st: Stats, t: Tally, snap: Snapshot): (r: Stats)
    requires HasCategories(st)
    ensures HasCategories(r)
  {
    var s := snap.settings;
    var s1 := PublishBotData(st, t);
    var s2 := WriteCurrency(s1, snap.balances);
    var s3 := WriteShardsStats(s2, snap.latencies);
    var s4 := WriteAudio(s3, s.lightmode, snap.activePlayers, snap.allPlayers, s.detailed, snap.mart);
    WriteAdventure(s4, snap.adventureLoaded, s.lightmode, snap.accounts)
  }

  /** The store after `run_events`. */
  function RunEventsStats(st: Stats, snap: Snapshot): (r: Stats)
    requires HasCategories(st)
    ensures HasCategories(r)
  {
    CycleStats(st, BotDataTally(snap.host, snap.settings), snap)
  }

  /** `run_events`. A collector that raises has written what it wrote before raising, and
      the other collectors run regardless. */
  method RunEvents(bot: Bot, snap: Snapshot)
    requires HasCategories(bot.stats)
    modifies bot
    ensures bot.stats == RunEventsStats(old(bot.stats), snap)
    ensures HasCategories(bot.stats)
    ensures bot.statsReady == old(bot.statsReady)
  {
    var s := snap.settings;
    WriteBotData(bot, snap.host, s);
    WriteCurrencyData(bot, snap.balances);
    WriteShardsData(bot, snap.latencies);
    WriteAudioData(bot, s.lightmode, snap.activePlayers, snap.allPlayers, s.detailed, snap.mart);
    WriteAdventureData(bot, snap.adventureLoaded, s.lightmode, snap.accounts);
  }

  // ---------------------------------------------------------------------------------------
  // The collectors write disjoint categories, so each category after a cycle is what its
  // own collector makes of that category before the cycle, whatever order they run in.

  /** The bot-data collector's four categories. */
  lemma CycleBotCategories(st: Stats, t: Tally, snap: Snapshot)
    requires HasCategories(st)
    ensures var r := CycleStats(st, t, snap);
      && r["bot"] == st["bot"] + Ints(BotLabels(t))
      && r["guilds"] == st["guilds"] + Ints(GuildLabels(t))
      && r["guild_features"] == st["guild_features"] + NamedInts(t.featuresCount)
      && r["guild_verification"] == st["guild_verification"] + NamedInts(t.verifyCount)
  {
    var s := snap.settings;
    var s1 := PublishBotData(st, t);
    PublishBotDataCategories(st, t);
    var s2 := WriteCurrency(s1, snap.balances);
    CurrencyKeeps(s1, snap.balances, "bot");
    CurrencyKeeps(s1, snap.balances, "guilds");
    CurrencyKeeps(s1, snap.balances, "guild_features");
    CurrencyKeeps(s1, snap.balances, "guild_verification");
    var s3 := WriteShardsStats(s2, snap.latencies);
    ShardsKeeps(s2, snap.latencies, "bot");
    ShardsKeeps(s2, snap.latencies, "guilds");
    ShardsKeeps(s2, snap.latencies, "guild_features");
    ShardsKeeps(s2, snap.latencies, "guild_verification");
    var s4 := WriteAudio(s3, s.lightmode, snap.activePlayers, snap.allPlayers, s.detailed, snap.mart);
    AudioKeeps(s3, s.lightmode, snap.activePlayers, snap.allPlayers, s.detailed, snap.mart, "bot");
    AudioKeeps(s3, s.lightmode, snap.activePlayers, snap.allPlayers, s.detailed, snap.mart, "guilds");
    AudioKeeps(s3, s.lightmode, snap.activePlayers, snap.allPlayers, s.detailed, snap.mart, "guild_features");
    AudioKeeps(s3, s.lightmode, snap.activePlayers, snap.allPlayers, s.detailed, snap.mart, "guild_verification");
    AdventureKeeps(s4, snap.adventureLoaded, s.lightmode, snap.accounts, "bot");
    AdventureKeeps(s4, snap.adventureLoaded, s.lightmode, snap.accounts, "guilds");
    AdventureKeeps(s4, snap.adventureLoaded, s.lightmode, snap.accounts, "guild_features");
    AdventureKeeps(s4, snap.adventureLoaded, s.lightmode, snap.accounts, "guild_verification");
  }

  /** The currency collector's category. */
  lemma CycleCurrency(st: Stats, t: Tally, snap: Snapshot)
    requires HasCategories(st)
    ensures CycleStats(st, t, snap)["currency"] == st["currency"] + CurrencyLabels(BalanceSum(snap.balances))
  {
    var s := snap.settings;
    var s1 := PublishBotData(st, t);
    PublishBotDataKeeps(st, t, "currency");
    var s2 := WriteCurrency(s1, snap.balances);
    var s3 := WriteShardsStats(s2, snap.latencies);
    ShardsKeeps(s2, snap.latencies, "currency");
    var s4 := WriteAudio(s3, s.lightmode, snap.activePlayers, snap.allPlayers, s.detailed, snap.mart);
    AudioKeeps(s3, s.lightmode, snap.activePlayers, snap.allPlayers, s.detailed, snap.mart, "currency");
    AdventureKeeps(s4, snap.adventureLoaded, s.lightmode, snap.accounts, "currency");
  }

  /** The shard collector's category. */
  lemma CycleShards(st: Stats, t: Tally, snap: Snapshot)
    requires HasCategories(st)
    ensures CycleStats(st, t, snap)["shards"] == WriteShards(st["shards"], snap.latencies)
  {
    var s := snap.settings;
    var s1 := PublishBotData(st, t);
    PublishBotDataKeeps(st, t, "shards");
    var s2 := WriteCurrency(s1, snap.balances);
    CurrencyKeeps(s1, snap.balances, "shards");
    var s3 := WriteShardsStats(s2, snap.latencies);
    var s4 := WriteAudio(s3, s.lightmode, snap.activePlayers, snap.allPlayers, s.detailed, snap.mart);
    AudioKeeps(s3, s.lightmode, snap.activePlayers, snap.allPlayers, s.detailed, snap.mart, "shards");
    AdventureKeeps(s4, snap.adventureLoaded, s.lightmode, snap.accounts, "shards");
  }

  /** The audio collector's category. */
  lemma CycleAudio(st: Stats, t: Tally, snap: Snapshot)
    requires HasCategories(st)
    ensures var s := snap.settings;
      CycleStats(st, t, snap)["audio"] ==
      AudioCategory(st["audio"], s.lightmode, snap.activePlayers, snap.allPlayers, s.detailed, snap.mart)
  {
    var s := snap.settings;
    var s1 := PublishBotData(st, t);
    PublishBotDataKeeps(st, t, "audio");
    var s2 := WriteCurrency(s1, snap.balances);
    CurrencyKeeps(s1, snap.balances, "audio");
    var s3 := WriteShardsStats(s2, snap.latencies);
    ShardsKeeps(s2, snap.latencies, "audio");
    var s4 := WriteAudio(s3, s.lightmode, snap.activePlayers, snap.allPlayers, s.detailed, snap.mart);
    AdventureKeeps(s4, snap.adventureLoaded, s.lightmode, snap.accounts, "audio");
  }

  /** The adventure collector's category. */
  lemma CycleAdventure(st: Stats, t: Tally, snap: Snapshot)
    requires HasCategories(st)
    ensures CycleStats(st, t, snap)["adventure"] ==
      if !snap.adventureLoaded || snap.settings.lightmode then st["adventure"]
      else AdventureCategory(st["adventure"], AdventureCount(snap.accounts))
  {
    var s := snap.settings;
    var s1 := PublishBotData(st, t);
    PublishBotDataKeeps(st, t, "adventure");
    var s2 := WriteCurrency(s1, snap.balances);
    CurrencyKeeps(s1, snap.balances, "adventure");
    var s3 := WriteShardsStats(s2, snap.latencies);
    ShardsKeeps(s2, snap.latencies, "adventure");
    AudioKeeps(s3, s.lightmode, snap.activePlayers, snap.allPlayers, s.detailed, snap.mart, "adventure");
    var s4 := WriteAudio(s3, s.lightmode, snap.activePlayers, snap.allPlayers, s.detailed, snap.mart);
    AdventureCategoryAfter(s4, snap.adventureLoaded, s.lightmode, snap.accounts);
  }

  /** The region histogram, which no collector writes, keeps its labels. */
  lemma CycleKeepsRegions(st: Stats, t: Tally, snap: Snapshot)
    requires HasCategories(st)
    ensures CycleStats(st, t, snap)["guilds_regions"] == st["guilds_regions"]
  {
    var s := snap.settings;
    var s1 := PublishBotData(st, t);
    PublishBotDataKeeps(st, t, "guilds_regions");
    var s2 := WriteCurrency(s1, snap.balances);
    CurrencyKeeps(s1, snap.balances, "guilds_regions");
    var s3 := WriteShardsStats(s2, snap.latencies);
    ShardsKeeps(s2, snap.latencies, "guilds_regions");
    var s4 := WriteAudio(s3, s.lightmode, snap.activePlayers, snap.allPlayers, s.detailed, snap.mart);
    AudioKeeps(s3, s.lightmode, snap.activePlayers, snap.allPlayers, s.detailed, snap.mart, "guilds_regions");
    AdventureKeeps(s4, snap.adventureLoaded, s.lightmode, snap.accounts, "guilds_regions");
  }

  // ---------------------------------------------------------------------------------------
  // update_task

  /** How a cycle's `run_events` ended: it returned, or it raised. */
  datatype Outcome = Completed | Raised

  /** The pause that follows a cycle, in seconds. */
  function Pause(o: Outcome): (p: nat)
    ensures o == Raised <==> p == 10
    ensures o == Completed <==> p == 60
  {
    match o
    case Raised => 10
    case Completed => 60
  }

  /** The ready flag after one cycle: set if the cycle completed and it was not yet set. */
  function ReadyStep(ready: bool, o: Outcome): bool
  {
    if o == Completed && !ready then true else ready
  }

  /** The ready flag after a run of cycles. */
  function ReadyAfter(ready: bool, os: seq<Outcome>): bool
    decreases |os|
  {
    if os == [] then ready else ReadyAfter(ReadyStep(ready, os[0]), os[1..])
  }

  /** How many times a run of cycles calls `_stats_ready.set()`. */
  function Signals(ready: bool, os: seq<Outcome>): nat
    decreases |os|
  {
    if os == [] then 0
    else (if os[0] == Completed && !ready then 1 else 0) + Signals(ReadyStep(ready, os[0]), os[1..])
  }

  /** One cycle of `update_task`: `run_events`, then either the 10-second pause after a
      raise or, after setting the flag if needed, the 60-second pause. A raise is modelled
      as happening before any collector writes. */
  method Cycle(bot: Bot, snap: Snapshot, o: Outcome) returns (pause: nat, signalled: bool)
    requires HasCategories(bot.stats)
    modifies bot
    ensures bot.stats == (if o == Completed then RunEventsStats(old(bot.stats), snap) else old(bot.stats))
    ensures bot.statsReady == ReadyStep(old(bot.statsReady), o)
    ensures signalled <==> o == Completed && !old(bot.statsReady)
    ensures pause == Pause(o)
  {
    if o == Raised {
      signalled := false;
      pause := 10;
    } else {
      RunEvents(bot, snap);
      signalled := bot.MarkReady();
      pause := 60;
    }
  }

  /** The store after a run of cycles. */
  function StatsAfter(st: Stats, snaps: seq<Snapshot>, os: seq<Outcome>): (r: Stats)
    requires HasCategories(st) && |snaps| == |os|
    ensures HasCategories(r)
    decreases |os|
  {
    if os == [] then st
    else
      var st' := if os[0] == Completed then RunEventsStats(st, snaps[0]) else st;
      StatsAfter(st', snaps[1..], os[1..])
  }

  /** `update_task` over a finite run of cycles, from the point the host is ready; the
      loop itself never ends. Returns the pauses and the number of `set()` calls. */
  method UpdateTask(bot: Bot, snaps: seq<Snapshot>, os: seq<Outcome>)
    returns (pauses: seq<nat>, signals: nat)
    requires HasCategories(bot.stats) && |snaps| == |os|
    modifies bot
    ensures bot.stats == StatsAfter(old(bot.stats), snaps, os)
    ensures bot.statsReady == ReadyAfter(old(bot.statsReady), os)
    ensures signals == Signals(old(bot.statsReady), os)
    ensures |pauses| == |os|
    ensures forall i :: 0 <= i < |os| ==> pauses[i] == Pause(os[i])
  {
    pauses := [];
    signals := 0;
    var i := 0;
    while i < |os|
      invariant 0 <= i <= |os|
      invariant HasCategories(bot.stats)
      invariant StatsAfter(old(bot.stats), snaps, os) == StatsAfter(bot.stats, snaps[i..], os[i..])
      invariant ReadyAfter(old(bot.statsReady), os) == ReadyAfter(bot.statsReady, os[i..])
      invariant Signals(old(bot.statsReady), os) == signals + Signals(bot.statsReady, os[i..])
      invariant |pauses| == i
      invariant forall j :: 0 <= j < i ==> pauses[j] == Pause(os[j])
    {
      var pause, signalled := Cycle(bot, snaps[i], os[i]);
      assert os[i..][1..] == os[i + 1..] && snaps[i..][1..] == snaps[i + 1..];
      pauses := pauses + [pause];
      signals := signals + (if signalled then 1 else 0);
      i := i + 1;
    }
  }

  // ---------------------------------------------------------------------------------------
  // The ready flag

  /** The flag is set after a run exactly when it was set before or some cycle completed. */
  lemma {:induction false} ReadyIffSomeCompleted(ready: bool, os: seq<Outcome>)
    ensures ReadyAfter(ready, os) <==> ready || Completed in os
    decreases |os|
  {
    if os != [] {
      ReadyIffSomeCompleted(ReadyStep(ready, os[0]), os[1..]);
      assert os == [os[0]] + os[1..];
    }
  }

  /** Once set, the flag is never cleared. */
  lemma {:induction false} ReadyIsSticky(os: seq<Outcome>)
    ensures ReadyAfter(true, os)
    decreases |os|
  {
    if os != [] {
      ReadyIsSticky(os[1..]);
    }
  }

  /** The flag is still unset at every cycle before the first completed one. */
  lemma ReadyNotBeforeFirstCompletion(os: seq<Outcome>, i: nat)
    requires i <= |os|
    requires forall j :: 0 <= j < i ==> os[j] == Raised
    ensures !ReadyAfter(false, os[..i])
  {
    ReadyIffSomeCompleted(false, os[..i]);
  }

  /** Starting unset, `set()` is called once if some cycle completes and never otherwise. */
  lemma {:induction false} SignalledAtMostOnce(ready: bool, os: seq<Outcome>)
    ensures Signals(ready, os) == (if !ready && Completed in os then 1 else 0)
    decreases |os|
  {
    if os != [] {
      SignalledAtMostOnce(ReadyStep(ready, os[0]), os[1..]);
      assert os == [os[0]] + os[1..];
    }
  }
}
