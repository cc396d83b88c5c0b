# Statistics collectors of the timeseries plugin

This project models the statistics collectors of the `timeseries` plugin for a Red Discord bot. Each
collector builds working counters from a snapshot of the bot (guilds, channels, emojis, members, music
players, shard latencies, bank balances, adventure records). It then publishes the counters as named
attributes of one category of the bot's statistics store. The categories are "bot", "guilds",
"guild_features", "guild_verification", "shards", "audio", "currency", "adventure" and
"guilds_regions".

- `Store.Bot` is the store: a class whose `stats` field maps each category to its attributes, and
  whose `statsReady` field is the ready event. `init_bot_stats` is `Store.Bot.InitBotStats`.
  Publishing (`setattr` in a loop) is `Store.Bot.SetLabel` and `Store.Bot.SetLabels`.
- Each collector is one step that changes that state: `BotData.WriteBotData`,
  `Currency.WriteCurrencyData`, `Shards.WriteShardsData`, `Audio.WriteAudioData` and
  `Adventure.WriteAdventureData`. Each is proved against a function of the old store
  (`PublishBotData`, `WriteCurrency`, `WriteShardsStats`, `WriteAudio`, `WriteAdventure`).
  Each such function is in turn described by lemmas: which attributes it writes, with which
  values, and that it leaves everything else alone.
- The collectors' counting loops are methods with loop invariants (`TallyMembers`, `TallyChannels`,
  `TallyAdventure`, `SumBalances`, and so on). Each one is proved equal to a prefix-recursive
  specification function. The modules `MemberFacts`, `GuildFacts`, `CountFacts`, `HistogramFacts` and
  `PublishFacts` then prove what those functions count, in terms of the snapshot.
- `run_events` is `Scheduler.RunEvents`. One iteration of `update_task`'s loop is `Scheduler.Cycle`.
  A finite run of that loop over given outcomes is `Scheduler.UpdateTask`.

Three behaviours of the code worth knowing:

- A pass overwrites only the attributes it produces. An attribute published by an earlier pass
  and not produced by this one keeps its old value. The category is not replaced as a whole
  (`timeseries/stats_task.py:309-319`).
- The activity loop `AsyncIter(member.activities, steps=5)` visits every activity of a member.
  `steps` only sets how often the loop yields to the event loop; it does not limit the count.
- "Total" counts every guild, the unavailable ones included: it is set before the guild loop
  (`timeseries/stats_task.py:132`).

Modelling choices:

- The ten `adventure_count[...] +=` lines (`timeseries/stats_task.py:375-384`) are modelled as a
  loop over an indexed table of (label, key) pairs, in source order. So are the thirteen
  `get_value` lines (`timeseries/stats_task.py:420-458`).
- Building `user_data` copies "rebirths" and "set_items" and the whole adventures dictionary into
  one flat dictionary. The model lets the record's own "rebirths"/"set_items" win over
  same-named keys inside the adventures dictionary, which the backfilled records never contain.
- Bank accounts and adventure users are given as the sequence of the mapping's values in
  iteration order. `Currency.BalanceSumPermutation` shows the published total does not depend
  on that order.
- A latency that `int(latency * 1000)` cannot convert (an infinite float) is a `None`
  `ShardLatency.ms`. The shard loop stops there, with the earlier shards already written
  (the function has no `try`).
- A MartTools counter is either a Python int or a humanised string. The string is cleaned by
  `re.sub(r"\D", "", value)` and then `int(...)`. A string with no digits raises `ValueError` in
  the middle of the write loop, so the earlier labels are written and the later ones are not.
  MartTools' permanent cache is a `Counter` (`martools/marttools.py:53`) that holds only the
  counters already incremented, and `get_value` indexes it (`martools/marttools.py:135`), so a
  key it has never counted reads as 0 and is published as 0.
- `asyncio.gather(..., return_exceptions=True)` keeps a collector's exception from reaching
  `update_task`. An exception that does reach `update_task` is modelled as an outcome `Raised`
  that happens before any collector writes. That iteration pauses 10 seconds; a completed
  iteration sets the ready event and pauses 60 seconds.

## Model

| member | source | states |
|---|---|---|
| Store.Ints | timeseries/stats_task.py:309-312 | a counter over fixed labels becomes exactly the attributes named by its labels, each holding that label's count, and no computed name |
| Store.PublishCategory | timeseries/stats_task.py:309-319 | the category written to is its old attributes overwritten by the new labels |
| Store.ReplaceFrame | timeseries/stats_task.py:386-401 | replacing one category keeps the set of categories and every other category unchanged |
| Store.NamedInts | timeseries/stats_task.py:316-319 | a counter over computed names (feature and verification names) becomes exactly the attributes of those names with their counts |
| Store.Publish | timeseries/stats_task.py:309-319 | setattr of every label into a category: the category set is unchanged, the category gains the labels' keys, written labels hold the new values, labels not written and all other categories keep their old values |
| Store.PublishOver | timeseries/stats_task.py:386-390 | publishing into a category just replaced with `x` is the same as replacing it with `x` merged with the labels |
| Store.InitFromFacts | timeseries/stats_task.py:550-552 | creating the listed categories adds exactly the missing names, each as an empty namespace, and keeps every existing category unchanged |
| Store.InitFrom | timeseries/stats_task.py:550-552 | defines the loop that adds each listed category missing from the store as an empty namespace |
| Store.InitStats | timeseries/stats_task.py:536-552 | defines initialisation over the nine category names of `bot_stats` |
| Store.InitStatsFacts | timeseries/stats_task.py:536-552 | after init every one of the nine categories exists, the key set is the old one plus the nine, existing categories are unchanged and new ones are empty |
| Store.InitStatsIdempotent | timeseries/stats_task.py:536-558 | running init a second time changes nothing |
| Store.Bot.constructor | timeseries/stats_task.py:548-549 | a bot without statistics has an empty store and the ready event unset |
| Store.Bot.InitBotStats | timeseries/stats_task.py:536-558 | the store becomes the initialisation of the old store, holds every category, and the ready flag is unchanged |
| Store.Bot.MarkReady | timeseries/stats_task.py:527-528 | the ready event is set afterwards, it is signalled exactly when it was not set before, and the store is unchanged |
| Store.Bot.SetLabel | timeseries/stats_task.py:310 | one setattr: exactly that attribute of that category changes, to the given value |
| Store.Bot.SetLabels | timeseries/stats_task.py:309-312 | the setattr loop leaves the store equal to `Publish` of the old store, ready flag unchanged |
| Counters.Flatten | timeseries/stats_task.py:304-307 | flattening id sets gives a counter with the same labels, each counting the size of its set |
| Counters.Bump | timeseries/stats_task.py:142 | defines `counter[k] += n` on a `Counter`, a missing key counting as 0 |
| Counters.AddId | timeseries/stats_task.py:139 | defines `temp_data[k].add(id)` on a `defaultdict(set)`, a missing key holding the empty set |
| Counters.MapSumRemove | timeseries/stats_task.py:146-147 | the sum of a counter is any one label's count plus the sum of the rest |
| Counters.MapSumBump | timeseries/stats_task.py:146-147 | `c[k] += n` raises the sum of the counter by exactly `n` |
| Host.AvailableOf | timeseries/stats_task.py:136-140 | the guilds the loop body reaches past `continue` are all available |
| Lookup.UnknownIffNotInTable | timeseries/stats_task.py:146-147 | a feature or verification name is filed as "Unknown" exactly when the table lacks it, and under the table's name otherwise |
| Lookup.LabelIn | timeseries/stats_task.py:146-147 | defines `table.get(key) or 'Unknown'` |
| Lookup.FeatureLabel | timeseries/stats_task.py:78-96 | defines the feature display name through the `features` table |
| Lookup.VerifyLabel | timeseries/stats_task.py:71-77 | defines the verification level display name through the `verify` table |
| Decimal.Digits | timeseries/stats_task.py:462 | the digits kept by `re.sub(r"\D", "", s)` are all digits, no more than `s` has, all taken from `s` |
| Decimal.DecimalValue | timeseries/stats_task.py:462 | defines the value `int` reads from a string of decimal digits |
| Decimal.DigitChar | timeseries/stats_task.py:470 | the character written for a digit value is a digit of that value |
| Decimal.NatToString | timeseries/stats_task.py:470 | the decimal spelling of a number is non-empty, all digits, with no leading zero |
| Decimal.ParseCount | timeseries/stats_task.py:462 | `int(re.sub(r"\D", "", s))` fails exactly when `s` has no digit |
| Decimal.DecimalRoundTrip | timeseries/stats_task.py:470 | reading a number's decimal spelling gives the number back |
| Decimal.DigitsOfDigits | timeseries/stats_task.py:462 | cleaning a string made of digits leaves it unchanged |
| Decimal.ParseNatToString | timeseries/stats_task.py:462 | cleaning and parsing the decimal spelling of `n` gives `n` |
| Decimal.ParseCountOfDigits | timeseries/stats_task.py:462 | cleaning twice parses like cleaning once |
| Decimal.DigitsAppend | timeseries/stats_task.py:462 | the cleaning distributes over concatenation |
| Decimal.NatToStringInjective | timeseries/stats_task.py:470 | distinct numbers have distinct decimal spellings |
| BotData.CountBots | timeseries/stats_task.py:180-182 | the number of bots among a channel's members is at most the number of members |
| Labels.Name | timeseries/stats_task.py:128-463 | defines the attribute name of every label, spelled as the collector spells it |
| BotData.ModeOf | timeseries/stats_task.py:108-114 | defines the effective mode: lightmode forces detailed and top.gg off |
| BotData.InitialTally | timeseries/stats_task.py:116-135 | defines the counters before the guild loop: votes, total guilds, latency, shards and the optional counts |
| BotData.AddSplit | timeseries/stats_task.py:199-203 | defines filing a member id under a users label and under the bots or humans label |
| BotData.ActivityStep | timeseries/stats_task.py:213-244 | defines the sets one activity of a member is filed in |
| BotData.ActivitiesTally | timeseries/stats_task.py:210-244 | defines the loop over a member's activities |
| BotData.IsStreaming | timeseries/stats_task.py:209-219 | defines the `streaming` flag: some activity is of streaming type |
| BotData.PresenceStep | timeseries/stats_task.py:245-275 | defines the presence buckets, skipped for a streaming member |
| BotData.PlatformStep | timeseries/stats_task.py:277-284 | defines the bucket of one per-platform status |
| BotData.PlatformsStep | timeseries/stats_task.py:277-302 | defines the mobile, desktop and browser buckets |
| BotData.DetailedStep | timeseries/stats_task.py:206-302 | defines the detailed classification of one member |
| BotData.MemberStep | timeseries/stats_task.py:197-302 | defines the processing of one member: unique users, bots or humans, then the detailed steps |
| BotData.MembersTally | timeseries/stats_task.py:197-302 | defines the loop over a guild's members |
| BotData.MobileVoiceIds | timeseries/stats_task.py:183-185 | defines filing the voice members on mobile |
| BotData.ChannelStep | timeseries/stats_task.py:164-187 | defines the counters and sets one channel changes, by channel kind |
| BotData.ChannelsTally | timeseries/stats_task.py:164-187 | defines the loop over a guild's channels |
| BotData.EmojisTally | timeseries/stats_task.py:189-195 | defines the emoji counters |
| BotData.FeaturesTally | timeseries/stats_task.py:145-146 | defines the feature histogram of one guild |
| BotData.PremiumTally | timeseries/stats_task.py:154-162 | defines the boost tier sets |
| BotData.GuildSets | timeseries/stats_task.py:150-162 | defines the large, unchunked and boost sets of one guild |
| BotData.GuildDetails | timeseries/stats_task.py:143-195 | defines what a guild adds outside lightmode |
| BotData.GuildStep | timeseries/stats_task.py:136-203 | defines the loop body for one guild, an unavailable guild only being filed as unavailable |
| BotData.GuildsTally | timeseries/stats_task.py:136-302 | defines the loop over all guilds |
| BotData.BotDataTally | timeseries/stats_task.py:116-302 | defines the whole tally written by one call |
| BotData.BotLabels | timeseries/stats_task.py:304-305 | defines the bot counter with the id sets flattened into it |
| BotData.GuildLabels | timeseries/stats_task.py:306-307 | defines the guild counter with its id sets flattened into it |
| BotData.PublishBotData | timeseries/stats_task.py:309-319 | publishing a pass keeps all nine categories present |
| BotData.TallyActivities | timeseries/stats_task.py:209-244 | the activity loop files the member as the specification of the activity list does, and reports streaming exactly when some activity is streaming |
| BotData.TallyDetails | timeseries/stats_task.py:206-302 | the detailed branch files the member exactly as its specification does |
| BotData.TallyMember | timeseries/stats_task.py:197-302 | one member is filed under the user split and, in detailed mode, the detailed labels |
| BotData.TallyMembers | timeseries/stats_task.py:197-302 | the member loop equals the prefix-recursive tally of the member list |
| BotData.CountVoiceBots | timeseries/stats_task.py:180-182 | the loop counts exactly the bots among the channel's members |
| BotData.TallyMobileVoice | timeseries/stats_task.py:183-185 | the mobile loop adds exactly the voice members on mobile to "Users in a VC on Mobile" |
| BotData.TallyVoice | timeseries/stats_task.py:175-185 | a voice channel updates the counters as the channel step of its specification does |
| BotData.TallyChannel | timeseries/stats_task.py:164-187 | one channel is classified as the channel step specifies |
| BotData.TallyChannels | timeseries/stats_task.py:164-187 | the channel loop equals the prefix-recursive tally of the channel list |
| BotData.TallyEmojis | timeseries/stats_task.py:189-195 | the emoji loop equals the prefix-recursive emoji tally |
| BotData.TallyFeatures | timeseries/stats_task.py:145-146 | the feature loop equals the prefix-recursive histogram of the feature list |
| BotData.TallyGuild | timeseries/stats_task.py:136-302 | one guild is tallied as the guild step specifies for the mode |
| BotData.TallyGuildDetails | timeseries/stats_task.py:143-195 | the non-light part of a guild is tallied as its specification says |
| BotData.StartTally | timeseries/stats_task.py:116-135 | the counters before the guild loop: votes when top.gg is on and the value is non-zero, latency unless rounding overflowed, shard count, Total |
| BotData.CollectBotData | timeseries/stats_task.py:107-302 | the whole collection loop equals the guild tally started from the initial counters |
| BotData.FlattenInto | timeseries/stats_task.py:304-307 | the flatten loop merges the set sizes into the counter |
| BotData.WriteBotData | timeseries/stats_task.py:107-319 | the store afterwards is `PublishBotData` of the old store and this pass's counters, keeping all categories and the ready flag |
| MemberFacts.SplitLink | timeseries/stats_task.py:199-203 | the labels the user split adds are exactly those its filing predicate names |
| MemberFacts.ActivityLink | timeseries/stats_task.py:213-244 | the labels one activity adds are exactly those its filing predicate names |
| MemberFacts.ActivitiesLink | timeseries/stats_task.py:210-244 | the labels an activity list adds are exactly those filed by some activity in it |
| MemberFacts.PresenceLink | timeseries/stats_task.py:245-275 | the presence labels added are exactly those the presence predicate names |
| MemberFacts.PlatformLink | timeseries/stats_task.py:277-284 | one platform status files exactly its one bucket, and none for another status |
| MemberFacts.DetailedLink | timeseries/stats_task.py:206-302 | the detailed labels added are exactly those the detailed predicate names |
| MemberFacts.MemberLink | timeseries/stats_task.py:197-302 | the labels a member adds are exactly those `Filed` names |
| MemberFacts.AddsNone | timeseries/stats_task.py:206 | adding nothing changes no set |
| MemberFacts.AddsOne | timeseries/stats_task.py:199 | `s[k].add(x)` adds `x` under `k` only |
| MemberFacts.AddsThen | timeseries/stats_task.py:199-203 | two additions of the same id compose into one over the union of labels |
| MemberFacts.AddSplitAdds | timeseries/stats_task.py:199-203 | the user split adds the member's id under exactly its split labels |
| MemberFacts.ActivityStepAdds | timeseries/stats_task.py:213-244 | an activity adds the member's id under exactly the activity's labels |
| MemberFacts.ActivitiesAdds | timeseries/stats_task.py:210-244 | the activity loop adds the member's id under exactly the union of its activities' labels |
| MemberFacts.PresenceAdds | timeseries/stats_task.py:245-275 | the presence block adds the id under exactly its presence labels |
| MemberFacts.PlatformAdds | timeseries/stats_task.py:277-284 | one platform block adds the id under exactly its bucket |
| MemberFacts.PlatformsAdds | timeseries/stats_task.py:277-302 | the three platform blocks add the id under exactly their buckets |
| MemberFacts.DetailedAdds | timeseries/stats_task.py:206-302 | the detailed branch adds the id under exactly its detailed labels |
| MemberFacts.MemberStepAdds | timeseries/stats_task.py:197-302 | one member adds its id under exactly its member labels |
| MemberFacts.MemberStepFiles | timeseries/stats_task.py:197-302 | after one member a label is present exactly when it was or the member is filed under it, and its set gains the member's id exactly then |
| MemberFacts.UserSplit | timeseries/stats_task.py:199-203 | every member is a Unique User, a Bot exactly when its bot flag is set, a Human exactly when it is not |
| MemberFacts.StreamingSkipsPresence | timeseries/stats_task.py:245 | a streaming member is filed under no presence label |
| MemberFacts.StreamingSkipsUserPresence | timeseries/stats_task.py:245-271 | a streaming member is in none of the user presence buckets |
| MemberFacts.StreamingSkipsBotPresence | timeseries/stats_task.py:245-273 | a streaming member is in none of the bot presence buckets |
| MemberFacts.StreamingSkipsHumanPresence | timeseries/stats_task.py:245-275 | a streaming member is in none of the human presence buckets |
| MemberFacts.PresenceBuckets | timeseries/stats_task.py:252-275 | a non-streaming member is in a status bucket exactly when its status is that status |
| MemberFacts.ConnectedBucket | timeseries/stats_task.py:246-247 | a non-streaming member is Connected exactly when it is not offline |
| MemberFacts.MobileBucket | timeseries/stats_task.py:206-208 | a member is a Mobile User exactly in detailed mode and when on mobile |
| MemberFacts.StreamingCounted | timeseries/stats_task.py:213-219 | a streaming member is filed as streaming, as a bot or human by its flag |
| MemberFacts.FiledIdsSnoc | timeseries/stats_task.py:197 | the ids filed under a label over a longer member list gain the new member exactly when it is filed |
| MemberFacts.MembersTallyFiles | timeseries/stats_task.py:197-302 | after the member loop every label's set is the old set plus the ids of the members filed under it |
| MemberFacts.UsersOfMembers | timeseries/stats_task.py:199-203 | the Unique Users/Bots/Humans sets are the ids of all, the bot and the human entries |
| MemberFacts.UniqueAtMostEntries | timeseries/stats_task.py:199 | there are no more unique users than member entries |
| MemberFacts.BotsAndHumans | timeseries/stats_task.py:199-203 | Bots and Humans together make Unique Users, and with consistent bot flags they are disjoint and their sizes add up |
| MemberFacts.InconsistentBotsOverlap | timeseries/stats_task.py:199-203 | one id seen once as a bot and once as a human counts as one unique user but under both Bots and Humans |
| MemberFacts.StreamersOutOfPresence | timeseries/stats_task.py:245 | every id under a presence label belongs to a non-streaming member entry |
| GuildFacts.MobileVoiceFrame | timeseries/stats_task.py:183-185 | the mobile loop touches no label but "Users in a VC on Mobile" |
| GuildFacts.ChannelStepKeeps | timeseries/stats_task.py:164-187 | a channel leaves the histograms and the guild id sets alone |
| GuildFacts.ChannelStepTemp | timeseries/stats_task.py:164-187 | a channel changes only the channel id labels of the member sets |
| GuildFacts.ChannelsKeep | timeseries/stats_task.py:164-187 | the channel loop leaves the histograms and guild id sets alone |
| GuildFacts.ChannelsTemp | timeseries/stats_task.py:164-187 | the channel loop changes only the channel id labels |
| GuildFacts.GuildSetLink | timeseries/stats_task.py:138-162 | the guild labels a guild adds are exactly those its flag predicate names |
| GuildFacts.PremiumAdds | timeseries/stats_task.py:154-162 | the premium block adds the guild id under exactly its tier labels |
| GuildFacts.GuildSetsAdds | timeseries/stats_task.py:150-162 | large, unchunked and premium add the id under exactly the guild's flag labels |
| GuildFacts.GuildDetailsSets | timeseries/stats_task.py:143-195 | the non-light branch's guild sets are exactly `GuildSets` |
| GuildFacts.GuildStepSets | timeseries/stats_task.py:136-162 | one guild adds its id under exactly the labels it is flagged for |
| GuildFacts.GuildStepSetKey | timeseries/stats_task.py:136-162 | a guild label is present after one guild exactly when it was or the guild is flagged |
| GuildFacts.GuildsTallySets | timeseries/stats_task.py:136-162 | after the guild loop each guild set is the old set plus the ids of the guilds flagged for it |
| GuildFacts.GuildIdsSnoc | timeseries/stats_task.py:136 | the flagged guild ids over a longer list gain the new guild exactly when it is flagged |
| GuildFacts.UnavailableSet | timeseries/stats_task.py:138-140 | the Unavailable set is the ids of the unavailable guilds |
| GuildFacts.TierSet | timeseries/stats_task.py:157-162 | Tier k Nitro holds exactly the available guilds of that tier, outside light mode |
| GuildFacts.BoostedSet | timeseries/stats_task.py:155-162 | Nitro Boosted holds exactly the available non-zero tier guilds, and each tier set is inside it |
| GuildFacts.LightModeSets | timeseries/stats_task.py:143 | in light mode no guild set but Unavailable gains an id |
| GuildFacts.FiledIdsAppend | timeseries/stats_task.py:197 | filed ids over concatenated member lists are the union |
| GuildFacts.GuildStepUsers | timeseries/stats_task.py:197-302 | one guild adds to the member labels exactly the filed ids of its members |
| GuildFacts.GuildDetailsTemp | timeseries/stats_task.py:143-195 | the non-light branch changes only the channel labels of the member sets |
| GuildFacts.GuildsTallyUsers | timeseries/stats_task.py:136-302 | after the guild loop the member labels hold exactly the filed ids of the members of the available guilds |
| GuildFacts.AddIdStrip | timeseries/stats_task.py:139 | adding an id under another label commutes with dropping Unavailable |
| GuildFacts.GuildSetsStrip | timeseries/stats_task.py:150-162 | the guild sets commute with dropping Unavailable |
| GuildFacts.GuildDetailsFrame | timeseries/stats_task.py:143-195 | the non-light branch acts on the guild sets only through `GuildSets` |
| GuildFacts.GuildStepStrip | timeseries/stats_task.py:138-140 | apart from Unavailable, an unavailable guild changes nothing, and an available guild acts the same either way |
| GuildFacts.AvailableOfAvailable | timeseries/stats_task.py:138 | filtering a list of available guilds keeps them all |
| GuildFacts.GuildsTallySnoc | timeseries/stats_task.py:136 | the guild tally of a longer list is one more guild step |
| GuildFacts.GuildsTallyStrip | timeseries/stats_task.py:136-302 | apart from Unavailable, the guild tally equals the tally of the available guilds only |
| GuildFacts.UnavailableContributesNothing | timeseries/stats_task.py:138-140 | unavailable guilds contribute nothing but their Unavailable id |
| CountFacts.AnimatedCount | timeseries/stats_task.py:192-193 | there are no more animated emojis than emojis |
| CountFacts.EmojisCounted | timeseries/stats_task.py:189-195 | the emoji loop adds the emoji count, the animated count and the rest as static |
| CountFacts.EmojisFrame | timeseries/stats_task.py:189-195 | the emoji loop touches no other counter |
| CountFacts.KindCount | timeseries/stats_task.py:167-187 | the channels of one kind are no more than all channels |
| CountFacts.KindsBounded | timeseries/stats_task.py:165-187 | text, voice and category channels together are at most the server channels |
| CountFacts.ChannelStepCounted | timeseries/stats_task.py:165-187 | a channel adds one Server Channel and one to its own kind's counter |
| CountFacts.ChannelsCounted | timeseries/stats_task.py:164-187 | the channel loop adds the channel count and, per kind, the channels of that kind |
| CountFacts.ChannelStepVoice | timeseries/stats_task.py:177-179 | a voice channel adds its member count to Users in a VC, and that minus one to Users in a VC with me when the bot is in it |
| CountFacts.VoiceCounted | timeseries/stats_task.py:175-182 | the channel loop adds the voice occupancy and the occupancy with the bot |
| CountFacts.ChannelStepServerFrame | timeseries/stats_task.py:164-187 | a channel changes no server counter but the channel counters |
| CountFacts.ChannelStepCounterFrame | timeseries/stats_task.py:164-187 | a channel changes no bot counter but the two voice ones |
| CountFacts.ChannelsFrame | timeseries/stats_task.py:164-187 | the channel loop changes no other counters |
| CountFacts.GuildDetailsCounters | timeseries/stats_task.py:143-195 | the non-light branch adds the role count to Roles and touches no other non-channel counter |
| CountFacts.GuildStepCounter | timeseries/stats_task.py:136-195 | one guild adds its increment (members, roles outside light mode) to each non-channel counter |
| CountFacts.ChannelStepKeysGrow | timeseries/stats_task.py:164-187 | a channel removes no server counter |
| CountFacts.ChannelsKeysGrow | timeseries/stats_task.py:164-187 | the channel loop removes no server counter |
| CountFacts.EmojisKeysGrow | timeseries/stats_task.py:189-195 | the emoji loop removes no counter |
| CountFacts.GuildDetailsKeysGrow | timeseries/stats_task.py:143-195 | the non-light branch removes no server counter |
| CountFacts.GuildStepKeysGrow | timeseries/stats_task.py:136-195 | a guild removes no server counter, and an available one creates Members |
| CountFacts.GuildsTallyCounter | timeseries/stats_task.py:136-195 | across the guild loop each non-channel counter grows by the sum of the guilds' increments |
| CountFacts.GuildsTallyKeysGrow | timeseries/stats_task.py:136-195 | the guild loop removes no server counter |
| CountFacts.GuildsTallyMembersKey | timeseries/stats_task.py:142 | Members exists once some guild is available, even with member count 0 |
| CountFacts.TotalIncrement | timeseries/stats_task.py:132 | no guild changes Total |
| CountFacts.MembersIncrement | timeseries/stats_task.py:142 | the guilds add to Members the member counts of the available guilds |
| CountFacts.RolesIncrement | timeseries/stats_task.py:143-149 | the guilds add the role counts of the available guilds to Roles, and nothing in light mode |
| HistogramFacts.Occurrences | timeseries/stats_task.py:146 | names falling under one table entry are at most the names looked up |
| HistogramFacts.Unrecognised | timeseries/stats_task.py:146 | unrecognised names are at most the names looked up |
| HistogramFacts.UnknownCountsUnrecognised | timeseries/stats_task.py:146-147 | the names filed under "Unknown" are exactly those missing from the table |
| HistogramFacts.FeaturesCounted | timeseries/stats_task.py:145-146 | the feature loop adds to each name its number of occurrences and creates it exactly when it occurs |
| HistogramFacts.FeaturesSum | timeseries/stats_task.py:145-146 | the feature loop adds exactly one per feature to the histogram's total |
| HistogramFacts.FeaturesAppend | timeseries/stats_task.py:145-146 | the histogram of concatenated lists is the histogram of the second continued from the first |
| HistogramFacts.AvailableLevels | timeseries/stats_task.py:147 | one verification level per available guild |
| HistogramFacts.GuildStepHistograms | timeseries/stats_task.py:144-147 | a guild adds its features and its level only in detailed mode and when available |
| HistogramFacts.GuildsTallyFeatures | timeseries/stats_task.py:144-146 | the feature histogram after the loop is that of the available guilds' features, in detailed mode only |
| HistogramFacts.LevelsCounted | timeseries/stats_task.py:147 | the level loop adds each level name's occurrences |
| HistogramFacts.LevelsSum | timeseries/stats_task.py:147 | the level loop adds one per level |
| HistogramFacts.GuildsTallyLevels | timeseries/stats_task.py:144-147 | the verification histogram after the loop is that of the available guilds' levels, in detailed mode only |
| HistogramFacts.PassStart | timeseries/stats_task.py:120-121 | both histograms start empty |
| HistogramFacts.FeatureHistogramSum | timeseries/stats_task.py:144-146 | in detailed mode the feature counts add up to the number of features of available guilds, otherwise the histogram is empty |
| HistogramFacts.FeatureHistogramUnknown | timeseries/stats_task.py:146 | "Unknown" counts exactly the unrecognised features |
| HistogramFacts.VerificationHistogramSum | timeseries/stats_task.py:147 | verification counts add up to the number of available guilds in detailed mode, 0 otherwise |
| HistogramFacts.VerificationHistogramUnknown | timeseries/stats_task.py:147 | "Unknown" counts exactly the unrecognised levels |
| HistogramFacts.PassHistograms | timeseries/stats_task.py:107-147 | over a whole pass, the two histogram totals as above |
| HistogramFacts.UnknownFeatureExample | timeseries/stats_task.py:78-96 | a known and an unknown feature give one "VIP Voice Servers" and one "Unknown" |
| PublishFacts.PassStart | timeseries/stats_task.py:116-132 | a pass starts with empty id sets and Total equal to the number of guilds |
| PublishFacts.PublishBotDataFrame | timeseries/stats_task.py:309-319 | publishing a pass keeps the set of categories and every category but its four |
| PublishFacts.PublishBotDataKeeps | timeseries/stats_task.py:309-319 | any one other category is unchanged |
| PublishFacts.PublishBotDataCategories | timeseries/stats_task.py:304-319 | each of the four categories becomes its old attributes overwritten by this pass's labels |
| PublishFacts.PublishedBot | timeseries/stats_task.py:309-310 | every bot label of the pass is published with its value |
| PublishFacts.PublishedGuilds | timeseries/stats_task.py:311-312 | every guild label of the pass is published with its value |
| PublishFacts.TalliedMemberLabels | timeseries/stats_task.py:197-307 | from empty id sets, after the guild loop every member label with filed ids is a "bot" counter equal to the number of distinct filed ids of the available guilds' members |
| PublishFacts.TalliedUsers | timeseries/stats_task.py:199-203 | counters holding every filed label as its distinct-id count hold Unique Users, Bots and Humans as the distinct ids of all, bot and human entries, whenever there is one |
| PublishFacts.PublishedMemberLabel | timeseries/stats_task.py:197-310 | a member label with filed ids is published as the number of distinct filed ids among the available guilds' members |
| PublishFacts.PublishedUniqueUsers | timeseries/stats_task.py:199-305 | Unique Users is the number of distinct member ids |
| PublishFacts.PublishedBots | timeseries/stats_task.py:200-305 | Bots is the number of distinct bot ids |
| PublishFacts.PublishedHumans | timeseries/stats_task.py:202-305 | Humans is the number of distinct human ids |
| PublishFacts.PublishedUserSplit | timeseries/stats_task.py:199-203 | with consistent bot flags, published Bots plus Humans equals Unique Users |
| PublishFacts.PublishedGuildSet | timeseries/stats_task.py:138-312 | a guild set label is published as the number of guilds flagged for it |
| PublishFacts.PublishedUnavailable | timeseries/stats_task.py:138-140 | Unavailable is the number of unavailable guilds |
| PublishFacts.NotASet | timeseries/stats_task.py:132-142 | Total and Members never become id sets, so flattening cannot overwrite them |
| PublishFacts.PassTotal | timeseries/stats_task.py:132 | Total equals the number of guilds, unavailable ones included |
| PublishFacts.PassMembers | timeseries/stats_task.py:142 | with an available guild, Members is the sum of their member counts |
| PublishFacts.PublishedTotal | timeseries/stats_task.py:132-312 | published Total is the number of guilds |
| PublishFacts.PublishedMembers | timeseries/stats_task.py:142-312 | published Members is the sum of the available guilds' member counts |
| Adventure.Backfill | timeseries/stats_task.py:334-352 | a backfilled record has all three fields and keeps each field that was present |
| Adventure.Complete | timeseries/stats_task.py:334-352 | defines an account holding the three items the backfill guarantees |
| Adventure.HasStat | timeseries/stats_task.py:357-368 | defines an adventures mapping holding at least one tracked statistic key |
| Adventure.UserData | timeseries/stats_task.py:353-368 | defines the flattened user record of a backfilled account |
| Adventure.TrackedKey | timeseries/stats_task.py:375-384 | defines the record key each summed label reads |
| Adventure.AddFirst | timeseries/stats_task.py:375-384 | defines the first j increments of one user |
| Adventure.AddUser | timeseries/stats_task.py:375-384 | defines the ten increments of one user, a missing key adding 0 |
| Adventure.AdventureCount | timeseries/stats_task.py:373-384 | defines the counter summed over every account |
| Adventure.RawSum | timeseries/stats_task.py:375-384 | defines the independent reference: the sum of each account's raw statistic |
| Adventure.Percentage | timeseries/stats_task.py:392-398 | defines a share of the total as a real, 0 when the total is 0 |
| Adventure.Derived | timeseries/stats_task.py:392-401 | defines the three labels computed from the published wins and losses |
| Adventure.AdventureCategory | timeseries/stats_task.py:386-401 | defines the adventure category after one call |
| Adventure.TrackedIndex | timeseries/stats_task.py:375-384 | each label's row in the ten-row table is at most 10 (10 meaning untracked) |
| Adventure.TrackedAt | timeseries/stats_task.py:375-384 | row j of the table holds a label whose row is j |
| Adventure.BackfillRecord | timeseries/stats_task.py:334-352 | the backfill loop over the three fields gives `Backfill` |
| Adventure.TrackedAtIndex | timeseries/stats_task.py:375-384 | a tracked label is found at its own row |
| Adventure.AddFirstStep | timeseries/stats_task.py:375-384 | going through one more row adds that row's value to that row's label |
| Adventure.AddUserData | timeseries/stats_task.py:375-384 | the ten `+=` lines for one user equal the table loop |
| Adventure.AdventureCountSnoc | timeseries/stats_task.py:373-384 | one more user on the list is one more round of the ten additions on the count |
| Adventure.TallyAdventure | timeseries/stats_task.py:373-384 | the user loop equals the prefix-recursive count |
| Adventure.UserDataReadsRaw | timeseries/stats_task.py:334-372 | a tracked key of the flattened user data is the raw record's value or its zero default |
| Adventure.AddUserCounts | timeseries/stats_task.py:375-384 | one user adds `u.get(key, 0)` to each tracked label and creates exactly the tracked labels |
| Adventure.AdventureCountSum | timeseries/stats_task.py:373-384 | each tracked counter is the sum of that key over all raw records, a missing field counting 0 |
| Adventure.AdventureCountHas | timeseries/stats_task.py:373-384 | each tracked counter exists exactly when there is at least one user |
| Adventure.AdventureCountSums | timeseries/stats_task.py:373-384 | each tracked counter is the sum of that key over all users, and exists exactly when there is a user |
| Adventure.AdventureCountOnlyTracked | timeseries/stats_task.py:373-384 | untracked labels are never counted |
| Adventure.Published | timeseries/stats_task.py:389-390 | the published labels are exactly the counted ones, with their counts |
| Adventure.WriteAdventure | timeseries/stats_task.py:324-401 | the collector keeps all categories present |
| Adventure.WriteAdventureData | timeseries/stats_task.py:324-401 | the store afterwards is `WriteAdventure` of the old store; the ready flag is unchanged |
| Adventure.SummedResets | timeseries/stats_task.py:386-390 | after reset and publish, Wins/Losses read the counted value, 0 without users |
| Adventure.DerivedKeeps | timeseries/stats_task.py:392-401 | the derived step only writes Adventures and the two percentages |
| Adventure.DerivedAdventures | timeseries/stats_task.py:392-399 | Adventures is Wins plus Losses as stored |
| Adventure.CategoryResets | timeseries/stats_task.py:386-390 | Wins/Losses end as the counted sums, 0 when nobody counted |
| Adventure.CategoryAdventures | timeseries/stats_task.py:392-399 | Adventures is the counted wins plus losses |
| Adventure.CategorySum | timeseries/stats_task.py:389-390 | every counted label ends with its count |
| Adventure.PercentagesAddUp | timeseries/stats_task.py:392-401 | with no adventures both percentages are 0, otherwise they add up to 100 |
| Adventure.CategoryPercentages | timeseries/stats_task.py:392-401 | the same for the published category |
| Adventure.CategoryKeeps | timeseries/stats_task.py:386-401 | an old attribute the pass does not write keeps its value |
| Adventure.PublishedWinsLosses | timeseries/stats_task.py:377-390 | Wins/Losses are the sums of "wins"/"loses" over all records |
| Adventure.CountedWinsLosses | timeseries/stats_task.py:377-378 | the counted wins and losses are those sums |
| Adventure.PublishedAdventures | timeseries/stats_task.py:392-399 | Adventures is total wins plus total losses |
| Adventure.PublishedSum | timeseries/stats_task.py:375-390 | with users, each tracked label is the sum of its key over all records |
| Adventure.PublishedPercentages | timeseries/stats_task.py:392-401 | percentages are 0 with no adventures and add up to 100 otherwise |
| Adventure.NoUsersKeepsSums | timeseries/stats_task.py:373-390 | without users the counter is empty and old sums other than Wins/Losses survive |
| Adventure.AdventureFrame | timeseries/stats_task.py:324-328 | the category set and other categories are kept; without the plugin or in light mode nothing changes |
| Adventure.AdventureKeeps | timeseries/stats_task.py:324-401 | any one other category is unchanged |
| Adventure.AdventureCategoryAfter | timeseries/stats_task.py:324-401 | the "adventure" category afterwards: unchanged when skipped, else the published category |
| Audio.Normalise | timeseries/stats_task.py:460-462 | an int is kept; a string fails exactly when it has no digit and otherwise reads as its digits |
| Audio.PlayerEntries | timeseries/stats_task.py:410-415 | defines the three player counts |
| Audio.MartLabelAt | timeseries/stats_task.py:420-458 | defines the thirteen MartTools labels in the order they are read |
| Audio.MartKey | timeseries/stats_task.py:420-458 | defines the cache key each MartTools label reads |
| Audio.CacheValue | martools/marttools.py:133-135 | defines `get_value` on the permanent cache, a missing key reading as 0 |
| Audio.AudioEntries | timeseries/stats_task.py:410-458 | defines the counter in insertion order: players, then the MartTools values when detailed and the cog is loaded |
| Audio.WriteEntries | timeseries/stats_task.py:460-463 | defines the write loop, which stops at the first string without digits |
| Audio.AudioCategory | timeseries/stats_task.py:406-465 | defines the audio category after one call |
| Audio.MartEntries | timeseries/stats_task.py:419-458 | defines the thirteen MartTools entries in table order, each with its cache value, a missing key reading as 0 |
| Audio.WriteAudio | timeseries/stats_task.py:406-465 | the collector keeps all categories present; what it writes into `audio` (players, MartTools values with a missing key as 0, the stop at a string without digits) is stated by `AudioFrame`, `PublishedPlayers`, `MartWritten` and `TextWithoutDigitsStops` |
| Audio.ReadMartTools | timeseries/stats_task.py:419-458 | the thirteen `get_value` reads equal `MartEntries`, a key the cache lacks giving 0 |
| Audio.BuildCounter | timeseries/stats_task.py:410-458 | the built counter is the three player entries plus, when detailed with MartTools loaded, all thirteen MartTools entries |
| Audio.WriteCounter | timeseries/stats_task.py:460-463 | the write loop stores the normalised values in order and stops at the first string without digits |
| Audio.WriteAudioData | timeseries/stats_task.py:406-465 | the store afterwards is `WriteAudio` of the old store; the ready flag is unchanged |
| Audio.WriteEntriesKeeps | timeseries/stats_task.py:460-463 | a key no entry names keeps its presence and value |
| Audio.WriteEntriesStops | timeseries/stats_task.py:461-464 | a failing entry ends the loop: only the entries before it are written |
| Audio.WriteEntriesWrites | timeseries/stats_task.py:460-463 | an entry whose prefix converts, and not named again later, ends with its normalised value |
| Audio.PlayerLabelsUnique | timeseries/stats_task.py:411-415 | the three player labels are not named again in the counter |
| Audio.PlayerWritten | timeseries/stats_task.py:411-463 | each player label ends with its number |
| Audio.MartNotPlayers | timeseries/stats_task.py:420-458 | MartTools entries never name a player label |
| Audio.PublishedPlayers | timeseries/stats_task.py:411-415 | Active, Music and Inactive Music Players are `active`, `all` and `all - active` |
| Audio.MartWritten | timeseries/stats_task.py:419-463 | in detailed mode a MartTools counter reached by the loop is published as its normalised value, and a key the cache lacks as 0 |
| Audio.EmptyCacheWritesZeros | martools/marttools.py:53 | with an empty permanent cache every MartTools counter is published as 0 |
| Audio.StandardWritesOnlyPlayers | timeseries/stats_task.py:416-419 | without detailed mode only the player labels change |
| Audio.MartLabelAtInjective | timeseries/stats_task.py:420-458 | the thirteen rows name distinct labels |
| Audio.TextWithoutDigitsStops | timeseries/stats_task.py:461-462 | a MartTools string without digits leaves it and every later label unchanged |
| Audio.NormaliseSkipsSeparators | timeseries/stats_task.py:462 | a non-digit character (a thousands separator) does not change the value |
| Audio.NormaliseDecimal | timeseries/stats_task.py:462 | a plain decimal string reads as its number |
| Audio.AudioFrame | timeseries/stats_task.py:406-408 | the category set and other categories are kept; lightmode changes nothing |
| Audio.AudioKeeps | timeseries/stats_task.py:406-465 | any one other category is unchanged |
| Shards.WriteShardsStats | timeseries/stats_task.py:468-470 | the collector keeps all categories present |
| Shards.ShardKey | timeseries/stats_task.py:470 | defines the attribute name `index + 1` in decimal |
| Shards.WriteShards | timeseries/stats_task.py:469-470 | defines the shard loop, which stops at the first latency `int` cannot convert |
| Shards.WriteShardsData | timeseries/stats_task.py:468-470 | the store afterwards is `WriteShardsStats` of the old store; the ready flag is unchanged |
| Shards.ShardsFrame | timeseries/stats_task.py:468-470 | the category set and every other category are kept |
| Shards.ShardKeyNotZero | timeseries/stats_task.py:470 | no shard is published as "0" |
| Shards.ShardKeyParses | timeseries/stats_task.py:470 | a shard's attribute name reads as its index plus one |
| Shards.ShardKeyInjective | timeseries/stats_task.py:470 | distinct shards get distinct names |
| Shards.WriteShardsKeeps | timeseries/stats_task.py:469-470 | a key no shard names keeps its presence and value |
| Shards.WriteShardsAdds | timeseries/stats_task.py:469-470 | every new key is some shard's name |
| Shards.WriteShardsStops | timeseries/stats_task.py:470 | an unconvertible latency ends the loop: only earlier shards are written |
| Shards.WriteShardsWrites | timeseries/stats_task.py:470 | a shard reached by the loop, and not repeated later, ends with its latency in ms |
| Shards.NoShardZero | timeseries/stats_task.py:470 | the loop adds neither "0" nor any fixed label to "shards" |
| Shards.ShardsKeeps | timeseries/stats_task.py:468-470 | any one other category is unchanged |
| Currency.SumBalances | timeseries/stats_task.py:476-478 | the loop's total equals `BalanceSum` |
| Currency.BalanceSum | timeseries/stats_task.py:476-478 | defines the total of all balances |
| Currency.CurrencyLabels | timeseries/stats_task.py:479 | defines the single label the collector writes |
| Currency.WriteCurrency | timeseries/stats_task.py:473-481 | the collector keeps all categories present |
| Currency.WriteCurrencyData | timeseries/stats_task.py:473-481 | the store afterwards is `WriteCurrency` of the old store; the ready flag is unchanged |
| Currency.BalanceSumAppend | timeseries/stats_task.py:477-478 | the total of concatenated balances is the sum of the totals |
| Currency.BalanceSumRemove | timeseries/stats_task.py:477-478 | removing one balance takes exactly its value off the total |
| Currency.BalanceSumPermutation | timeseries/stats_task.py:475-478 | the total does not depend on the order of the accounts |
| Currency.CurrencyFrame | timeseries/stats_task.py:479-481 | only "Currency In Circulation" is added or changed |
| Currency.CurrencyKeeps | timeseries/stats_task.py:473-481 | any one other category is unchanged |
| Currency.PublishedTotal | timeseries/stats_task.py:479-481 | "Currency In Circulation" is the sum of all balances |
| Scheduler.CycleStats | timeseries/stats_task.py:505-515 | the five collectors in turn keep all categories present |
| Scheduler.RunEventsStats | timeseries/stats_task.py:505-515 | the same with this pass's bot counters |
| Scheduler.RunEvents | timeseries/stats_task.py:505-515 | running the five collectors leaves the store as `RunEventsStats`; the ready flag is unchanged |
| Scheduler.CycleBotCategories | timeseries/stats_task.py:505-515 | after a cycle the four guild categories are their old attributes overwritten by the pass's labels |
| Scheduler.CycleCurrency | timeseries/stats_task.py:509 | after a cycle "currency" gains the total balance |
| Scheduler.CycleShards | timeseries/stats_task.py:510 | after a cycle "shards" is the shard loop's result |
| Scheduler.CycleAudio | timeseries/stats_task.py:511 | after a cycle "audio" is the audio collector's category |
| Scheduler.CycleAdventure | timeseries/stats_task.py:512 | after a cycle "adventure" is unchanged when skipped, else the adventure collector's category |
| Scheduler.CycleKeepsRegions | timeseries/stats_task.py:313-314 | no collector changes "guilds_regions" (the region histogram is commented out) |
| Scheduler.Pause | timeseries/stats_task.py:523-529 | a raised cycle pauses 10 seconds, a completed one 60 |
| Scheduler.ReadyStep | timeseries/stats_task.py:523-528 | defines the ready flag after one cycle |
| Scheduler.ReadyAfter | timeseries/stats_task.py:520-529 | defines the ready flag after a sequence of cycles |
| Scheduler.Signals | timeseries/stats_task.py:527-528 | defines how many cycles set the ready event |
| Scheduler.Cycle | timeseries/stats_task.py:521-529 | a completed cycle runs the collectors and sets the ready event, signalling only when it was unset; a raised one changes nothing; pause as above |
| Scheduler.StatsAfter | timeseries/stats_task.py:520-529 | any run of cycles keeps all categories present |
| Scheduler.UpdateTask | timeseries/stats_task.py:518-529 | a run of cycles leaves the store as `StatsAfter`, the ready flag as `ReadyAfter`, counts the signals and pauses after each cycle as `Pause` |
| Scheduler.ReadyIffSomeCompleted | timeseries/stats_task.py:527-528 | the event is set after a run exactly when it was set or some cycle completed |
| Scheduler.ReadyIsSticky | timeseries/stats_task.py:527-528 | once set, the event stays set |
| Scheduler.ReadyNotBeforeFirstCompletion | timeseries/stats_task.py:523-528 | before the first completed cycle the event is not set |
| Scheduler.SignalledAtMostOnce | timeseries/stats_task.py:527-528 | the event is signalled once in a run when it starts unset and some cycle completes, otherwise never |

## Left out

- `get_votes` (the top.gg HTTP request) is not modelled: only its result, a name to number
  mapping, is part of the host snapshot. It is empty when no API key is set, when the reply
  status is not 200, or when the request times out.
- BotData.WriteBotData: always publishes. `get_votes` suppresses only timeouts, so a connection
  error or a reply that is not JSON raises inside `write_bot_data`'s `try`; a NaN `bot.latency`
  raises `ValueError` in `round`, where only `OverflowError` is suppressed. Either way the
  `except` logs it before any `setattr`, and that pass publishes nothing. These abort paths are
  not modelled, because the snapshot has no way to express a failed request or a NaN latency.
- Reading the settings cache, `bot.get_cog`, the bank and Adventure configuration stores, and
  lavalink's player lists are inputs of the snapshot, not operations of the model.
- `bot.wait_until_red_ready()` is left out: the model starts in the loop of `update_task`.
- The infinite `while True` loop is modelled as a finite run over a given sequence of outcomes.
  `asyncio.sleep` becomes the returned pause lengths; the time that passes is not modelled.
- Concurrency is left out: `asyncio.gather` is modelled as running the five collectors one after
  the other, in the order they are listed. They write disjoint categories, so the order only
  matters for the interleaving itself, which is not modelled.
- `AsyncIter`'s yielding to the event loop (`steps`, `delay`) is left out; it does not change
  what is counted.
- `log.exception` and the `try`/`except Exception` wrappers are left out as logging, except where
  an exception stops a write loop (audio, shards): there the writes done before it are modelled.
- Exceptions raised by the host's objects (for example an attribute lookup that fails) are not
  modelled; only the exceptions the collectors' own data can cause are.
- `round(bot.latency * 1000)` is not computed: the snapshot gives the latency in milliseconds, or
  `None` when the conversion overflows. `int(latency * 1000)` for the shards is likewise given.
  Floats and their rounding are not modelled.
- Adventure.PercentagesAddUp: the percentages are exact rationals, not IEEE floats, so "add up to
  100" holds exactly in the model and only up to rounding in the code.
- Audio.Normalise: only ASCII digits are digits. Python's `\D` also keeps other Unicode decimal
  digits, which `int()` accepts.
- The region histogram (`region_count`, `vc_regions`) is commented out in the code; nothing ever
  writes "guilds_regions", so only the fact that it stays unchanged is modelled.
- `_get_dict` and `bot.stats.to_dict` (a view of the store as nested dictionaries) are left out.
- `start_stats_tasks`, `call_sync_as_async`, `bot._stats_task` and the `asyncio.Event` object
  itself are left out; the model keeps only the event's set/unset flag.
- The rest of `martools/marttools.py` (its cache maintenance, commands and `humanize_number`) is
  left out. `get_value(..., raw=True)` is modelled as a lookup in a given cache that reads a
  missing key as 0, as the `Counter` does, and a string value in that cache stands for whatever
  humanised text it holds.
- The Adventure plugin's record format beyond the three fields read here is left out.
