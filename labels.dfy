/** The fixed counter labels the collectors publish, as a closed set of names; `Name` gives
    the attribute name each one is stored under. Labels computed at run time (feature and
    verification names, shard numbers) are not in this set. */
module Labels {

  datatype Label =
    // "bot": counters
    | MonthlyVotes | Votes | DiscordLatency | Shards | UsersInVc | UsersInVcWithMe
    // "bot": channel id sets
    | NsfwTextChannels | NewsTextChannels | UsersInVcOnMobile
    // "bot": member id sets in every mode
    | UniqueUsers | Bots | Humans
    // "bot": member id sets in detailed mode
    | MobileUsers
    | UsersStreaming | BotsStreaming | HumansStreaming
    | UsersGaming | BotsGaming | HumansGaming
    | UsersListening | BotsListening | HumansListening
    | UsersWatching | BotsWatching | HumansWatching
    | UsersCustomStatus | BotsCustomStatus | HumansCustomStatus
    | UsersConnected | BotsConnected | HumansConnected
    | UsersOnline | BotsOnline | HumansOnline
    | IdleUsers | IdleBots | IdleHumans
    | UsersDnd | BotsDnd | HumansDnd
    | UsersOffline | BotsOffline | HumanOffline
    | UsersOnlineMobile | UsersIdleMobile | UsersDndMobile | UsersOfflineMobile
    | UsersOnlineDesktop | UsersIdleDesktop | UsersDndDesktop | UsersOfflineDesktop
    | UsersOnlineBrowser | UsersIdleBrowser | UsersDndBrowser | UsersOfflineBrowser
    // "guilds": counters
    | Total | Members | Roles | ServerChannels | TextChannels | VoiceChannels | BotsInVcWithMe
    | ChannelCategories | Emojis | AnimatedEmojis | StaticEmojis
    // "guilds": guild id sets
    | Unavailable | Large | Unchunked | NitroBoosted | Tier1Nitro | Tier2Nitro | Tier3Nitro
    // "audio", "currency" and "adventure"
    | Audio(audio: AudioLabel) | CurrencyInCirculation | Quest(quest: AdventureLabel)

  /** The labels of the "audio" category. */
  datatype AudioLabel =
    | ActiveMusicPlayers | MusicPlayers | InactiveMusicPlayers
    | TracksPlayed | StreamsPlayed | YouTubeStreamsPlayed | MixerStreamsPlayed
    | TwitchStreamsPlayed | OtherStreamsPlayed | YouTubeVideosPlayed | SoundCloudTracksPlayed
    | BandcampTracksPlayed | VimeoTracksPlayed | MixerTracksPlayed | TwichTvVideosPlayed
    | OtherTracksPlayed

  /** The labels of the "adventure" category. */
  datatype AdventureLabel =
    | SetItems | Rebirths | Wins | Losses | PhysicalAttacks | MagicalAttacks
    | DiplomaticAttacks | Prayers | Retreats | Fumbles
    | Adventures | WinPercentage | LossPercentage

  /** The attribute name a label is published under, spelled as the collectors spell it. */
  function Name(l: Label): string
  {
    match l
    case MonthlyVotes => "Monthly Votes"
    case Votes => "Votes"
    case DiscordLatency => "Discord Latency"
    case Shards => "Shards"
    case UsersInVc => "Users in a VC"
    case UsersInVcWithMe => "Users in a VC with me"
    case NsfwTextChannels => "NSFW Text Channels"
    case NewsTextChannels => "News Text Channels"
    case UsersInVcOnMobile => "Users in a VC on Mobile"
    case UniqueUsers => "Unique Users"
    case Bots => "Bots"
    case Humans => "Humans"
    case MobileUsers => "Mobile Users"
    case UsersStreaming => "Users Streaming"
    case BotsStreaming => "Bots Streaming"
    case HumansStreaming => "Humans Streaming"
    case UsersGaming => "Users Gaming"
    case BotsGaming => "Bots Gaming"
    case HumansGaming => "Humans Gaming"
    case UsersListening => "Users Listening"
    case BotsListening => "Bots Listening"
    case HumansListening => "Humans Listening"
    case UsersWatching => "Users Watching"
    case BotsWatching => "Bots Watching"
    case HumansWatching => "Humans Watching"
    case UsersCustomStatus => "Users with Custom Status"
    case BotsCustomStatus => "Bots with Custom Status"
    case HumansCustomStatus => "Humans with Custom Status"
    case UsersConnected => "Users Connected"
    case BotsConnected => "Bots Connected"
    case HumansConnected => "Humans Connected"
    case UsersOnline => "Users Online"
    case BotsOnline => "Bots Online"
    case HumansOnline => "Humans Online"
    case IdleUsers => "Idle Users"
    case IdleBots => "Idle Bots"
    case IdleHumans => "Idle Humans"
    case UsersDnd => "Users in Do Not Disturb"
    case BotsDnd => "Bots in Do Not Disturb"
    case HumansDnd => "Humans in Do Not Disturb"
    case UsersOffline => "Users Offline"
    case BotsOffline => "Bots Offline"
    case HumanOffline => "Human Offline"
    case UsersOnlineMobile => "Users Online on Mobile"
    case UsersIdleMobile => "Users Idle on Mobile"
    case UsersDndMobile => "Users in Do Not Disturb on Mobile"
    case UsersOfflineMobile => "Users Offline on Mobile"
    case UsersOnlineDesktop => "Users Online on Desktop"
    case UsersIdleDesktop => "Users Idle on Desktop"
    case UsersDndDesktop => "Users in Do Not Disturb on Desktop"
    case UsersOfflineDesktop => "Users Offline on Desktop"
    case UsersOnlineBrowser => "Users Online on Browser"
    case UsersIdleBrowser => "Users Idle on Browser"
    case UsersDndBrowser => "Users in Do Not Disturb on Browser"
    case UsersOfflineBrowser => "Users Offline on Browser"
    case Total => "Total"
    case Members => "Members"
    case Roles => "Roles"
    case ServerChannels => "Server Channels"
    case TextChannels => "Text Channels"
    case VoiceChannels => "Voice Channels"
    case BotsInVcWithMe => "Bots in a VC with me"
    case ChannelCategories => "Channel Categories"
    case Emojis => "Emojis"
    case AnimatedEmojis => "Animated Emojis"
    case StaticEmojis => "Static Emojis"
    case Unavailable => "Unavailable"
    case Large => "Large"
    case Unchunked => "Unchunked"
    case NitroBoosted => "Nitro Boosted"
    case Tier1Nitro => "Tier 1 Nitro"
    case Tier2Nitro => "Tier 2 Nitro"
    case Tier3Nitro => "Tier 3 Nitro"
    case Audio(a) => AudioName(a)
    case CurrencyInCirculation => "Currency In Circulation"
    case Quest(a) => AdventureName(a)
  }

  function AudioName(a: AudioLabel): string
  {
    match a
    case ActiveMusicPlayers => "Active Music Players"
    case MusicPlayers => "Music Players"
    case InactiveMusicPlayers => "Inactive Music Players"
    case TracksPlayed => "Tracks Played"
    case StreamsPlayed => "Streams Played"
    case YouTubeStreamsPlayed => "YouTube Streams Played"
    case MixerStreamsPlayed => "Mixer Streams Played"
    case TwitchStreamsPlayed => "Twitch Streams Played"
    case OtherStreamsPlayed => "Other Streams Played"
    case YouTubeVideosPlayed => "YouTube Videos Played"
    case SoundCloudTracksPlayed => "SoundCloud Tracks Played"
    case BandcampTracksPlayed => "Bandcamp Tracks Played"
    case VimeoTracksPlayed => "Vimeo Tracks Played"
    case MixerTracksPlayed => "Mixer Tracks Played"
    case TwichTvVideosPlayed => "TwichTV Videos Played"
    case OtherTracksPlayed => "Other Tracks Played"
  }

  function AdventureName(a: AdventureLabel): string
  {
    match a
    case SetItems => "Set Items"
    case Rebirths => "Rebirths"
    case Wins => "Wins"
    case Losses => "Losses"
    case PhysicalAttacks => "Physical Attacks"
    case MagicalAttacks => "Magical Attacks"
    case DiplomaticAttacks => "Diplomatic Attacks"
    case Prayers => "Prayers"
    case Retreats => "Retreats"
    case Fumbles => "Fumbles"
    case Adventures => "Adventures"
    case WinPercentage => "Win Percentage"
    case LossPercentage => "Loss Percentage"
  }
}
