/** The host's object graph as read by the guild/member collector, as plain values. */
module Host {

  /** A presence value (`discord.Status`). */
  datatype Status = Online | Idle | DoNotDisturb | Offline | Invisible

  /** The kind of one activity of a member (`discord.ActivityType`). */
  datatype ActivityType = Playing | Streaming | Listening | Watching | Custom | Competing | UnknownActivity

  datatype Member = Member(
    id: int,
    bot: bool,
    status: Status,
    mobileStatus: Status,
    desktopStatus: Status,
    webStatus: Status,
    activities: seq<ActivityType>)

  /** The channel kinds the collector tells apart; every other kind is `Other`. */
  datatype Channel =
    | Text(id: int, nsfw: bool, news: bool)
    | Voice(id: int, members: seq<Member>)
    | Category(id: int)
    | Other(id: int)

  datatype Emoji = Emoji(animated: bool)

  /** A guild; `meId` is the id of the bot's own member (`guild.me`). */
  datatype Guild = Guild(
    id: int,
    unavailable: bool,
    memberCount: int,
    roleCount: nat,
    large: bool,
    chunked: bool,
    premiumTier: int,
    channels: seq<Channel>,
    emojis: seq<Emoji>,
    members: seq<Member>,
    features: seq<string>,
    verification: string,
    meId: int)

  /** `member.is_on_mobile()`: the client reports a mobile session. */
  predicate OnMobile(m: Member)
  {
    m.mobileStatus != Offline
  }

  /** `guild.me in channel.members`: members compare by id. */
  predicate HasMember(ms: seq<Member>, id: int)
  {
    exists m :: m in ms && m.id == id
  }

  /** The ids of all member entries, of the bot entries and of the human entries. */
  function IdsOf(ms: seq<Member>): set<int>
  {
    set m | m in ms :: m.id
  }

  function BotIdsOf(ms: seq<Member>): set<int>
  {
    set m | m in ms && m.bot :: m.id
  }

  function HumanIdsOf(ms: seq<Member>): set<int>
  {
    set m | m in ms && !m.bot :: m.id
  }

  /** Every member entry of every available guild, in order. */
  function AvailableMembers(gs: seq<Guild>): seq<Member>
  {
    if gs == [] then []
    else
      var last := gs[|gs| - 1];
      AvailableMembers(gs[..|gs| - 1]) + (if last.unavailable then [] else last.members)
  }

  /** The guilds that are not unavailable, in order. */
  function AvailableOf(gs: seq<Guild>): (r: seq<Guild>)
    ensures forall g :: g in r ==> !g.unavailable
  {
    if gs == [] then []
    else
      var last := gs[|gs| - 1];
      AvailableOf(gs[..|gs| - 1]) + (if last.unavailable then [] else [last])
  }

  /** The ids of the unavailable guilds. */
  function UnavailableIds(gs: seq<Guild>): set<int>
  {
    set g | g in gs && g.unavailable :: g.id
  }
}
