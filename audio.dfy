/** The audio collector `write_audio_data`: the player counts, in detailed mode the
    MartTools play counters, and the normalisation of counters that arrive as text. */
module Audio {
  import opened Options
  import opened Labels
  import opened Store
  import opened Decimal

  /** A counter as `get_value(key, perma=True, raw=True)` returns it: a number, or text
      such as "1,234" whose digits make the number. */
  datatype RawCount = Number(n: int) | Text(s: string)

  /** One entry of the collector's `Counter`, in insertion order. */
  datatype Entry = Entry(counter: AudioLabel, raw: RawCount)

  /** `int(re.sub(r"\D", "", value))` for text, the value itself otherwise; `None` where
      that raises `ValueError` (text without a digit). */
  function Normalise(v: RawCount): (r: Option<int>)
    ensures v.Number? ==> r == Some(v.n)
    ensures v.Text? ==> (r.None? <==> Digits(v.s) == [])
    ensures v.Text? && r.Some? ==> r.value == DecimalValue(Digits(v.s))
  {
    match v
    case Number(n) => Some(n)
    case Text(s) =>
      match ParseCount(s)
      case None => None
      case Some(n) => Some(n)
  }

  // ---------------------------------------------------------------------------------------
  // The counter

  /** The three player counts, always first. */
  function PlayerEntries(active: nat, all: nat): seq<Entry>
  {
    [Entry(ActiveMusicPlayers, Number(active)), Entry(MusicPlayers, Number(all)),
     Entry(InactiveMusicPlayers, Number(all - active))]
  }

  /** The thirteen MartTools counters, in the order the collector reads them. */
  function MartLabelAt(j: nat): AudioLabel
    requires j < 13
  {
    if j == 0 then TracksPlayed
    else if j == 1 then StreamsPlayed
    else if j == 2 then YouTubeStreamsPlayed
    else if j == 3 then MixerStreamsPlayed
    else if j == 4 then TwitchStreamsPlayed
    else if j == 5 then OtherStreamsPlayed
    else if j == 6 then YouTubeVideosPlayed
    else if j == 7 then SoundCloudTracksPlayed
    else if j == 8 then BandcampTracksPlayed
    else if j == 9 then VimeoTracksPlayed
    else if j == 10 then MixerTracksPlayed
    else if j == 11 then TwichTvVideosPlayed
    else OtherTracksPlayed
  }

  predicate IsPlayerLabel(l: AudioLabel)
  {
    l == ActiveMusicPlayers || l == MusicPlayers || l == InactiveMusicPlayers
  }

  /** The MartTools cache key a counter is read from. */
  function MartKey(l: AudioLabel): string
  {
    match l
    case TracksPlayed => "tracks_played"
    case StreamsPlayed => "streams_played"
    case YouTubeStreamsPlayed => "yt_streams_played"
    case MixerStreamsPlayed => "mixer_streams_played"
    case TwitchStreamsPlayed => "ttv_streams_played"
    case OtherStreamsPlayed => "other_streams_played"
    case YouTubeVideosPlayed => "youtube_tracks"
    case SoundCloudTracksPlayed => "soundcloud_tracks"
    case BandcampTracksPlayed => "bandcamp_tracks"
    case VimeoTracksPlayed => "vimeo_tracks"
    case MixerTracksPlayed => "mixer_tracks"
    case TwichTvVideosPlayed => "twitch_tracks"
    case OtherTracksPlayed => "other_tracks"
    case _ => ""
  }

  /** `get_value(key, perma=True, raw=True)`: the permanent cache is a `Counter`, so a key
      it does not hold reads as 0. */
  function CacheValue(cache: map<string, RawCount>, key: string): RawCount
  {
    if key in cache then cache[key] else Number(0)
  }

  /** The first `j` MartTools entries read from the cache, in table order. */
  function MartEntries(cache: map<string, RawCount>, j: nat): seq<Entry>
    requires j <= 13
  {
    seq(j, i requires 0 <= i < j => Entry(MartLabelAt(i), CacheValue(cache, MartKey(MartLabelAt(i)))))
  }

  /** The collector's `Counter` in insertion order. `mart` is the MartTools cache when that
      plugin is loaded. */
  function AudioEntries(active: nat, all: nat, detailed: bool, mart: Option<map<string, RawCount>>): seq<Entry>
  {
    if detailed && mart.Some? then PlayerEntries(active, all) + MartEntries(mart.value, 13)
    else PlayerEntries(active, all)
  }

  // ---------------------------------------------------------------------------------------
  // The setattr loop

  /** The category after the `setattr` loop over `es`: each entry written in turn until the
      first one whose normalisation raises; that one and every later one are not written. */
  function WriteEntries(cat: Category, es: seq<Entry>): Category
    decreases |es|
  {
    if es == [] then cat
    else
      match Normalise(es[0].raw)
      case None => cat
      case Some(n) => WriteEntries(cat[Fixed(Audio(es[0].counter)) := IntVal(n)], es[1..])
  }

  /** The "audio" category after `write_audio_data`: untouched in light mode. */
  function AudioCategory(cat: Category, lightmode: bool, active: nat, all: nat, detailed: bool,
                         mart: Option<map<string, RawCount>>): Category
  {
    if lightmode then cat
    else WriteEntries(cat, AudioEntries(active, all, detailed, mart))
  }

  /** The store after `write_audio_data`. */
  function WriteAudio(st: Stats, lightmode: bool, active: nat, all: nat, detailed: bool,
                      mart: Option<map<string, RawCount>>): (r: Stats)
    requires "audio" in st
    ensures HasCategories(st) ==> HasCategories(r)
  {
    st["audio" := AudioCategory(st["audio"], lightmode, active, all, detailed, mart)]
  }

  /** The thirteen `get_value` calls, in table order. */
  method ReadMartTools(cache: map<string, RawCount>) returns (es: seq<Entry>)
    ensures es == MartEntries(cache, 13)
  {
    es := [];
    for j := 0 to 13
      invariant es == MartEntries(cache, j)
    {
      var l := MartLabelAt(j);
      var value := if MartKey(l) in cache then cache[MartKey(l)] else Number(0);
      es := es + [Entry(l, value)];
      assert es == MartEntries(cache, j + 1) by {
        assert forall i :: 0 <= i < j ==> es[i] == MartEntries(cache, j)[i];
      }
    }
  }

  /** The collector's `Counter`: the player counts, then in detailed mode with MartTools
      loaded its thirteen counters. */
  method BuildCounter(active: nat, all: nat, detailed: bool, mart: Option<map<string, RawCount>>)
    returns (es: seq<Entry>)
    ensures es == AudioEntries(active, all, detailed, mart)
  {
    es := [Entry(ActiveMusicPlayers, Number(active)), Entry(MusicPlayers, Number(all))];
    es := es + [Entry(InactiveMusicPlayers, Number(all - active))];
    assert es == PlayerEntries(active, all);
    if detailed && mart.Some? {
      var read := ReadMartTools(mart.value);
      es := es + read;
    }
  }

  /** The `setattr` loop with the normalisation of text counters. */
  method WriteCounter(bot: Bot, es: seq<Entry>)
    requires "audio" in bot.stats
    modifies bot
    ensures bot.stats == old(bot.stats)["audio" := WriteEntries(old(bot.stats)["audio"], es)]
    ensures bot.statsReady == old(bot.statsReady)
  {
    var i := 0;
    while i < |es|
      invariant 0 <= i <= |es|
      invariant "audio" in bot.stats
      invariant bot.stats == old(bot.stats)["audio" := bot.stats["audio"]]
      invariant WriteEntries(old(bot.stats)["audio"], es) == WriteEntries(bot.stats["audio"], es[i..])
      invariant bot.statsReady == old(bot.statsReady)
    {
      var value: int;
      match es[i].raw {
        case Number(n) =>
          value := n;
        case Text(text) =>
          var parsed := ParseCount(text);
          if parsed.None? {
            return;
          }
          value := parsed.value;
      }
      bot.SetLabel("audio", Fixed(Audio(es[i].counter)), IntVal(value));
      assert es[i..][1..] == es[i + 1..];
      i := i + 1;
    }
  }

  /** `write_audio_data`. */
  method WriteAudioData(bot: Bot, lightmode: bool, active: nat, all: nat, detailed: bool,
                        mart: Option<map<string, RawCount>>)
    requires "audio" in bot.stats
    modifies bot
    ensures bot.stats == WriteAudio(old(bot.stats), lightmode, active, all, detailed, mart)
    ensures bot.statsReady == old(bot.statsReady)
  {
    if lightmode {
      return;
    }
    var counter := BuildCounter(active, all, detailed, mart);
    WriteCounter(bot, counter);
  }

  // ---------------------------------------------------------------------------------------
  // What the collector publishes

  /** Every entry before position `n` normalises without raising. */
  predicate Parses(es: seq<Entry>, n: nat)
    requires n <= |es|
  {
    forall j :: 0 <= j < n ==> Normalise(es[j].raw).Some?
  }

  /** A label that no entry names keeps its value, and stays absent when it was absent. */
  lemma {:induction false} WriteEntriesKeeps(cat: Category, es: seq<Entry>, k: Key)
    requires forall j :: 0 <= j < |es| ==> k != Fixed(Audio(es[j].counter))
    ensures k in WriteEntries(cat, es) <==> k in cat
    ensures k in cat ==> WriteEntries(cat, es)[k] == cat[k]
    decreases |es|
  {
    if es != [] && Normalise(es[0].raw).Some? {
      var cat' := cat[Fixed(Audio(es[0].counter)) := IntVal(Normalise(es[0].raw).value)];
      assert forall j :: 0 <= j < |es[1..]| ==> es[1..][j] == es[j + 1];
      WriteEntriesKeeps(cat', es[1..], k);
    }
  }

  /** The loop goes no further than an entry whose text holds no digit: the category is
      what the entries before it wrote. */
  lemma {:induction false} WriteEntriesStops(cat: Category, es: seq<Entry>, i: nat)
    requires i < |es| && Normalise(es[i].raw).None?
    ensures WriteEntries(cat, es) == WriteEntries(cat, es[..i])
    decreases i
  {
    if i > 0 && Normalise(es[0].raw).Some? {
      var cat' := cat[Fixed(Audio(es[0].counter)) := IntVal(Normalise(es[0].raw).value)];
      assert es[1..][..i - 1] == es[..i][1..];
      WriteEntriesStops(cat', es[1..], i - 1);
    }
  }

  /** An entry that normalises, with every entry before it normalising too, is published as
      its normalised value unless a later entry names the same label. */
  lemma {:induction false} WriteEntriesWrites(cat: Category, es: seq<Entry>, i: nat)
    requires i < |es| && Parses(es, i + 1)
    requires forall j :: i < j < |es| ==> es[j].counter != es[i].counter
    ensures Fixed(Audio(es[i].counter)) in WriteEntries(cat, es)
    ensures WriteEntries(cat, es)[Fixed(Audio(es[i].counter))] == IntVal(Normalise(es[i].raw).value)
    decreases i
  {
    var cat' := cat[Fixed(Audio(es[0].counter)) := IntVal(Normalise(es[0].raw).value)];
    if i == 0 {
      WriteEntriesKeeps(cat', es[1..], Fixed(Audio(es[0].counter)));
    } else {
      WriteEntriesWrites(cat', es[1..], i - 1);
    }
  }

  // ---------------------------------------------------------------------------------------
  // The store after the collector

  /** The player counts come first and no MartTools counter shares their labels. */
  lemma PlayerLabelsUnique(active: nat, all: nat, mart: seq<Entry>, i: nat)
    requires i < 3
    requires forall j :: 0 <= j < |mart| ==> !IsPlayerLabel(mart[j].counter)
    ensures var es := PlayerEntries(active, all) + mart;
      forall j :: i < j < |es| ==> es[j].counter != es[i].counter
  {
    var es := PlayerEntries(active, all) + mart;
    forall j | i < j < |es|
      ensures es[j].counter != es[i].counter
    {
      if j >= 3 {
        assert es[j] == mart[j - 3];
      }
    }
  }

  /** Each player count is written as given, whatever follows it. */
  lemma PlayerWritten(cat: Category, active: nat, all: nat, mart: seq<Entry>, i: nat)
    requires i < 3
    requires forall j :: 0 <= j < |mart| ==> !IsPlayerLabel(mart[j].counter)
    ensures var e := PlayerEntries(active, all)[i];
      var r := WriteEntries(cat, PlayerEntries(active, all) + mart);
      Fixed(Audio(e.counter)) in r && r[Fixed(Audio(e.counter))] == IntVal(e.raw.n)
  {
    var es := PlayerEntries(active, all) + mart;
    assert es[..3] == PlayerEntries(active, all);
    PlayerLabelsUnique(active, all, mart, i);
    WriteEntriesWrites(cat, es, i);
  }

  /** No MartTools counter is a player count. */
  lemma MartNotPlayers(cache: map<string, RawCount>)
    ensures var m := MartEntries(cache, 13);
      forall j :: 0 <= j < |m| ==> !IsPlayerLabel(m[j].counter)
  {
  }

  /** Outside light mode the store holds the active and the total player counts, and the
      inactive count is their difference. */
  lemma PublishedPlayers(st: Stats, active: nat, all: nat, detailed: bool,
                         mart: Option<map<string, RawCount>>)
    requires "audio" in st
    ensures var r := WriteAudio(st, false, active, all, detailed, mart)["audio"];
      Fixed(Audio(ActiveMusicPlayers)) in r && r[Fixed(Audio(ActiveMusicPlayers))] == IntVal(active) &&
      Fixed(Audio(MusicPlayers)) in r && r[Fixed(Audio(MusicPlayers))] == IntVal(all) &&
      Fixed(Audio(InactiveMusicPlayers)) in r && r[Fixed(Audio(InactiveMusicPlayers))] == IntVal(all - active)
  {
    var mart' := [];
    if detailed && mart.Some? {
      MartNotPlayers(mart.value);
      mart' := MartEntries(mart.value, 13);
    }
    assert AudioEntries(active, all, detailed, mart) == PlayerEntries(active, all) + mart';
    PlayerWritten(st["audio"], active, all, mart', 0);
    PlayerWritten(st["audio"], active, all, mart', 1);
    PlayerWritten(st["audio"], active, all, mart', 2);
  }

  /** Outside detailed mode only the three player counts are written: every other label
      of "audio" keeps its value, and a label that was absent stays absent. */
  lemma StandardWritesOnlyPlayers(st: Stats, lightmode: bool, active: nat, all: nat,
                                  mart: Option<map<string, RawCount>>, k: Key)
    requires "audio" in st
    requires !(k.Fixed? && k.fixed.Audio? && IsPlayerLabel(k.fixed.audio))
    ensures var r := WriteAudio(st, lightmode, active, all, false, mart)["audio"];
      (k in r <==> k in st["audio"]) && (k in r ==> r[k] == st["audio"][k])
  {
    if !lightmode {
      WriteEntriesKeeps(st["audio"], PlayerEntries(active, all), k);
    }
  }

  /** The MartTools counters are thirteen distinct labels. */
  lemma MartLabelAtInjective(a: nat, b: nat)
    requires a < 13 && b < 13
    ensures MartLabelAt(a) == MartLabelAt(b) <==> a == b
  {
  }

  /** In detailed mode, a MartTools counter reached by the loop is published as its
      normalised value; a key the cache lacks is published as 0. */
  lemma MartWritten(st: Stats, active: nat, all: nat, cache: map<string, RawCount>, j: nat)
    requires "audio" in st
    requires j < 13
    requires forall i :: 0 <= i <= j ==> Normalise(CacheValue(cache, MartKey(MartLabelAt(i)))).Some?
    ensures var key, v := Fixed(Audio(MartLabelAt(j))), CacheValue(cache, MartKey(MartLabelAt(j)));
      var r := WriteAudio(st, false, active, all, true, Some(cache))["audio"];
      && key in r && r[key] == IntVal(Normalise(v).value)
      && (MartKey(MartLabelAt(j)) !in cache ==> r[key] == IntVal(0))
  {
    var m := MartEntries(cache, 13);
    var es := PlayerEntries(active, all) + m;
    forall i | 0 <= i < 3 + j + 1
      ensures Normalise(es[i].raw).Some?
    {
      if i >= 3 {
        assert es[i] == m[i - 3];
      }
    }
    forall i | 3 + j < i < |es|
      ensures es[i].counter != es[3 + j].counter
    {
      assert es[i] == m[i - 3];
      assert es[3 + j] == m[j];
      MartLabelAtInjective(i - 3, j);
    }
    assert es[3 + j] == m[j];
    WriteEntriesWrites(st["audio"], es, 3 + j);
  }

  /** With MartTools loaded but its permanent cache empty, as right after a fresh install,
      all thirteen counters are published as 0. */
  lemma EmptyCacheWritesZeros(st: Stats, active: nat, all: nat, j: nat)
    requires "audio" in st
    requires j < 13
    ensures var r := WriteAudio(st, false, active, all, true, Some(map[]))["audio"];
      Fixed(Audio(MartLabelAt(j))) in r && r[Fixed(Audio(MartLabelAt(j)))] == IntVal(0)
  {
    MartWritten(st, active, all, map[], j);
  }

  /** A MartTools counter whose text holds no digit stops the loop: it and every counter
      read after it keep the values they had. */
  lemma TextWithoutDigitsStops(st: Stats, active: nat, all: nat, cache: map<string, RawCount>,
                               j: nat, k: nat)
    requires "audio" in st
    requires j <= k < 13
    requires CacheValue(cache, MartKey(MartLabelAt(j))).Text? && Digits(CacheValue(cache, MartKey(MartLabelAt(j))).s) == []
    ensures var key := Fixed(Audio(MartLabelAt(k)));
      var r := WriteAudio(st, false, active, all, true, Some(cache))["audio"];
      (key in r <==> key in st["audio"]) && (key in r ==> r[key] == st["audio"][key])
  {
    var m := MartEntries(cache, 13);
    var es := PlayerEntries(active, all) + m;
    assert es[3 + j] == m[j];
    WriteEntriesStops(st["audio"], es, 3 + j);
    var key := Fixed(Audio(MartLabelAt(k)));
    var before := es[..3 + j];
    forall i | 0 <= i < |before|
      ensures key != Fixed(Audio(before[i].counter))
    {
      if i >= 3 {
        assert before[i] == m[i - 3];
        MartLabelAtInjective(k, i - 3);
      }
    }
    WriteEntriesKeeps(st["audio"], before, key);
  }

  /** Text counters keep only their digits: a separator such as the comma of "1,234" does
      not change the number. */
  lemma NormaliseSkipsSeparators(s: string, t: string, c: char)
    requires !IsDigit(c)
    ensures Normalise(Text(s + [c] + t)) == Normalise(Text(s + t))
  {
    DigitsAppend(s + [c], t);
    DigitsAppend(s, [c]);
    DigitsAppend(s, t);
    assert [c][1..] == [];
    assert Digits(s + [c] + t) == Digits(s + t);
  }

  /** A counter written out in decimal reads back as that number. */
  lemma NormaliseDecimal(n: nat)
    ensures Normalise(Text(NatToString(n))) == Some(n)
  {
    ParseNatToString(n);
  }

  /** The collector writes only "audio", and nothing in light mode. */
  lemma AudioFrame(st: Stats, lightmode: bool, active: nat, all: nat, detailed: bool,
                   mart: Option<map<string, RawCount>>)
    requires "audio" in st
    ensures var r := WriteAudio(st, lightmode, active, all, detailed, mart);
      && (forall c :: c in r <==> c in st)
      && (forall c :: c in st && c != "audio" ==> r[c] == st[c])
      && (lightmode ==> r == st)
  {
    assert lightmode ==> st["audio" := st["audio"]] == st;
  }

  /** Any other category keeps its labels. */
  lemma AudioKeeps(st: Stats, lightmode: bool, active: nat, all: nat, detailed: bool,
                   mart: Option<map<string, RawCount>>, c: string)
    requires "audio" in st && c in st && c != "audio"
    ensures WriteAudio(st, lightmode, active, all, detailed, mart)[c] == st[c]
  {
  }
}
