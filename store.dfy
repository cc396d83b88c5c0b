/** The published-stats store: `bot.stats`, a namespace of categories, each a namespace of
    labels holding a number, together with the `_stats_ready` flag. */
module Store {
  import opened Counters
  import opened Labels

  /** A published number: every collector stores ints, the adventure percentages are floats. */
  datatype Value = IntVal(i: int) | RealVal(r: real)

  /** The value as a number, whichever kind it is. */
  function Num(v: Value): real
  {
    match v
    case IntVal(i) => i as real
    case RealVal(r) => r
  }

  /** An attribute name inside a category: one of the fixed labels, or a name computed at
      run time (a feature or verification name, a shard number). */
  datatype Key = Fixed(fixed: Label) | Named(name: string)

  /** The attribute name a key stands for. */
  function KeyName(k: Key): string
  {
    match k
    case Fixed(l) => Name(l)
    case Named(n) => n
  }

  type Category = map<Key, Value>
  type Stats = map<string, Category>

  /** The categories `init_bot_stats` creates, in its order. */
  const Categories: seq<string> := ["guilds", "bot", "shards", "audio", "currency",
                                    "guilds_regions", "guild_features", "guild_verification",
                                    "adventure"]

  predicate HasCategories(s: Stats)
  {
    && "guilds" in s && "bot" in s && "shards" in s && "audio" in s && "currency" in s
    && "guilds_regions" in s && "guild_features" in s && "guild_verification" in s
    && "adventure" in s
  }

  /** A counter over fixed labels as published numbers. */
  function Ints(c: Counter<Label>): (r: Category)
    ensures forall l :: Fixed(l) in r <==> l in c
    ensures forall l :: l in c ==> r[Fixed(l)] == IntVal(c[l])
    ensures forall n :: Named(n) !in r
  {
    map l | l in c :: Fixed(l) := IntVal(c[l])
  }

  /** A counter over computed names as published numbers. */
  function NamedInts(c: Counter<string>): (r: Category)
    ensures forall n :: Named(n) in r <==> n in c
    ensures forall n :: n in c ==> r[Named(n)] == IntVal(c[n])
    ensures forall l :: Fixed(l) !in r
  {
    map n | n in c :: Named(n) := IntVal(c[n])
  }

  /** `for key, value in labels.items(): setattr(stats.<cat>, key, value)`: the labels written
      in this pass overwrite, every other label of the category keeps its value. */
  function Publish(s: Stats, cat: string, labels: Category): (r: Stats)
    requires cat in s
    ensures forall c :: c in r <==> c in s
    ensures r[cat].Keys == s[cat].Keys + labels.Keys
    ensures forall k :: k in labels ==> r[cat][k] == labels[k]
    ensures forall k :: k in s[cat] && k !in labels ==> r[cat][k] == s[cat][k]
    ensures forall c :: c in s && c != cat ==> r[c] == s[c]
  {
    s[cat := s[cat] + labels]
  }

  /** The category a publish writes becomes its old labels overwritten by the new ones. */
  lemma PublishCategory(s: Stats, cat: string, labels: Category)
    requires cat in s
    ensures Publish(s, cat, labels)[cat] == s[cat] + labels
  {
  }

  /** Replacing one category keeps the set of categories and every other category. */
  lemma ReplaceFrame(s: Stats, cat: string, x: Category)
    requires cat in s
    ensures forall c :: c in s[cat := x] <==> c in s
    ensures forall c :: c in s && c != cat ==> s[cat := x][c] == s[c]
  {
  }

  /** Publishing into a category that was just replaced merges into the replacement. */
  lemma PublishOver(s: Stats, cat: string, x: Category, labels: Category)
    ensures Publish(s[cat := x], cat, labels) == s[cat := x + labels]
  {
    assert s[cat := x][cat := x + labels] == s[cat := x + labels];
  }

  /** The categories `init_bot_stats` creates from the given list: only the missing ones. */
  function InitFrom(s: Stats, names: seq<string>): Stats
  {
    if names == [] then s
    else
      var s' := InitFrom(s, names[..|names| - 1]);
      var n := names[|names| - 1];
      if n in s' then s' else s'[n := map[]]
  }

  function InitStats(s: Stats): Stats
  {
    InitFrom(s, Categories)
  }

  /** Initialisation adds exactly the missing categories, empty, and leaves every existing
      category as it was. */
  lemma {:induction false} InitFromFacts(s: Stats, names: seq<string>)
    ensures InitFrom(s, names).Keys == s.Keys + set n | n in names
    ensures forall c :: c in s ==> InitFrom(s, names)[c] == s[c]
    ensures forall c :: c in InitFrom(s, names) && c !in s ==> InitFrom(s, names)[c] == map[]
  {
    if names != [] {
      InitFromFacts(s, names[..|names| - 1]);
      assert names == names[..|names| - 1] + [names[|names| - 1]];
    }
  }

  /** `init_bot_stats` establishes every category and keeps everything already published. */
  lemma InitStatsFacts(s: Stats)
    ensures HasCategories(InitStats(s))
    ensures InitStats(s).Keys == s.Keys + set n | n in Categories
    ensures forall c :: c in s ==> InitStats(s)[c] == s[c]
    ensures forall c :: c in InitStats(s) && c !in s ==> InitStats(s)[c] == map[]
  {
    InitFromFacts(s, Categories);
    assert "guilds" == Categories[0] && "bot" == Categories[1] && "shards" == Categories[2];
    assert "audio" == Categories[3] && "currency" == Categories[4];
    assert "guilds_regions" == Categories[5] && "guild_features" == Categories[6];
    assert "guild_verification" == Categories[7] && "adventure" == Categories[8];
  }

  /** Running `init_bot_stats` a second time changes nothing. */
  lemma InitStatsIdempotent(s: Stats)
    ensures InitStats(InitStats(s)) == InitStats(s)
  {
    var t := InitStats(s);
    InitFromFacts(s, Categories);
    InitFromFacts(t, Categories);
    assert InitStats(t).Keys == t.Keys;
  }

  /** The bot object as far as the statistics are concerned. */
  class Bot {
    var stats: Stats
    /** `bot._stats_ready`: set once a cycle completes. */
    var statsReady: bool

    /** A bot before `init_bot_stats`: no category and an unset ready event. */
    constructor ()
      ensures stats == map[] && !statsReady
    {
      stats := map[];
      statsReady := false;
    }

    /** `init_bot_stats`: create each category that is missing. */
    method InitBotStats()
      modifies this
      ensures stats == InitStats(old(stats))
      ensures HasCategories(stats)
      ensures statsReady == old(statsReady)
    {
      var i := 0;
      while i < |Categories|
        invariant 0 <= i <= |Categories|
        invariant stats == InitFrom(old(stats), Categories[..i])
        invariant statsReady == old(statsReady)
      {
        var name := Categories[i];
        if name !in stats {
          stats := stats[name := map[]];
        }
        assert Categories[..i + 1][..i] == Categories[..i];
        i := i + 1;
      }
      assert Categories[..i] == Categories;
      InitStatsFacts(old(stats));
    }

    /** `if not bot._stats_ready.is_set(): bot._stats_ready.set()`; reports whether it set
        the flag. */
    method MarkReady() returns (signalled: bool)
      modifies this
      ensures statsReady
      ensures signalled <==> !old(statsReady)
      ensures stats == old(stats)
    {
      signalled := false;
      if !statsReady {
        statsReady := true;
        signalled := true;
      }
    }

    /** One `setattr(stats.<cat>, key, value)`. */
    method SetLabel(cat: string, k: Key, v: Value)
      requires cat in stats
      modifies this
      ensures stats == old(stats)[cat := old(stats)[cat][k := v]]
      ensures statsReady == old(statsReady)
    {
      stats := stats[cat := stats[cat][k := v]];
    }

    /** The `setattr` loop of a collector over the labels it produced. */
    method SetLabels(cat: string, labels: Category)
      requires cat in stats
      modifies this
      ensures stats == Publish(old(stats), cat, labels)
      ensures statsReady == old(statsReady)
    {
      var todo := labels.Keys;
      assert labels - todo == map[];
      assert old(stats)[cat] + map[] == old(stats)[cat];
      assert old(stats)[cat := old(stats)[cat]] == old(stats);
      while todo != {}
        invariant todo <= labels.Keys
        invariant cat in stats
        invariant stats == old(stats)[cat := old(stats)[cat] + (labels - todo)]
        invariant statsReady == old(statsReady)
        decreases todo
      {
        var k :| k in todo;
        ghost var done := labels - todo;
        assert (old(stats)[cat] + done)[k := labels[k]] == old(stats)[cat] + (labels - (todo - {k}));
        stats := stats[cat := stats[cat][k := labels[k]]];
        todo := todo - {k};
      }
      assert labels - {} == labels;
    }
  }
}
