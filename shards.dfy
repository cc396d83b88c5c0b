/** The shard-latency collector `write_shards_data`: each shard's latency in whole
    milliseconds under its 1-based shard number. */
module Shards {
  import opened Options
  import opened Store
  import opened Decimal

  /** One `(index, latency)` pair of `bot.latencies`, the latency already in whole
      milliseconds; `None` where `int(latency * 1000)` raises (an infinite latency). */
  datatype ShardLatency = ShardLatency(index: nat, ms: Option<int>)

  /** The attribute a shard's latency is stored under: its index plus one, in decimal. */
  function ShardKey(index: nat): Key
  {
    Named(NatToString(index + 1))
  }

  /** The category after the loop over `ls`: each shard written in turn; a latency that
      cannot be converted raises, and that shard and every later one are not written. */
  function WriteShards(cat: Category, ls: seq<ShardLatency>): Category
    decreases |ls|
  {
    if ls == [] then cat
    else
      match ls[0].ms
      case None => cat
      case Some(ms) => WriteShards(cat[ShardKey(ls[0].index) := IntVal(ms)], ls[1..])
  }

  /** The store after `write_shards_data`, which runs in every mode. */
  function WriteShardsStats(st: Stats, ls: seq<ShardLatency>): (r: Stats)
    requires "shards" in st
    ensures HasCategories(st) ==> HasCategories(r)
  {
    st["shards" := WriteShards(st["shards"], ls)]
  }

  /** `write_shards_data`. */
  method WriteShardsData(bot: Bot, ls: seq<ShardLatency>)
    requires "shards" in bot.stats
    modifies bot
    ensures bot.stats == WriteShardsStats(old(bot.stats), ls)
    ensures bot.statsReady == old(bot.statsReady)
  {
    var i := 0;
    while i < |ls|
      invariant 0 <= i <= |ls|
      invariant "shards" in bot.stats
      invariant bot.stats == old(bot.stats)["shards" := bot.stats["shards"]]
      invariant WriteShards(old(bot.stats)["shards"], ls) == WriteShards(bot.stats["shards"], ls[i..])
      invariant bot.statsReady == old(bot.statsReady)
    {
      var ms := ls[i].ms;
      if ms.None? {
        return;
      }
      bot.SetLabel("shards", ShardKey(ls[i].index), IntVal(ms.value));
      assert ls[i..][1..] == ls[i + 1..];
      i := i + 1;
    }
  }

  /** The collector writes only "shards". */
  lemma ShardsFrame(st: Stats, ls: seq<ShardLatency>)
    requires "shards" in st
    ensures var r := WriteShardsStats(st, ls);
      && (forall c :: c in r <==> c in st)
      && (forall c :: c in st && c != "shards" ==> r[c] == st[c])
  {
  }

  // ---------------------------------------------------------------------------------------
  // Shard numbers

  /** Shard numbers are 1-based: no shard is stored under "0". */
  lemma ShardKeyNotZero(index: nat)
    ensures KeyName(ShardKey(index)) != "0"
  {
    var s := NatToString(index + 1);
    if s == "0" {
      assert NatToString(0) == "0";
      NatToStringInjective(index + 1, 0);
      assert false;
    }
  }

  /** A shard's attribute name reads back as its index plus one. */
  lemma ShardKeyParses(index: nat)
    ensures ParseCount(KeyName(ShardKey(index))) == Some(index + 1)
  {
    ParseNatToString(index + 1);
  }

  /** Distinct shards are stored under distinct names. */
  lemma ShardKeyInjective(a: nat, b: nat)
    requires ShardKey(a) == ShardKey(b)
    ensures a == b
  {
    NatToStringInjective(a + 1, b + 1);
  }

  // ---------------------------------------------------------------------------------------
  // What the collector writes

  /** Every latency before position `n` converts. */
  predicate Converts(ls: seq<ShardLatency>, n: nat)
    requires n <= |ls|
  {
    forall j :: 0 <= j < n ==> ls[j].ms.Some?
  }

  /** A key that is no shard's key keeps its value, and stays absent when it was absent. */
  lemma {:induction false} WriteShardsKeeps(cat: Category, ls: seq<ShardLatency>, k: Key)
    requires forall j :: 0 <= j < |ls| ==> k != ShardKey(ls[j].index)
    ensures k in WriteShards(cat, ls) <==> k in cat
    ensures k in cat ==> WriteShards(cat, ls)[k] == cat[k]
    decreases |ls|
  {
    if ls != [] && ls[0].ms.Some? {
      assert forall j :: 0 <= j < |ls[1..]| ==> ls[1..][j] == ls[j + 1];
      WriteShardsKeeps(cat[ShardKey(ls[0].index) := IntVal(ls[0].ms.value)], ls[1..], k);
    }
  }

  /** Every key the loop adds is the key of some shard. */
  lemma {:induction false} WriteShardsAdds(cat: Category, ls: seq<ShardLatency>, k: Key)
    requires k in WriteShards(cat, ls) && k !in cat
    ensures exists j :: 0 <= j < |ls| && k == ShardKey(ls[j].index)
    decreases |ls|
  {
    if ls != [] && ls[0].ms.Some? && k != ShardKey(ls[0].index) {
      WriteShardsAdds(cat[ShardKey(ls[0].index) := IntVal(ls[0].ms.value)], ls[1..], k);
      var j :| 0 <= j < |ls[1..]| && k == ShardKey(ls[1..][j].index);
      assert ls[1..][j] == ls[j + 1];
    }
  }

  /** The loop goes no further than a latency that cannot be converted. */
  lemma {:induction false} WriteShardsStops(cat: Category, ls: seq<ShardLatency>, i: nat)
    requires i < |ls| && ls[i].ms.None?
    ensures WriteShards(cat, ls) == WriteShards(cat, ls[..i])
    decreases i
  {
    if i > 0 && ls[0].ms.Some? {
      assert ls[1..][..i - 1] == ls[..i][1..];
      WriteShardsStops(cat[ShardKey(ls[0].index) := IntVal(ls[0].ms.value)], ls[1..], i - 1);
    }
  }

  /** A shard reached by the loop is stored as its latency, unless a later pair repeats
      its index. */
  lemma {:induction false} WriteShardsWrites(cat: Category, ls: seq<ShardLatency>, i: nat)
    requires i < |ls| && Converts(ls, i + 1)
    requires forall j :: i < j < |ls| ==> ls[j].index != ls[i].index
    ensures ShardKey(ls[i].index) in WriteShards(cat, ls)
    ensures WriteShards(cat, ls)[ShardKey(ls[i].index)] == IntVal(ls[i].ms.value)
    decreases i
  {
    var cat' := cat[ShardKey(ls[0].index) := IntVal(ls[0].ms.value)];
    if i == 0 {
      forall j | 0 <= j < |ls[1..]|
        ensures ShardKey(ls[0].index) != ShardKey(ls[1..][j].index)
      {
        assert ls[1..][j] == ls[j + 1];
        if ShardKey(ls[0].index) == ShardKey(ls[1..][j].index) {
          ShardKeyInjective(ls[0].index, ls[1..][j].index);
        }
      }
      WriteShardsKeeps(cat', ls[1..], ShardKey(ls[0].index));
    } else {
      WriteShardsWrites(cat', ls[1..], i - 1);
    }
  }

  /** The collector adds no attribute named "0" and none that is a fixed label. */
  lemma NoShardZero(st: Stats, ls: seq<ShardLatency>)
    requires "shards" in st
    ensures var r := WriteShardsStats(st, ls)["shards"];
      (Named("0") in r ==> Named("0") in st["shards"]) &&
      forall l :: Fixed(l) in r ==> Fixed(l) in st["shards"]
  {
    var r := WriteShardsStats(st, ls)["shards"];
    forall j | 0 <= j < |ls|
      ensures Named("0") != ShardKey(ls[j].index)
    {
      ShardKeyNotZero(ls[j].index);
    }
    if Named("0") in r && Named("0") !in st["shards"] {
      WriteShardsAdds(st["shards"], ls, Named("0"));
    }
    forall l | Fixed(l) in r
      ensures Fixed(l) in st["shards"]
    {
      if Fixed(l) !in st["shards"] {
        WriteShardsAdds(st["shards"], ls, Fixed(l));
      }
    }
  }

  /** Any other category keeps its labels. */
  lemma ShardsKeeps(st: Stats, ls: seq<ShardLatency>, c: string)
    requires "shards" in st && c in st && c != "shards"
    ensures WriteShardsStats(st, ls)[c] == st[c]
  {
  }
}
