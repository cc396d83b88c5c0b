/** The adventure collector `write_adventure_data`: records with missing fields are
    backfilled with zeros, ten counters are summed over all users, and the "adventure"
    category gets the sums together with the adventure total and the win and loss
    percentages. */
module Adventure {
  import opened Options
  import opened Counters
  import opened Labels
  import opened Store

  /** One user's record as stored by the Adventure plugin; any of the three fields may be
      missing. `adventures` maps a statistic name to its count. */
  datatype Account = Account(adventures: Option<map<string, int>>, rebirths: Option<int>, setItems: Option<int>)

  /** The statistics an adventures dictionary is recognised by. */
  const StatKeys: set<string> := {"wins", "loses", "fight", "spell", "talk", "pray", "run", "fumbles"}

  /** The adventures dictionary a record without one receives. */
  const ZeroStats: map<string, int> := map["wins" := 0, "loses" := 0, "fight" := 0, "spell" := 0,
                                           "talk" := 0, "pray" := 0, "run" := 0, "fumbles" := 0]

  predicate Complete(a: Account)
  {
    a.adventures.Some? && a.rebirths.Some? && a.setItems.Some?
  }

  /** The `v.update` loop: each missing field gets its zero default, present fields stay. */
  function Backfill(a: Account): (r: Account)
    ensures Complete(r)
    ensures a.adventures.Some? ==> r.adventures == a.adventures
    ensures a.rebirths.Some? ==> r.rebirths == a.rebirths
    ensures a.setItems.Some? ==> r.setItems == a.setItems
  {
    Account(Some(a.adventures.GetOr(ZeroStats)), Some(a.rebirths.GetOr(0)), Some(a.setItems.GetOr(0)))
  }

  /** Whether some key of an adventures dictionary is one of the recognised statistics. */
  predicate HasStat(vi: map<string, int>)
  {
    exists s :: s in vi && s in StatKeys
  }

  /** `user_data` of a complete record: the whole adventures dictionary when it holds a
      recognised statistic, then "rebirths" and "set_items". */
  function UserData(a: Account): map<string, int>
    requires Complete(a)
  {
    var vi := a.adventures.value;
    var stats := if HasStat(vi) then vi else map[];
    stats["rebirths" := a.rebirths.value]["set_items" := a.setItems.value]
  }

  /** The position of a label among the ten counters the collector sums, in the order it
      adds them; 10 for every other label. */
  function TrackedIndex(l: AdventureLabel): (n: nat)
    ensures n <= 10
  {
    if l == SetItems then 0
    else if l == Rebirths then 1
    else if l == Wins then 2
    else if l == Losses then 3
    else if l == PhysicalAttacks then 4
    else if l == MagicalAttacks then 5
    else if l == DiplomaticAttacks then 6
    else if l == Prayers then 7
    else if l == Retreats then 8
    else if l == Fumbles then 9
    else 10
  }

  predicate IsTracked(l: AdventureLabel)
  {
    TrackedIndex(l) < 10
  }

  /** The counter added at a position. */
  function TrackedAt(j: nat): (l: AdventureLabel)
    requires j < 10
    ensures TrackedIndex(l) == j
  {
    if j == 0 then SetItems
    else if j == 1 then Rebirths
    else if j == 2 then Wins
    else if j == 3 then Losses
    else if j == 4 then PhysicalAttacks
    else if j == 5 then MagicalAttacks
    else if j == 6 then DiplomaticAttacks
    else if j == 7 then Prayers
    else if j == 8 then Retreats
    else Fumbles
  }

  /** The `user_data` key a tracked counter sums. */
  function TrackedKey(l: AdventureLabel): string
  {
    if l == SetItems then "set_items"
    else if l == Rebirths then "rebirths"
    else if l == Wins then "wins"
    else if l == Losses then "loses"
    else if l == PhysicalAttacks then "fight"
    else if l == MagicalAttacks then "spell"
    else if l == DiplomaticAttacks then "talk"
    else if l == Prayers then "pray"
    else if l == Retreats then "run"
    else if l == Fumbles then "fumbles"
    else ""
  }

  /** The counter after the `+=` lines for the first `j` tracked labels of one user: each
      of them is raised by the user's value for its key, 0 when the user has none, and
      created when missing; every other label stays. */
  function AddFirst(c: Counter<AdventureLabel>, u: map<string, int>, j: nat): Counter<AdventureLabel>
  {
    map l | l in c || TrackedIndex(l) < j :: Get(c, l) + (if TrackedIndex(l) < j then Get(u, TrackedKey(l)) else 0)
  }

  /** The counter after all ten `+=` lines for one user. */
  function AddUser(c: Counter<AdventureLabel>, u: map<string, int>): Counter<AdventureLabel>
  {
    AddFirst(c, u, 10)
  }

  /** `adventure_count` after the loop over all users. */
  function AdventureCount(accounts: seq<Account>): Counter<AdventureLabel>
  {
    if accounts == [] then map[]
    else AddUser(AdventureCount(accounts[..|accounts| - 1]), UserData(Backfill(accounts[|accounts| - 1])))
  }

  // ---------------------------------------------------------------------------------------
  // The loops

  /** The `v.update` loop over "adventures", "rebirths" and "set_items". */
  method BackfillRecord(a: Account) returns (v: Account)
    ensures v == Backfill(a)
  {
    v := a;
    if v.adventures.None? {
      v := v.(adventures := Some(ZeroStats));
    }
    if v.rebirths.None? {
      v := v.(rebirths := Some(0));
    }
    if v.setItems.None? {
      v := v.(setItems := Some(0));
    }
  }

  /** A tracked label sits at its own position. */
  lemma TrackedAtIndex(l: AdventureLabel)
    requires IsTracked(l)
    ensures TrackedAt(TrackedIndex(l)) == l
  {
  }

  /** One `+=` line adds the next tracked label. */
  lemma AddFirstStep(c: Counter<AdventureLabel>, u: map<string, int>, j: nat)
    requires j < 10
    ensures AddFirst(c, u, j + 1) == Bump(AddFirst(c, u, j), TrackedAt(j), Get(u, TrackedKey(TrackedAt(j))))
  {
    var l := TrackedAt(j);
    var p := Bump(AddFirst(c, u, j), l, Get(u, TrackedKey(l)));
    forall k ensures (k in p <==> k in AddFirst(c, u, j + 1)) && (k in p ==> p[k] == AddFirst(c, u, j + 1)[k]) {
      if TrackedIndex(k) == j {
        TrackedAtIndex(k);
      }
    }
  }

  /** The ten `+=` lines for one user, taken from the table of tracked labels in order. */
  method AddUserData(c: Counter<AdventureLabel>, u: map<string, int>) returns (count: Counter<AdventureLabel>)
    ensures count == AddUser(c, u)
  {
    count := c;
    assert c == AddFirst(c, u, 0);
    for j := 0 to 10
      invariant count == AddFirst(c, u, j)
    {
      var l := TrackedAt(j);
      AddFirstStep(c, u, j);
      count := Bump(count, l, Get(u, TrackedKey(l)));
    }
  }

  /** A user more on the list is one more `AddUser` on the count. */
  lemma AdventureCountSnoc(accounts: seq<Account>, i: nat)
    requires i < |accounts|
    ensures AdventureCount(accounts[..i + 1]) == AddUser(AdventureCount(accounts[..i]), UserData(Backfill(accounts[i])))
  {
    assert accounts[..i + 1][..i] == accounts[..i];
  }

  /** The two loops of the collector: backfill and extract each record, then sum. */
  method TallyAdventure(accounts: seq<Account>) returns (count: Counter<AdventureLabel>)
    ensures count == AdventureCount(accounts)
  {
    count := map[];
    var i := 0;
    while i < |accounts|
      invariant 0 <= i <= |accounts|
      invariant count == AdventureCount(accounts[..i])
    {
      var v := BackfillRecord(accounts[i]);
      AdventureCountSnoc(accounts, i);
      count := AddUserData(count, UserData(v));
      i := i + 1;
    }
    assert accounts[..i] == accounts;
  }

  // ---------------------------------------------------------------------------------------
  // What the sums mean

  /** The count a raw record holds for a key, a missing field or statistic counting 0. */
  function RawStat(a: Account, key: string): int
  {
    if key == "rebirths" then a.rebirths.GetOr(0)
    else if key == "set_items" then a.setItems.GetOr(0)
    else if a.adventures.Some? then Get(a.adventures.value, key)
    else 0
  }

  /** The sum of a key over all raw records. */
  function RawSum(accounts: seq<Account>, key: string): int
  {
    if accounts == [] then 0
    else RawSum(accounts[..|accounts| - 1], key) + RawStat(accounts[|accounts| - 1], key)
  }

  /** Backfilling and extraction read every tracked key as the raw record holds it, 0 when
      missing: an adventures dictionary without a recognised statistic has none of them. */
  lemma UserDataReadsRaw(a: Account, key: string)
    requires key in StatKeys || key == "rebirths" || key == "set_items"
    ensures Get(UserData(Backfill(a)), key) == RawStat(a, key)
  {
    var b := Backfill(a);
    if key in StatKeys && a.adventures.Some? && !HasStat(a.adventures.value) {
      assert key !in a.adventures.value;
    }
  }

  /** Adding one user raises each tracked label by that user's value and creates it when
      missing; every other label stays. */
  lemma AddUserCounts(c: Counter<AdventureLabel>, u: map<string, int>, l: AdventureLabel)
    ensures Get(AddUser(c, u), l) == Get(c, l) + (if IsTracked(l) then Get(u, TrackedKey(l)) else 0)
    ensures l in AddUser(c, u) <==> l in c || IsTracked(l)
  {
  }

  /** Each tracked label sums its key over all raw records, missing fields counting 0. */
  lemma {:induction false} AdventureCountSum(accounts: seq<Account>, l: AdventureLabel)
    requires IsTracked(l)
    ensures Get(AdventureCount(accounts), l) == RawSum(accounts, TrackedKey(l))
  {
    if accounts != [] {
      var init := accounts[..|accounts| - 1];
      var a := accounts[|accounts| - 1];
      AdventureCountSum(init, l);
      AddUserCounts(AdventureCount(init), UserData(Backfill(a)), l);
      UserDataReadsRaw(a, TrackedKey(l));
    }
  }

  /** The counter has all ten tracked labels once there is a user, and none before. */
  lemma {:induction false} AdventureCountHas(accounts: seq<Account>, l: AdventureLabel)
    requires IsTracked(l)
    ensures l in AdventureCount(accounts) <==> accounts != []
  {
    if accounts != [] {
      var init := accounts[..|accounts| - 1];
      AdventureCountHas(init, l);
      AddUserCounts(AdventureCount(init), UserData(Backfill(accounts[|accounts| - 1])), l);
    }
  }

  /** Both facts about a tracked label together. */
  lemma AdventureCountSums(accounts: seq<Account>, l: AdventureLabel)
    requires IsTracked(l)
    ensures Get(AdventureCount(accounts), l) == RawSum(accounts, TrackedKey(l))
    ensures l in AdventureCount(accounts) <==> accounts != []
  {
    AdventureCountSum(accounts, l);
    AdventureCountHas(accounts, l);
  }

  /** Only the ten tracked labels are ever counted. */
  lemma {:induction false} AdventureCountOnlyTracked(accounts: seq<Account>, l: AdventureLabel)
    requires !IsTracked(l)
    ensures l !in AdventureCount(accounts)
  {
    if accounts != [] {
      var init := accounts[..|accounts| - 1];
      AdventureCountOnlyTracked(init, l);
      AddUserCounts(AdventureCount(init), UserData(Backfill(accounts[|accounts| - 1])), l);
    }
  }

  // ---------------------------------------------------------------------------------------
  // The store

  /** The number a label of a category holds, 0 when absent. */
  function IntIn(cat: Category, l: AdventureLabel): int
  {
    if Fixed(Quest(l)) in cat && cat[Fixed(Quest(l))].IntVal? then cat[Fixed(Quest(l))].i else 0
  }

  /** The adventure counter as published numbers. */
  function Published(c: Counter<AdventureLabel>): (r: Category)
    ensures forall k :: k in r <==> k.Fixed? && k.fixed.Quest? && k.fixed.quest in c
    ensures forall l :: l in c ==> r[Fixed(Quest(l))] == IntVal(c[l])
  {
    map l | l in c :: Fixed(Quest(l)) := IntVal(c[l])
  }

  /** `win_per * 100`: an int 0 when there was no adventure, a float otherwise. */
  function Percentage(part: int, total: int): Value
  {
    if total == 0 then IntVal(0) else RealVal(part as real / total as real * 100.0)
  }

  /** Wins and Losses reset to 0 before the sums are written. */
  const Resets: Category := map[Fixed(Quest(Wins)) := IntVal(0), Fixed(Quest(Losses)) := IntVal(0)]

  /** Adventures, Win Percentage and Loss Percentage from what the category now holds. */
  function Derived(cat: Category): Category
  {
    var w := IntIn(cat, Wins);
    var l := IntIn(cat, Losses);
    map[Fixed(Quest(Adventures)) := IntVal(w + l),
        Fixed(Quest(WinPercentage)) := Percentage(w, w + l),
        Fixed(Quest(LossPercentage)) := Percentage(l, w + l)]
  }

  /** The "adventure" category after a pass with the counter `count`: the resets, then the
      sums, then the derived labels computed from what the category holds at that point. */
  function AdventureCategory(cat: Category, count: Counter<AdventureLabel>): Category
  {
    var summed := cat + Resets + Published(count);
    summed + Derived(summed)
  }

  /** The store after `write_adventure_data`: nothing when the plugin is not loaded or in
      light mode, otherwise the new "adventure" category. */
  function WriteAdventure(st: Stats, loaded: bool, lightmode: bool, accounts: seq<Account>): (r: Stats)
    requires "adventure" in st
    ensures HasCategories(st) ==> HasCategories(r)
  {
    if !loaded || lightmode then st
    else st["adventure" := AdventureCategory(st["adventure"], AdventureCount(accounts))]
  }

  /** `write_adventure_data`. */
  method WriteAdventureData(bot: Bot, loaded: bool, lightmode: bool, accounts: seq<Account>)
    requires "adventure" in bot.stats
    modifies bot
    ensures bot.stats == WriteAdventure(old(bot.stats), loaded, lightmode, accounts)
    ensures bot.statsReady == old(bot.statsReady)
  {
    if !loaded || lightmode {
      return;
    }
    var count := TallyAdventure(accounts);
    ghost var st := old(bot.stats);
    bot.SetLabels("adventure", Resets);
    assert bot.stats == st["adventure" := st["adventure"] + Resets];
    bot.SetLabels("adventure", Published(count));
    PublishOver(st, "adventure", st["adventure"] + Resets, Published(count));
    ghost var summed := st["adventure"] + Resets + Published(count);
    bot.SetLabels("adventure", Derived(bot.stats["adventure"]));
    PublishOver(st, "adventure", summed, Derived(summed));
  }

  // ---------------------------------------------------------------------------------------
  // What a pass writes, for any counter

  /** After the resets and the sums, Wins and Losses hold their counts, 0 when nothing was
      counted for them. */
  lemma SummedResets(cat: Category, count: Counter<AdventureLabel>, l: AdventureLabel)
    requires l == Wins || l == Losses
    ensures var summed := cat + Resets + Published(count);
      && summed[Fixed(Quest(l))] == IntVal(Get(count, l))
      && IntIn(summed, l) == Get(count, l)
  {
    var summed := cat + Resets + Published(count);
    if l in count {
      assert summed[Fixed(Quest(l))] == Published(count)[Fixed(Quest(l))];
    } else {
      assert Fixed(Quest(l)) !in Published(count);
    }
  }

  /** The derived labels leave every other label as the sums left it. */
  lemma DerivedKeeps(summed: Category, k: Key)
    requires k in summed
    requires k != Fixed(Quest(Adventures)) && k != Fixed(Quest(WinPercentage)) && k != Fixed(Quest(LossPercentage))
    ensures (summed + Derived(summed))[k] == summed[k]
  {
  }

  /** Adventures is the sum of Wins and Losses as the category holds them. */
  lemma DerivedAdventures(summed: Category)
    ensures Derived(summed)[Fixed(Quest(Adventures))] == IntVal(IntIn(summed, Wins) + IntIn(summed, Losses))
  {
  }

  /** Wins and Losses hold their sums, 0 when nothing was counted for them. */
  lemma CategoryResets(cat: Category, count: Counter<AdventureLabel>, l: AdventureLabel)
    requires l == Wins || l == Losses
    ensures AdventureCategory(cat, count)[Fixed(Quest(l))] == IntVal(Get(count, l))
  {
    var summed := cat + Resets + Published(count);
    SummedResets(cat, count, l);
    DerivedKeeps(summed, Fixed(Quest(l)));
  }

  /** Adventures is the sum of Wins and Losses. */
  lemma CategoryAdventures(cat: Category, count: Counter<AdventureLabel>, w: int, l: int)
    requires Get(count, Wins) == w && Get(count, Losses) == l
    ensures AdventureCategory(cat, count)[Fixed(Quest(Adventures))] == IntVal(w + l)
  {
    var summed := cat + Resets + Published(count);
    SummedResets(cat, count, Wins);
    SummedResets(cat, count, Losses);
    DerivedAdventures(summed);
  }

  /** Every other counted label holds its sum. */
  lemma CategorySum(cat: Category, count: Counter<AdventureLabel>, l: AdventureLabel)
    requires l in count && l != Adventures && l != WinPercentage && l != LossPercentage
    ensures Fixed(Quest(l)) in AdventureCategory(cat, count)
    ensures AdventureCategory(cat, count)[Fixed(Quest(l))] == IntVal(count[l])
  {
  }

  /** The ten summed labels are not among the three derived ones. */
  lemma TrackedNotDerived(l: AdventureLabel)
    requires IsTracked(l)
    ensures l != Adventures && l != WinPercentage && l != LossPercentage
  {
  }

  /** The two percentages are both 0 when there was no adventure, and add up to 100
      otherwise. */
  lemma PercentagesAddUp(cat: Category)
    ensures var d := Derived(cat);
      var total := IntIn(cat, Wins) + IntIn(cat, Losses);
      && (total == 0 ==> d[Fixed(Quest(WinPercentage))] == IntVal(0) && d[Fixed(Quest(LossPercentage))] == IntVal(0))
      && (total != 0 ==> Num(d[Fixed(Quest(WinPercentage))]) + Num(d[Fixed(Quest(LossPercentage))]) == 100.0)
  {
    var w := IntIn(cat, Wins) as real;
    var l := IntIn(cat, Losses) as real;
    var t := (IntIn(cat, Wins) + IntIn(cat, Losses)) as real;
    if t != 0.0 {
      assert w / t * 100.0 + l / t * 100.0 == (w + l) / t * 100.0;
      assert (w + l) / t == 1.0;
    }
  }

  /** The published percentages are both 0 without an adventure, and add up to 100
      otherwise. */
  lemma CategoryPercentages(cat: Category, count: Counter<AdventureLabel>, w: int, l: int)
    requires Get(count, Wins) == w && Get(count, Losses) == l
    ensures var r := AdventureCategory(cat, count);
      && (w + l == 0 ==> r[Fixed(Quest(WinPercentage))] == IntVal(0) && r[Fixed(Quest(LossPercentage))] == IntVal(0))
      && (w + l != 0 ==> Num(r[Fixed(Quest(WinPercentage))]) + Num(r[Fixed(Quest(LossPercentage))]) == 100.0)
  {
    var summed := cat + Resets + Published(count);
    SummedResets(cat, count, Wins);
    SummedResets(cat, count, Losses);
    PercentagesAddUp(summed);
  }

  /** A label the pass does not write keeps its earlier value. */
  lemma CategoryKeeps(cat: Category, count: Counter<AdventureLabel>, k: Key)
    requires k in cat && k !in Resets
    requires k != Fixed(Quest(Adventures)) && k != Fixed(Quest(WinPercentage)) && k != Fixed(Quest(LossPercentage))
    requires !(k.Fixed? && k.fixed.Quest? && k.fixed.quest in count)
    ensures AdventureCategory(cat, count)[k] == cat[k]
  {
    var summed := cat + Resets + Published(count);
    assert k !in Published(count);
    assert summed[k] == cat[k];
    DerivedKeeps(summed, k);
  }

  // ---------------------------------------------------------------------------------------
  // What the collector publishes

  /** After a pass, Wins and Losses hold the summed raw wins and losses, 0 when there is
      no user. */
  lemma PublishedWinsLosses(cat: Category, accounts: seq<Account>, l: AdventureLabel)
    requires l == Wins || l == Losses
    ensures AdventureCategory(cat, AdventureCount(accounts))[Fixed(Quest(l))] == IntVal(RawSum(accounts, TrackedKey(l)))
  {
    var count := AdventureCount(accounts);
    AdventureCountSums(accounts, l);
    assert Get(count, l) == RawSum(accounts, TrackedKey(l));
    CategoryResets(cat, count, l);
  }

  /** The wins and losses the counter holds are the raw sums. */
  lemma CountedWinsLosses(accounts: seq<Account>)
    ensures Get(AdventureCount(accounts), Wins) == RawSum(accounts, "wins")
    ensures Get(AdventureCount(accounts), Losses) == RawSum(accounts, "loses")
  {
    AdventureCountSums(accounts, Wins);
    AdventureCountSums(accounts, Losses);
  }

  /** After a pass, Adventures is the summed raw wins plus the summed raw losses. */
  lemma PublishedAdventures(cat: Category, accounts: seq<Account>, wins: int, losses: int)
    requires wins == RawSum(accounts, "wins") && losses == RawSum(accounts, "loses")
    ensures AdventureCategory(cat, AdventureCount(accounts))[Fixed(Quest(Adventures))] == IntVal(wins + losses)
  {
    CountedWinsLosses(accounts);
    CategoryAdventures(cat, AdventureCount(accounts), wins, losses);
  }

  /** Once there is a user, every tracked label holds its key summed over the raw records. */
  lemma PublishedSum(cat: Category, accounts: seq<Account>, l: AdventureLabel)
    requires accounts != [] && IsTracked(l)
    ensures AdventureCategory(cat, AdventureCount(accounts))[Fixed(Quest(l))] == IntVal(RawSum(accounts, TrackedKey(l)))
  {
    AdventureCountSums(accounts, l);
    TrackedNotDerived(l);
    CategorySum(cat, AdventureCount(accounts), l);
  }

  /** Over a pass the published percentages are both 0 without an adventure, and add up to
      100 otherwise. */
  lemma PublishedPercentages(cat: Category, accounts: seq<Account>)
    ensures var r := AdventureCategory(cat, AdventureCount(accounts));
      var total := RawSum(accounts, "wins") + RawSum(accounts, "loses");
      && (total == 0 ==> r[Fixed(Quest(WinPercentage))] == IntVal(0) && r[Fixed(Quest(LossPercentage))] == IntVal(0))
      && (total != 0 ==> Num(r[Fixed(Quest(WinPercentage))]) + Num(r[Fixed(Quest(LossPercentage))]) == 100.0)
  {
    CountedWinsLosses(accounts);
    CategoryPercentages(cat, AdventureCount(accounts), RawSum(accounts, "wins"), RawSum(accounts, "loses"));
  }

  /** Without any user only the resets and the derived labels are written: every other
      label of the category, the other eight sums included, keeps its earlier value. */
  lemma NoUsersKeepsSums(cat: Category, k: Key)
    requires k in cat && k !in Resets
    requires k != Fixed(Quest(Adventures)) && k != Fixed(Quest(WinPercentage)) && k != Fixed(Quest(LossPercentage))
    ensures AdventureCategory(cat, AdventureCount([]))[k] == cat[k]
  {
    assert AdventureCount([]) == map[];
    CategoryKeeps(cat, AdventureCount([]), k);
  }

  /** The collector writes only "adventure", and nothing when the cog is not loaded or in
      light mode. */
  lemma AdventureFrame(st: Stats, loaded: bool, lightmode: bool, accounts: seq<Account>)
    requires "adventure" in st
    ensures var r := WriteAdventure(st, loaded, lightmode, accounts);
      && (forall c :: c in r <==> c in st)
      && (forall c :: c in st && c != "adventure" ==> r[c] == st[c])
      && (!loaded || lightmode ==> r == st)
  {
    if loaded && !lightmode {
      ReplaceFrame(st, "adventure", AdventureCategory(st["adventure"], AdventureCount(accounts)));
    }
  }

  /** Any other category keeps its labels. */
  lemma AdventureKeeps(st: Stats, loaded: bool, lightmode: bool, accounts: seq<Account>, c: string)
    requires "adventure" in st && c in st && c != "adventure"
    ensures WriteAdventure(st, loaded, lightmode, accounts)[c] == st[c]
  {
    AdventureFrame(st, loaded, lightmode, accounts);
  }

  /** The "adventure" category after the collector depends on that category alone. */
  lemma AdventureCategoryAfter(st: Stats, loaded: bool, lightmode: bool, accounts: seq<Account>)
    requires "adventure" in st
    ensures WriteAdventure(st, loaded, lightmode, accounts)["adventure"] ==
      if !loaded || lightmode then st["adventure"] else AdventureCategory(st["adventure"], AdventureCount(accounts))
  {
  }
}
