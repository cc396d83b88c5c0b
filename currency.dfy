/** The currency collector `write_currency_data`: the sum of every account's balance. */
module Currency {
  import opened Labels
  import opened Store

  /** The sum of the balances, in the order the accounts are read. */
  function BalanceSum(bs: seq<int>): int
  {
    if bs == [] then 0 else BalanceSum(bs[..|bs| - 1]) + bs[|bs| - 1]
  }

  /** The loop accumulating `overall`. */
  method SumBalances(bs: seq<int>) returns (overall: int)
    ensures overall == BalanceSum(bs)
  {
    overall := 0;
    for i := 0 to |bs|
      invariant overall == BalanceSum(bs[..i])
    {
      assert bs[..i + 1][..i] == bs[..i];
      overall := overall + bs[i];
    }
    assert bs[..|bs|] == bs;
  }

  /** The one label the collector writes. */
  function CurrencyLabels(overall: int): Category
  {
    map[Fixed(CurrencyInCirculation) := IntVal(overall)]
  }

  /** The store after `write_currency_data`, which runs in every mode. */
  function WriteCurrency(st: Stats, bs: seq<int>): (r: Stats)
    requires "currency" in st
    ensures HasCategories(st) ==> HasCategories(r)
  {
    Publish(st, "currency", CurrencyLabels(BalanceSum(bs)))
  }

  /** `write_currency_data`. */
  method WriteCurrencyData(bot: Bot, bs: seq<int>)
    requires "currency" in bot.stats
    modifies bot
    ensures bot.stats == WriteCurrency(old(bot.stats), bs)
    ensures bot.statsReady == old(bot.statsReady)
  {
    var overall := SumBalances(bs);
    bot.SetLabels("currency", CurrencyLabels(overall));
  }

  // ---------------------------------------------------------------------------------------
  // The sum

  /** Reading the accounts in batches sums each batch and adds the batch sums. */
  lemma {:induction false} BalanceSumAppend(a: seq<int>, b: seq<int>)
    ensures BalanceSum(a + b) == BalanceSum(a) + BalanceSum(b)
    decreases |b|
  {
    if b != [] {
      assert (a + b)[..|a + b| - 1] == a + b[..|b| - 1];
      assert (a + b)[|a + b| - 1] == b[|b| - 1];
      BalanceSumAppend(a, b[..|b| - 1]);
    } else {
      assert a + b == a;
    }
  }

  /** Taking one balance out lowers the sum by that balance. */
  lemma BalanceSumRemove(b: seq<int>, j: nat)
    requires j < |b|
    ensures BalanceSum(b) == BalanceSum(b[..j] + b[j + 1..]) + b[j]
  {
    assert b == b[..j] + [b[j]] + b[j + 1..];
    BalanceSumAppend(b[..j] + [b[j]], b[j + 1..]);
    BalanceSumAppend(b[..j], [b[j]]);
    BalanceSumAppend(b[..j], b[j + 1..]);
    assert [b[j]][..0] == [];
  }

  /** The order the accounts are read in does not change the sum. */
  lemma {:induction false} BalanceSumPermutation(a: seq<int>, b: seq<int>)
    requires multiset(a) == multiset(b)
    ensures BalanceSum(a) == BalanceSum(b)
    decreases |a|
  {
    if a != [] {
      var x := a[|a| - 1];
      var a' := a[..|a| - 1];
      assert a == a' + [x];
      assert x in multiset(b);
      var j :| 0 <= j < |b| && b[j] == x;
      var b' := b[..j] + b[j + 1..];
      assert b == b[..j] + [x] + b[j + 1..];
      assert multiset(b) == multiset(b') + multiset{x};
      assert multiset(a) == multiset(a') + multiset{x};
      assert multiset(a') == multiset(a) - multiset{x};
      assert multiset(b') == multiset(b) - multiset{x};
      BalanceSumPermutation(a', b');
      BalanceSumRemove(b, j);
    }
  }

  /** The collector writes only "currency", and there only its one label. */
  lemma CurrencyFrame(st: Stats, bs: seq<int>)
    requires "currency" in st
    ensures var r := WriteCurrency(st, bs);
      && (forall c :: c in r <==> c in st)
      && (forall c :: c in st && c != "currency" ==> r[c] == st[c])
      && r["currency"].Keys == st["currency"].Keys + {Fixed(CurrencyInCirculation)}
      && forall k :: k in st["currency"] && k != Fixed(CurrencyInCirculation) ==> r["currency"][k] == st["currency"][k]
  {
  }

  /** Any other category keeps its labels. */
  lemma CurrencyKeeps(st: Stats, bs: seq<int>, c: string)
    requires "currency" in st && c in st && c != "currency"
    ensures WriteCurrency(st, bs)[c] == st[c]
  {
  }

  /** The published total is the sum of the balances. */
  lemma PublishedTotal(st: Stats, bs: seq<int>, total: int)
    requires "currency" in st
    requires total == BalanceSum(bs)
    ensures "currency" in WriteCurrency(st, bs) && Fixed(CurrencyInCirculation) in WriteCurrency(st, bs)["currency"]
    ensures WriteCurrency(st, bs)["currency"][Fixed(CurrencyInCirculation)] == IntVal(total)
  {
    assert CurrencyLabels(total)[Fixed(CurrencyInCirculation)] == IntVal(total);
  }
}
