/** KuCoin spot tickers (src/exchanges/kucoin.rs): rank all tickers by 24h
    volume, highest first and ties in input order, split each `BASE-QUOTE`
    symbol, keep USDT pairs that are not leveraged tokens, and namespace the
    survivors as `KUCOIN:<BASE>USDT`. Volumes are floating point in the source
    and integers here; only their order matters. */
module KuCoin {
  import opened Text
  import opened Fetch

  datatype Ticker = Ticker(symbol: string, vol: int)

  // ---------------------------------------------------------------------
  // Ranking: `data.sort_by(|a, b| b.vol.partial_cmp(&a.vol))`, a stable
  // sort on descending volume.
  // ---------------------------------------------------------------------

  ghost predicate NonIncreasing(s: seq<Ticker>) {
    forall i, j :: 0 <= i < j < |s| ==> s[i].vol >= s[j].vol
  }

  /** The entries of `s` whose volume is `v`, in order. */
  function WithVolume(s: seq<Ticker>, v: int): seq<Ticker> {
    if s == [] then [] else (if s[0].vol == v then [s[0]] else []) + WithVolume(s[1..], v)
  }

  /** Insert `t` after the last entry, counted from the end, whose volume is
      at least `t`'s: one step of an insertion sort on descending volume. */
  function InsertByVolume(s: seq<Ticker>, t: Ticker): (r: seq<Ticker>)
    ensures |r| == |s| + 1
  {
    if s == [] || s[|s| - 1].vol >= t.vol then s + [t]
    else InsertByVolume(s[..|s| - 1], t) + [s[|s| - 1]]
  }

  /** The input ranked by descending volume, ties in input order. */
  function SortedByVolume(s: seq<Ticker>): (r: seq<Ticker>)
    ensures |r| == |s|
  {
    if s == [] then [] else InsertByVolume(SortedByVolume(s[..|s| - 1]), s[|s| - 1])
  }

  lemma {:induction false} WithVolumeAppend(a: seq<Ticker>, b: seq<Ticker>, v: int)
    ensures WithVolume(a + b, v) == WithVolume(a, v) + WithVolume(b, v)
  {
    if a != [] {
      assert (a + b)[1..] == a[1..] + b;
      WithVolumeAppend(a[1..], b, v);
    } else {
      assert a + b == b;
    }
  }

  lemma {:induction false} InsertMultiset(s: seq<Ticker>, t: Ticker)
    ensures multiset(InsertByVolume(s, t)) == multiset(s) + multiset{t}
  {
    if s != [] && s[|s| - 1].vol < t.vol {
      InsertMultiset(s[..|s| - 1], t);
      assert s == s[..|s| - 1] + [s[|s| - 1]];
    }
  }

  lemma {:induction false} InsertNonIncreasing(s: seq<Ticker>, t: Ticker)
    requires NonIncreasing(s)
    ensures NonIncreasing(InsertByVolume(s, t))
  {
    if s != [] && s[|s| - 1].vol < t.vol {
      var init, last := s[..|s| - 1], s[|s| - 1];
      InsertNonIncreasing(init, t);
      InsertMultiset(init, t);
      var r := InsertByVolume(init, t);
      forall k | 0 <= k < |r|
        ensures r[k].vol >= last.vol
      {
        assert r[k] in multiset(init) + multiset{t};
        if r[k] in init {
          var m :| 0 <= m < |init| && init[m] == r[k];
          assert s[m] == r[k];
        }
      }
    }
  }

  /** Inserting `t` passes only entries of strictly smaller volume, so the
      entries of each volume keep their relative order. */
  lemma {:induction false} InsertWithVolume(s: seq<Ticker>, t: Ticker, v: int)
    ensures WithVolume(InsertByVolume(s, t), v) == WithVolume(s, v) + WithVolume([t], v)
  {
    if s == [] || s[|s| - 1].vol >= t.vol {
      WithVolumeAppend(s, [t], v);
    } else {
      var init, last := s[..|s| - 1], s[|s| - 1];
      InsertWithVolume(init, t, v);
      WithVolumeAppend(InsertByVolume(init, t), [last], v);
      WithVolumeAppend(init, [last], v);
      assert s == init + [last];
      assert [t][1..] == [] && [last][1..] == [];
      assert WithVolume([t], v) + WithVolume([last], v) == WithVolume([last], v) + WithVolume([t], v);
    }
  }

  /** The ranking is a permutation of its input. */
  lemma {:induction false} SortedByVolumeMultiset(s: seq<Ticker>)
    ensures multiset(SortedByVolume(s)) == multiset(s)
  {
    if s != [] {
      SortedByVolumeMultiset(s[..|s| - 1]);
      InsertMultiset(SortedByVolume(s[..|s| - 1]), s[|s| - 1]);
      assert s == s[..|s| - 1] + [s[|s| - 1]];
    }
  }

  /** The ranking is in non-increasing volume order. */
  lemma {:induction false} SortedByVolumeNonIncreasing(s: seq<Ticker>)
    ensures NonIncreasing(SortedByVolume(s))
  {
    if s != [] {
      SortedByVolumeNonIncreasing(s[..|s| - 1]);
      InsertNonIncreasing(SortedByVolume(s[..|s| - 1]), s[|s| - 1]);
    }
  }

  /** The ranking is stable: for every volume, the entries with that volume
      appear in the same order as in the input. */
  lemma {:induction false} SortedByVolumeStable(s: seq<Ticker>, v: int)
    ensures WithVolume(SortedByVolume(s), v) == WithVolume(s, v)
  {
    if s != [] {
      var init, last := s[..|s| - 1], s[|s| - 1];
      SortedByVolumeStable(init, v);
      InsertWithVolume(SortedByVolume(init), last, v);
      WithVolumeAppend(init, [last], v);
      assert s == init + [last];
    }
  }

  /** `t` is inserted right after the last entry whose volume is at least
      its own: at `j`, when every entry from `j` on has a smaller volume. */
  lemma {:induction false} InsertionPoint(s: seq<Ticker>, j: nat, t: Ticker)
    requires j <= |s| && (j == 0 || s[j - 1].vol >= t.vol)
    requires forall k :: j <= k < |s| ==> s[k].vol < t.vol
    ensures InsertByVolume(s, t) == s[..j] + [t] + s[j..]
    decreases |s|
  {
    if j < |s| {
      var init := s[..|s| - 1];
      assert init[..j] == s[..j];
      InsertionPoint(init, j, t);
      assert s[j..] == init[j..] + [s[|s| - 1]];
    } else {
      assert s[..j] == s;
    }
  }

  /** One step of the in-place sort: move `a[i]` left past the entries of
      strictly smaller volume in the already ranked prefix `a[..i]`. */
  method InsertAt(a: array<Ticker>, i: nat)
    requires i < a.Length
    modifies a
    ensures a[..i + 1] == InsertByVolume(old(a[..i]), old(a[i]))
    ensures forall k :: i < k < a.Length ==> a[k] == old(a[k])
  {
    ghost var sorted := a[..i];
    var t := a[i];
    var j := i;
    while j > 0 && a[j - 1].vol < t.vol
      invariant 0 <= j <= i
      invariant forall k :: 0 <= k < j ==> a[k] == sorted[k]
      invariant forall k :: j < k <= i ==> a[k] == sorted[k - 1]
      invariant forall k :: i < k < a.Length ==> a[k] == old(a[k])
      invariant forall k :: j <= k < i ==> sorted[k].vol < t.vol
    {
      a[j] := a[j - 1];
      j := j - 1;
    }
    a[j] := t;
    InsertionPoint(sorted, j, t);
    ghost var result := sorted[..j] + [t] + sorted[j..];
    forall k | 0 <= k <= i
      ensures a[k] == result[k]
    {
    }
    assert a[..i + 1] == result;
  }

  lemma SortedByVolumeExtend(s: seq<Ticker>, i: nat)
    requires i < |s|
    ensures SortedByVolume(s[..i + 1]) == InsertByVolume(SortedByVolume(s[..i]), s[i])
  {
    assert s[..i + 1][..i] == s[..i];
  }

  /** The in-place sort of `process_data`, as an insertion sort. */
  method SortByVolume(a: array<Ticker>)
    modifies a
    ensures a[..] == SortedByVolume(old(a[..]))
  {
    ghost var input := a[..];
    var i := 0;
    while i < a.Length
      invariant 0 <= i <= a.Length
      invariant a[..i] == SortedByVolume(input[..i])
      invariant forall k :: i <= k < a.Length ==> a[k] == input[k]
    {
      SortedByVolumeExtend(input, i);
      InsertAt(a, i);
      i := i + 1;
    }
    assert a[..] == a[..a.Length];
    assert input[..a.Length] == input;
  }

  // ---------------------------------------------------------------------
  // Filtering: split `BASE-QUOTE`, keep USDT quotes that are not leveraged
  // or directional tokens.
  // ---------------------------------------------------------------------

  /** Substrings that mark a leveraged or directional token anywhere in a base. */
  const LeveragedPatterns: seq<string> := ["3L", "3S", "2L", "2S", "DOWN"]

  /** Every symbol has a second `-` field; the source indexes `parts[1]`
      unconditionally and panics on a symbol without `-`. */
  predicate WellFormed(data: seq<Ticker>) {
    forall k :: 0 <= k < |data| ==> '-' in data[k].symbol
  }

  function Base(symbol: string): string {
    Split(symbol, '-')[0]
  }

  function Quote(symbol: string): string
    requires '-' in symbol
  {
    Split(symbol, '-')[1]
  }

  predicate IsLeveraged(base: string) {
    (exists p :: p in LeveragedPatterns && Contains(base, p))
    || EndsWith(base, "UP") || EndsWith(base, "DOWN")
  }

  predicate Admitted(t: Ticker)
    requires '-' in t.symbol
  {
    Quote(t.symbol) == "USDT" && !IsLeveraged(Base(t.symbol))
  }

  /** The admitted tickers, in the order given. */
  function Survivors(s: seq<Ticker>): (r: seq<Ticker>)
    requires WellFormed(s)
    ensures |r| <= |s|
  {
    if s == [] then []
    else
      assert s[0] in s;
      (if Admitted(s[0]) then [s[0]] else []) + Survivors(s[1..])
  }

  lemma {:induction false} SurvivorsAppend(a: seq<Ticker>, b: seq<Ticker>)
    requires WellFormed(a) && WellFormed(b)
    ensures WellFormed(a + b)
    ensures Survivors(a + b) == Survivors(a) + Survivors(b)
  {
    if a == [] {
      assert a + b == b;
    } else {
      var ab := a + b;
      assert ab[0] == a[0] && ab[1..] == a[1..] + b;
      assert a[0] in a;
      SurvivorsAppend(a[1..], b);
      var kept := if Admitted(a[0]) then [a[0]] else [];
      assert Survivors(ab) == kept + Survivors(a[1..] + b);
      assert Survivors(a) == kept + Survivors(a[1..]);
      var x, y := Survivors(a[1..]), Survivors(b);
      assert kept + (x + y) == (kept + x) + y;
    }
  }

  /** Each ticker survives exactly when its quote is `USDT` and its base is
      not leveraged, at its own position among the others. */
  lemma TickerContribution(before: seq<Ticker>, t: Ticker, after: seq<Ticker>)
    requires WellFormed(before) && '-' in t.symbol && WellFormed(after)
    ensures WellFormed(before + [t] + after)
    ensures Survivors(before + [t] + after)
         == Survivors(before)
          + (if Quote(t.symbol) == "USDT" && !IsLeveraged(Base(t.symbol)) then [t] else [])
          + Survivors(after)
  {
    SurvivorsAppend(before, [t]);
    SurvivorsAppend(before + [t], after);
    assert [t][1..] == [];
  }

  /** Survivors are drawn from the input and admitted. */
  lemma {:induction false} SurvivorsSound(s: seq<Ticker>)
    requires WellFormed(s)
    ensures forall x :: x in Survivors(s) ==> x in s && '-' in x.symbol && Admitted(x)
  {
    if s != [] {
      SurvivorsSound(s[1..]);
    }
  }

  /** Filtering keeps the admitted entries with their multiplicities. */
  lemma {:induction false} SurvivorsMultiset(s: seq<Ticker>, x: Ticker)
    requires WellFormed(s)
    ensures multiset(Survivors(s))[x] == if x in s && Admitted(x) then multiset(s)[x] else 0
  {
    if s != [] {
      var head, tail := s[0], s[1..];
      assert s == [head] + tail;
      assert head in s;
      SurvivorsMultiset(tail, x);
      var kept := if Admitted(head) then [head] else [];
      assert Survivors(s) == kept + Survivors(tail);
      assert multiset(Survivors(s))[x] == multiset(kept)[x] + multiset(Survivors(tail))[x];
      assert multiset(s)[x] == multiset([head])[x] + multiset(tail)[x];
      if x == head {
        assert x in s;
      } else {
        assert multiset(kept)[x] == 0 && multiset([head])[x] == 0;
        assert x in s <==> x in tail;
      }
    }
  }

  lemma {:induction false} SurvivorsNonIncreasing(s: seq<Ticker>)
    requires WellFormed(s) && NonIncreasing(s)
    ensures NonIncreasing(Survivors(s))
  {
    if s != [] {
      SurvivorsNonIncreasing(s[1..]);
      SurvivorsSound(s[1..]);
      var rest := Survivors(s[1..]);
      forall k | 0 <= k < |rest|
        ensures s[0].vol >= rest[k].vol
      {
        assert rest[k] in s[1..];
        var m :| 0 <= m < |s[1..]| && s[1..][m] == rest[k];
        assert s[m + 1] == rest[k];
      }
    }
  }

  /** Filtering commutes with selecting one volume. */
  lemma {:induction false} SurvivorsWithVolume(s: seq<Ticker>, v: int)
    requires WellFormed(s)
    ensures WellFormed(WithVolume(s, v))
    ensures WithVolume(Survivors(s), v) == Survivors(WithVolume(s, v))
  {
    if s != [] {
      SurvivorsWithVolume(s[1..], v);
      assert s[0] in s;
      var head := if Admitted(s[0]) then [s[0]] else [];
      WithVolumeAppend(head, Survivors(s[1..]), v);
      var sel := if s[0].vol == v then [s[0]] else [];
      SurvivorsAppend(sel, WithVolume(s[1..], v));
    }
  }

  lemma SortedByVolumeWellFormed(s: seq<Ticker>)
    requires WellFormed(s)
    ensures WellFormed(SortedByVolume(s))
  {
    SortedByVolumeMultiset(s);
    forall t | t in SortedByVolume(s)
      ensures '-' in t.symbol
    {
      assert t in multiset(SortedByVolume(s));
    }
  }

  /** The tickers `process_data` keeps, in the order it emits their bases. */
  function Ranked(data: seq<Ticker>): (r: seq<Ticker>)
    requires WellFormed(data)
  {
    SortedByVolumeWellFormed(data);
    Survivors(SortedByVolume(data))
  }

  /** Surviving tickers come out in non-increasing volume order. */
  lemma RankedNonIncreasing(data: seq<Ticker>)
    requires WellFormed(data)
    ensures NonIncreasing(Ranked(data))
  {
    SortedByVolumeWellFormed(data);
    SortedByVolumeNonIncreasing(data);
    SurvivorsNonIncreasing(SortedByVolume(data));
  }

  /** Ranking neither adds nor loses survivors: the output is a permutation
      of the admitted input tickers. */
  lemma RankedPermutesSurvivors(data: seq<Ticker>)
    requires WellFormed(data)
    ensures multiset(Ranked(data)) == multiset(Survivors(data))
  {
    var sorted := SortedByVolume(data);
    SortedByVolumeWellFormed(data);
    SortedByVolumeMultiset(data);
    forall x
      ensures multiset(Ranked(data))[x] == multiset(Survivors(data))[x]
    {
      SurvivorsMultiset(sorted, x);
      SurvivorsMultiset(data, x);
      assert x in sorted <==> x in multiset(sorted);
      assert x in data <==> x in multiset(data);
    }
  }

  /** Surviving tickers of equal volume keep their relative input order. */
  lemma RankedStable(data: seq<Ticker>, v: int)
    requires WellFormed(data)
    ensures WithVolume(Ranked(data), v) == WithVolume(Survivors(data), v)
  {
    var sorted := SortedByVolume(data);
    SortedByVolumeWellFormed(data);
    SurvivorsWithVolume(sorted, v);
    SurvivorsWithVolume(data, v);
    SortedByVolumeStable(data, v);
  }

  function Bases(s: seq<Ticker>): (r: seq<string>)
    ensures |r| == |s|
  {
    seq(|s|, k requires 0 <= k < |s| => Base(s[k].symbol))
  }

  /** `process_data`: sort in place by volume, then split, filter and keep the
      base of every surviving ticker. */
  method ProcessData(data: seq<Ticker>) returns (bases: seq<string>)
    requires WellFormed(data)
    ensures bases == Bases(Ranked(data))
    ensures |bases| <= |data|
    ensures forall b :: b in bases ==>
              exists i :: 0 <= i < |data| && Quote(data[i].symbol) == "USDT"
                       && !IsLeveraged(Base(data[i].symbol)) && b == Base(data[i].symbol)
  {
    var a := new Ticker[|data|](i requires 0 <= i < |data| => data[i]);
    assert a[..] == data;
    SortByVolume(a);
    var sorted := a[..];
    SortedByVolumeWellFormed(data);
    bases := Bases(Survivors(sorted));
    SortedByVolumeMultiset(data);
    SurvivorsSound(sorted);
    forall b | b in bases
      ensures exists i :: 0 <= i < |data| && Quote(data[i].symbol) == "USDT"
                       && !IsLeveraged(Base(data[i].symbol)) && b == Base(data[i].symbol)
    {
      var k :| 0 <= k < |bases| && bases[k] == b;
      var t := Survivors(sorted)[k];
      assert t in sorted;
      assert t in multiset(data);
      var i :| 0 <= i < |data| && data[i] == t;
    }
  }

  /** The `KUCOIN:<BASE>USDT` names `get_spot` builds, one per base, in order. */
  function SpotNames(bases: seq<string>): (r: seq<string>)
    ensures |r| == |bases|
  {
    seq(|bases|, k requires 0 <= k < |bases| => "KUCOIN:" + bases[k] + "USDT")
  }

  /** `get_spot`: an unavailable payload gives the empty list. */
  method GetSpot(fetched: Outcome<seq<Ticker>>) returns (tickers: seq<string>)
    requires fetched.Success? ==> WellFormed(fetched.value)
    ensures fetched.Failure? ==> tickers == []
    ensures fetched.Success? ==>
              |tickers| == |Ranked(fetched.value)|
              && forall k :: 0 <= k < |tickers| ==>
                   tickers[k] == "KUCOIN:" + Base(Ranked(fetched.value)[k].symbol) + "USDT"
  {
    match fetched {
      case Success(data) =>
        var bases := ProcessData(data);
        tickers := SpotNames(bases);
      case Failure =>
        tickers := [];
    }
  }

  /** Every pattern begins with `2`, `3` or `D`, so a base without those
      characters is leveraged only through an `UP` suffix. */
  lemma PlainBaseNotLeveraged(base: string)
    requires '2' !in base && '3' !in base && 'D' !in base
    requires !EndsWith(base, "UP")
    ensures !IsLeveraged(base)
  {
    forall p | p in LeveragedPatterns
      ensures !Contains(base, p)
    {
      if Contains(base, p) {
        ContainsFirstChar(base, p);
      }
    }
    if |base| >= 4 {
      assert base[|base| - 4] == base[|base| - 4..][0] && base[|base| - 4] in base;
    }
  }

  /** An occurrence of a pattern anywhere in a base flags it. */
  lemma PatternFlagsBase(base: string, p: string, i: nat)
    requires p in LeveragedPatterns && OccursAt(base, p, i)
    ensures IsLeveraged(base)
  {
    ContainsAt(base, p);
  }

  /** Ordinary bases pass, `SUPER` included: `UP` inside a base is not a suffix. */
  lemma OrdinaryBasesKept()
    ensures !IsLeveraged("SUPER") && !IsLeveraged("BTC") && !IsLeveraged("ETH")
  {
    PlainBaseNotLeveraged("SUPER");
    PlainBaseNotLeveraged("BTC");
    PlainBaseNotLeveraged("ETH");
  }

  /** A directional suffix flags any base: `JUP`, `WLDUP`, `BTCDOWN`. */
  lemma DirectionalSuffixFlagged(stem: string)
    ensures IsLeveraged(stem + "UP") && IsLeveraged(stem + "DOWN")
  {
    assert (stem + "UP")[|stem|..] == "UP";
    assert (stem + "DOWN")[|stem|..] == "DOWN";
  }

  /** A leverage marker anywhere in a base flags it: `BTC3L`, `BTC3S`,
      `BTC2L`, `BTC2S`, and equally with text after the marker. */
  lemma MarkerFlagged(stem: string, p: string, rest: string)
    requires p in LeveragedPatterns
    ensures IsLeveraged(stem + p + rest)
  {
    var base := stem + p + rest;
    assert base[|stem|..|stem| + |p|] == p;
    PatternFlagsBase(base, p, |stem|);
  }
}
