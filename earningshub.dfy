/** Earnings Hub weekly calendar (src/exchanges/earningshub.rs): collect the
    ticker named by the `symbol=` query parameter of every calendar link, in
    document order, keeping only the first occurrence of each ticker. */
module EarningsHub {
  import Seqs
  import opened Text
  import opened Fetch

  datatype Option<+T> = None | Some(value: T)

  // ---------------------------------------------------------------------
  // The pattern `[?&]symbol=([A-Z0-9.-]+)`
  // ---------------------------------------------------------------------

  predicate SymbolChar(c: char) {
    ('A' <= c <= 'Z') || ('0' <= c <= '9') || c == '.' || c == '-'
  }

  predicate Introducer(c: char) {
    c == '?' || c == '&'
  }

  const Key: string := "symbol="

  /** The pattern matches at `i`: `?` or `&`, then `symbol=`, then at least
      one symbol character. */
  predicate MatchAt(s: string, i: nat) {
    i + 8 < |s| && Introducer(s[i]) && s[i + 1..i + 8] == Key && SymbolChar(s[i + 8])
  }

  /** The length of the run of symbol characters that starts at `j`. */
  function RunLength(s: string, j: nat): (n: nat)
    requires j <= |s|
    ensures j + n <= |s|
    ensures forall k :: j <= k < j + n ==> SymbolChar(s[k])
    ensures j + n == |s| || !SymbolChar(s[j + n])
    decreases |s| - j
  {
    if j == |s| || !SymbolChar(s[j]) then 0 else 1 + RunLength(s, j + 1)
  }

  /** The greedy capture group of the match at `i`: non-empty, made of symbol
      characters only, right after `?symbol=` or `&symbol=`, and as long as
      possible. */
  function Capture(s: string, i: nat): (c: string)
    requires MatchAt(s, i)
    ensures |c| >= 1 && i + 8 + |c| <= |s|
    ensures c == s[i + 8..i + 8 + |c|]
    ensures s[i..i + 8] == "?symbol=" || s[i..i + 8] == "&symbol="
    ensures forall k :: 0 <= k < |c| ==> SymbolChar(c[k])
    ensures i + 8 + |c| == |s| || !SymbolChar(s[i + 8 + |c|])
  {
    assert s[i..i + 8] == [s[i]] + s[i + 1..i + 8];
    s[i + 8..i + 8 + RunLength(s, i + 8)]
  }

  /** The leftmost match at or after `from`, as a regular-expression search
      reports it. */
  function Search(s: string, from: nat): (m: Option<nat>)
    ensures m.Some? ==> from <= m.value && MatchAt(s, m.value)
    ensures m.Some? ==> forall k: nat :: from <= k < m.value ==> !MatchAt(s, k)
    ensures m.None? ==> forall k: nat :: from <= k ==> !MatchAt(s, k)
    decreases |s| - from
  {
    if |s| <= from then None
    else if MatchAt(s, from) then Some(from)
    else Search(s, from + 1)
  }

  /** `href.match(/[?&]symbol=([A-Z0-9.-]+)/)`, reduced to its capture group. */
  function Match(href: string): (m: Option<string>)
    ensures m.None? ==> forall k: nat :: !MatchAt(href, k)
    ensures m.Some? ==> |m.value| >= 1 && forall k :: 0 <= k < |m.value| ==> SymbolChar(m.value[k])
  {
    match Search(href, 0)
    case Some(i) => Some(Capture(href, i))
    case None => None
  }

  /** Every match in `s` from `from` on, left to right and non-overlapping,
      as `captures_iter` yields them. */
  function AllMatches(s: string, from: nat): (r: seq<string>)
    decreases |s| - from
  {
    match Search(s, from)
    case Some(i) => [Capture(s, i)] + AllMatches(s, i + 8 + |Capture(s, i)|)
    case None => []
  }

  /** A link whose query is `?symbol=<TICKER>` at the end of the href yields
      exactly that ticker, whatever path precedes it. */
  lemma MatchAfterPath(path: string, ticker: string)
    requires forall k :: 0 <= k < |path| ==> !Introducer(path[k])
    requires |ticker| >= 1 && forall k :: 0 <= k < |ticker| ==> SymbolChar(ticker[k])
    ensures Match(path + "?symbol=" + ticker) == Some(ticker)
  {
    var s := path + "?symbol=" + ticker;
    var i := |path|;
    assert s[i + 1..i + 8] == Key;
    assert s[i + 8] == ticker[0];
    assert MatchAt(s, i);
    forall k: nat | k < i
      ensures !MatchAt(s, k)
    {
      assert s[k] == path[k];
    }
    assert Search(s, 0) == Some(i);
    assert s[i + 8..] == ticker;
    forall k | i + 8 <= k < |s|
      ensures SymbolChar(s[k])
    {
      assert s[k] == ticker[k - (i + 8)];
    }
    var c := Capture(s, i);
    assert i + 8 + |c| == |s|;
    assert c == s[i + 8..];
    assert Match(s) == Some(c);
  }

  // ---------------------------------------------------------------------
  // Keeping the first occurrence
  // ---------------------------------------------------------------------

  /** The entries of `xs` without repeats, each at its first occurrence. */
  function FirstSeen(xs: seq<string>): (r: seq<string>)
    ensures |r| <= |xs|
  {
    if xs == [] then []
    else
      var init := FirstSeen(xs[..|xs| - 1]);
      if xs[|xs| - 1] in xs[..|xs| - 1] then init else init + [xs[|xs| - 1]]
  }

  /** The position of the first occurrence of `x` in `xs`. */
  function FirstIndex(xs: seq<string>, x: string): (i: nat)
    requires x in xs
    ensures i < |xs| && xs[i] == x && x !in xs[..i]
  {
    if xs[0] == x then 0
    else
      var i := FirstIndex(xs[1..], x);
      assert xs[..i + 1] == [xs[0]] + xs[1..][..i];
      i + 1
  }

  lemma FirstIndexPrefix(xs: seq<string>, y: string, x: string)
    requires x in xs
    ensures FirstIndex(xs + [y], x) == FirstIndex(xs, x)
  {
    var zs := xs + [y];
    var i, j := FirstIndex(zs, x), FirstIndex(xs, x);
    assert zs[..j] == xs[..j];
    assert zs[j] == x;
    assert forall k :: 0 <= k < j ==> zs[..j][k] != x;
    assert forall k :: 0 <= k < i ==> zs[..i][k] == zs[k];
  }

  /** Nothing captured is lost and nothing is invented. */
  lemma {:induction false} FirstSeenElements(xs: seq<string>)
    ensures forall x :: x in FirstSeen(xs) <==> x in xs
  {
    if xs != [] {
      var init := xs[..|xs| - 1];
      FirstSeenElements(init);
      assert xs == init + [xs[|xs| - 1]];
    }
  }

  /** No ticker appears twice. */
  lemma {:induction false} FirstSeenDistinct(xs: seq<string>)
    ensures forall i, j :: 0 <= i < j < |FirstSeen(xs)| ==> FirstSeen(xs)[i] != FirstSeen(xs)[j]
  {
    if xs != [] {
      var init := xs[..|xs| - 1];
      FirstSeenDistinct(init);
      FirstSeenElements(init);
    }
  }

  lemma FirstIndexLast(xs: seq<string>, x: string)
    requires x !in xs
    ensures FirstIndex(xs + [x], x) == |xs|
  {
    var zs := xs + [x];
    assert zs[..|xs|] == xs;
    var i := FirstIndex(zs, x);
    assert forall k :: 0 <= k < |xs| ==> zs[k] == xs[k];
  }

  /** `r` lists entries of `xs` in the order of their first occurrence in `xs`. */
  predicate InFirstOccurrenceOrder(xs: seq<string>, r: seq<string>)
    requires forall x :: x in r ==> x in xs
  {
    forall i, j :: 0 <= i < j < |r| ==> FirstIndex(xs, r[i]) < FirstIndex(xs, r[j])
  }

  lemma OrderExtend(xs: seq<string>, r: seq<string>, y: string)
    requires forall x :: x in r ==> x in xs
    requires InFirstOccurrenceOrder(xs, r)
    ensures forall x :: x in r ==> x in xs + [y]
    ensures InFirstOccurrenceOrder(xs + [y], r)
  {
    forall x | x in r
      ensures FirstIndex(xs + [y], x) == FirstIndex(xs, x)
    {
      FirstIndexPrefix(xs, y, x);
    }
    assert forall i :: 0 <= i < |r| ==> r[i] in r;
  }

  lemma OrderAppendNew(xs: seq<string>, r: seq<string>, y: string)
    requires y !in xs
    requires forall x :: x in r ==> x in xs
    requires InFirstOccurrenceOrder(xs + [y], r)
    ensures forall x :: x in r + [y] ==> x in xs + [y]
    ensures InFirstOccurrenceOrder(xs + [y], r + [y])
  {
    FirstIndexLast(xs, y);
    var r' := r + [y];
    forall i, j | 0 <= i < j < |r'|
      ensures FirstIndex(xs + [y], r'[i]) < FirstIndex(xs + [y], r'[j])
    {
      assert r'[i] == r[i] && r[i] in r;
      FirstIndexPrefix(xs, y, r[i]);
      if j < |r| {
        assert r'[j] == r[j];
      }
    }
  }

  /** Tickers come out in the order of their first occurrence. */
  lemma {:induction false} FirstSeenOrder(xs: seq<string>)
    ensures forall x :: x in FirstSeen(xs) ==> x in xs
    ensures InFirstOccurrenceOrder(xs, FirstSeen(xs))
  {
    FirstSeenElements(xs);
    if xs != [] {
      var init, last := xs[..|xs| - 1], xs[|xs| - 1];
      assert xs == init + [last];
      FirstSeenOrder(init);
      FirstSeenElements(init);
      OrderExtend(init, FirstSeen(init), last);
      if last !in init {
        OrderAppendNew(init, FirstSeen(init), last);
      }
    }
  }

  /** The shape of the calendar fixture: `x, y, x, z` with three distinct
      tickers becomes `x, y, z` (AAPL, MSFT, AAPL, TSLA gives AAPL, MSFT, TSLA). */
  lemma RepeatDropped(x: string, y: string, z: string)
    requires x != y && x != z && y != z
    ensures FirstSeen([x, y, x, z]) == [x, y, z]
  {
    var xs := [x, y, x, z];
    assert xs[..3][..2][..1][..0] == [];
    assert FirstSeen(xs[..3][..2][..1]) == [x];
    assert FirstSeen(xs[..3][..2]) == [x, y];
    assert FirstSeen(xs[..3]) == [x, y];
  }

  // ---------------------------------------------------------------------
  // The page script and its Rust mirror
  // ---------------------------------------------------------------------

  /** The `a[href*="?symbol="]` selector. */
  predicate Selected(href: string) {
    Contains(href, "?symbol=")
  }

  predicate Captured(href: string) {
    Selected(href) && Match(href).Some?
  }

  function CaptureOf(href: string): string {
    match Match(href)
    case Some(c) => c
    case None => []
  }

  /** The capture of every selected link that matches, in document order,
      repeats included. */
  function Captures(hrefs: seq<string>): seq<string> {
    Seqs.FilterMap(Captured, CaptureOf, hrefs)
  }

  /** Every capture is a non-empty run of symbol characters taken from a
      selected link, and every selected link that matches contributes its
      capture. */
  lemma CapturesSoundComplete(hrefs: seq<string>)
    ensures forall c :: c in Captures(hrefs) ==> |c| >= 1 && forall k :: 0 <= k < |c| ==> SymbolChar(c[k])
    ensures forall c :: c in Captures(hrefs) ==>
              exists i :: 0 <= i < |hrefs| && Contains(hrefs[i], "?symbol=") && Match(hrefs[i]) == Some(c)
    ensures forall i :: 0 <= i < |hrefs| && Contains(hrefs[i], "?symbol=") && Match(hrefs[i]).Some? ==>
              Match(hrefs[i]).value in Captures(hrefs)
  {
    Seqs.FilterMapSound(Captured, CaptureOf, hrefs);
    Seqs.FilterMapComplete(Captured, CaptureOf, hrefs);
  }

  /** Walking one more link extends the captures by that link's capture, if any. */
  lemma CapturesStep(hrefs: seq<string>, k: nat)
    requires k < |hrefs|
    ensures Captures(hrefs[..k + 1])
         == Captures(hrefs[..k]) + (if Captured(hrefs[k]) then [CaptureOf(hrefs[k])] else [])
  {
    assert hrefs[..k + 1] == hrefs[..k] + [hrefs[k]];
    Seqs.FilterMapAppend(Captured, CaptureOf, hrefs[..k], [hrefs[k]]);
  }

  /** One more capture is appended exactly when it has not been seen. */
  lemma FirstSeenStep(xs: seq<string>, x: string)
    ensures FirstSeen(xs + [x]) == if x in xs then FirstSeen(xs) else FirstSeen(xs) + [x]
  {
    assert (xs + [x])[..|xs|] == xs;
  }

  /** A calendar link `<path>?symbol=<TICKER>` is selected and captured as
      `<TICKER>`. */
  lemma LinkCaptured(path: string, ticker: string)
    requires forall k :: 0 <= k < |path| ==> !Introducer(path[k])
    requires |ticker| >= 1 && forall k :: 0 <= k < |ticker| ==> SymbolChar(ticker[k])
    ensures Captured(path + "?symbol=" + ticker)
    ensures CaptureOf(path + "?symbol=" + ticker) == ticker
  {
    var href := path + "?symbol=" + ticker;
    assert OccursAt(href, "?symbol=", |path|);
    ContainsAt(href, "?symbol=");
    MatchAfterPath(path, ticker);
  }

  /** The links of the calendar fixture, `x, y, x, z` on a common path with
      three distinct tickers, give `x, y, z`. */
  lemma DedupExample(path: string, x: string, y: string, z: string)
    requires forall k :: 0 <= k < |path| ==> !Introducer(path[k])
    requires |x| >= 1 && forall k :: 0 <= k < |x| ==> SymbolChar(x[k])
    requires |y| >= 1 && forall k :: 0 <= k < |y| ==> SymbolChar(y[k])
    requires |z| >= 1 && forall k :: 0 <= k < |z| ==> SymbolChar(z[k])
    requires x != y && x != z && y != z
    ensures FirstSeen(Captures([path + "?symbol=" + x, path + "?symbol=" + y,
                                path + "?symbol=" + x, path + "?symbol=" + z]))
         == [x, y, z]
  {
    var lx, ly, lz := path + "?symbol=" + x, path + "?symbol=" + y, path + "?symbol=" + z;
    LinkCaptured(path, x);
    LinkCaptured(path, y);
    LinkCaptured(path, z);
    FixtureCaptures(lx, ly, lz, x, y, z);
    RepeatDropped(x, y, z);
  }

  lemma FixtureCaptures(lx: string, ly: string, lz: string, x: string, y: string, z: string)
    requires Captured(lx) && CaptureOf(lx) == x
    requires Captured(ly) && CaptureOf(ly) == y
    requires Captured(lz) && CaptureOf(lz) == z
    ensures Seqs.FilterMap(Captured, CaptureOf, [lx, ly, lx, lz]) == [x, y, x, z]
  {
    var links := [lx, ly, lx, lz];
    Seqs.FilterMapAllKept(Captured, CaptureOf, links);
  }

  /** `extract_tickers`: the page script walks the links in document order,
      keeps a set of tickers already seen and appends each new capture; a
      script or decoding failure gives the empty list. */
  method ExtractTickers(page: Outcome<seq<string>>) returns (tickers: seq<string>)
    ensures page.Failure? ==> tickers == []
    ensures page.Success? ==> tickers == FirstSeen(Captures(page.value))
  {
    if page.Failure? {
      return [];
    }
    var hrefs := page.value;
    var symbols: seq<string> := [];
    var seen: set<string> := {};
    for k := 0 to |hrefs|
      invariant symbols == FirstSeen(Captures(hrefs[..k]))
      invariant forall x :: x in seen <==> x in Captures(hrefs[..k])
    {
      var href := hrefs[k];
      ghost var prior := Captures(hrefs[..k]);
      CapturesStep(hrefs, k);
      if Selected(href) {
        var m := Match(href);
        if m.Some? {
          assert Captured(href) && CaptureOf(href) == m.value;
          assert Captures(hrefs[..k + 1]) == prior + [m.value];
          FirstSeenStep(prior, m.value);
          if m.value != [] && m.value !in seen {
            symbols := symbols + [m.value];
            seen := seen + {m.value};
          }
        } else {
          assert Captures(hrefs[..k + 1]) == prior;
        }
      } else {
        assert Captures(hrefs[..k + 1]) == prior;
      }
    }
    assert hrefs[..|hrefs|] == hrefs;
    tickers := symbols;
  }

  /** The same walk over the raw page text, as the Rust tests perform it over
      `captures_iter`. */
  method ExtractFromText(html: string) returns (tickers: seq<string>)
    ensures tickers == FirstSeen(AllMatches(html, 0))
  {
    var captures := AllMatches(html, 0);
    var seen: set<string> := {};
    tickers := [];
    for k := 0 to |captures|
      invariant tickers == FirstSeen(captures[..k])
      invariant forall x :: x in seen <==> x in captures[..k]
    {
      var symbol := captures[k];
      assert captures[..k + 1] == captures[..k] + [symbol];
      FirstSeenStep(captures[..k], symbol);
      if symbol !in seen {
        tickers := tickers + [symbol];
        seen := seen + {symbol};
      }
    }
    assert captures[..|captures|] == captures;
  }

  /** A non-empty run of symbol characters. */
  predicate SymbolRun(c: string) {
    |c| >= 1 && forall k :: 0 <= k < |c| ==> SymbolChar(c[k])
  }

  /** `c` is the capture of a match that starts at or after `from`. */
  ghost predicate CapturedFrom(s: string, from: nat, c: string) {
    exists i :: from <= i && MatchAt(s, i) && c == Capture(s, i)
  }

  /** Every ticker the text walk yields is a non-empty run of symbol
      characters that follows `?symbol=` or `&symbol=` in the text. */
  lemma {:induction false} AllMatchesWellFormed(s: string, from: nat)
    ensures forall c :: c in AllMatches(s, from) ==> SymbolRun(c) && CapturedFrom(s, from, c)
    decreases |s| - from
  {
    var m := Search(s, from);
    if m.Some? {
      var i := m.value;
      assert from <= i && MatchAt(s, i);
      var first := Capture(s, i);
      var next := i + 8 + |first|;
      var rest := AllMatches(s, next);
      assert AllMatches(s, from) == [first] + rest;
      AllMatchesWellFormed(s, next);
      FirstCaptureFrom(s, from, i);
      forall c | c in rest
        ensures CapturedFrom(s, from, c)
      {
        var j :| next <= j && MatchAt(s, j) && c == Capture(s, j);
        assert from <= j;
      }
    } else {
      assert AllMatches(s, from) == [];
    }
  }

  lemma FirstCaptureFrom(s: string, from: nat, i: nat)
    requires from <= i && MatchAt(s, i)
    ensures SymbolRun(Capture(s, i)) && CapturedFrom(s, from, Capture(s, i))
  {
  }
}
