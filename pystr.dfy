/**
 * The Python string operations the humanizer relies on, written out on
 * `seq<char>`: whitespace splitting (`str.split()`), `str.strip()`,
 * `str.join`, substring search (`in`), `str.replace` with and without a
 * count, `str.split(sep)`, `str.lower()` and `str.capitalize()`.
 * Case mapping covers the ASCII letters only.
 */
module PyStr {
  import opened Wrappers

  // ---------------------------------------------------------------------
  // Character classes
  // ---------------------------------------------------------------------

  /** Python's `str.isspace()` on one character (also what `\s` matches in `re`). */
  predicate IsSpace(c: char) {
    var n := c as int;
    (9 <= n <= 13) || (28 <= n <= 32) || n == 0x85 || n == 0xA0 || n == 0x1680
    || (0x2000 <= n <= 0x200A) || n == 0x2028 || n == 0x2029 || n == 0x202F
    || n == 0x205F || n == 0x3000
  }

  ghost predicate AllSpace(s: string) {
    forall i :: 0 <= i < |s| ==> IsSpace(s[i])
  }

  ghost predicate NoSpace(s: string) {
    forall i :: 0 <= i < |s| ==> !IsSpace(s[i])
  }

  /** A token as `str.split()` produces it: non-empty, no whitespace inside. */
  ghost predicate IsWord(w: string) {
    w != [] && NoSpace(w)
  }

  /** The characters of `s` that are not whitespace, in order. */
  function NonSpace(s: string): string {
    if s == [] then []
    else if IsSpace(s[0]) then NonSpace(s[1..])
    else [s[0]] + NonSpace(s[1..])
  }

  lemma {:induction false} NonSpaceAppend(a: string, b: string)
    ensures NonSpace(a + b) == NonSpace(a) + NonSpace(b)
  {
    if a == [] {
      assert a + b == b;
    } else {
      assert (a + b)[0] == a[0];
      assert (a + b)[1..] == a[1..] + b;
      NonSpaceAppend(a[1..], b);
    }
  }

  lemma {:induction false} NonSpaceOfAllSpace(s: string)
    ensures AllSpace(s) <==> NonSpace(s) == []
  {
    if s != [] {
      NonSpaceOfAllSpace(s[1..]);
      if !IsSpace(s[0]) {
        assert NonSpace(s)[0] == s[0];
      } else {
        assert forall i :: 1 <= i < |s| ==> s[i] == s[1..][i - 1];
      }
    }
  }

  function Concat(xs: seq<string>): string {
    if xs == [] then [] else xs[0] + Concat(xs[1..])
  }

  lemma {:induction false} ConcatAppend(xs: seq<string>, ys: seq<string>)
    ensures Concat(xs + ys) == Concat(xs) + Concat(ys)
  {
    if xs == [] {
      assert xs + ys == ys;
    } else {
      assert (xs + ys)[0] == xs[0];
      assert (xs + ys)[1..] == xs[1..] + ys;
      ConcatAppend(xs[1..], ys);
    }
  }

  /** A property holds of every element exactly when it holds of the head and of every element of the tail. */
  lemma AllCons<T>(xs: seq<T>, P: T -> bool)
    requires xs != []
    ensures (forall k :: 0 <= k < |xs| ==> P(xs[k])) <==> P(xs[0]) && forall k :: 0 <= k < |xs[1..]| ==> P(xs[1..][k])
  {
    assert forall k :: 1 <= k < |xs| ==> xs[k] == xs[1..][k - 1];
  }

  // ---------------------------------------------------------------------
  // str.split() -- whitespace splitting
  // ---------------------------------------------------------------------

  /** Length of the leading run of non-whitespace characters. */
  function SpanWord(s: string): (n: nat)
    ensures n <= |s|
    ensures forall i :: 0 <= i < n ==> !IsSpace(s[i])
    ensures n < |s| ==> IsSpace(s[n])
  {
    if s == [] || IsSpace(s[0]) then 0 else 1 + SpanWord(s[1..])
  }

  /** `s.split()`: the maximal runs of non-whitespace characters. */
  function Words(s: string): (r: seq<string>)
    ensures forall k :: 0 <= k < |r| ==> IsWord(r[k])
    decreases |s|
  {
    if s == [] then []
    else if IsSpace(s[0]) then Words(s[1..])
    else
      var n := SpanWord(s);
      [s[..n]] + Words(s[n..])
  }

  lemma {:induction false} SpanWordAppend(a: string, t: string)
    ensures SpanWord(a) < |a| ==> SpanWord(a + t) == SpanWord(a)
    ensures SpanWord(a) == |a| ==> SpanWord(a + t) == |a| + SpanWord(t)
  {
    if a == [] {
      assert a + t == t;
    } else if !IsSpace(a[0]) {
      assert (a + t)[0] == a[0];
      assert (a + t)[1..] == a[1..] + t;
      SpanWordAppend(a[1..], t);
    }
  }

  /** A leading whitespace character of `a` starts no token of `a + t`. */
  lemma WordsSkipSpace(a: string, t: string)
    requires a != [] && IsSpace(a[0])
    ensures Words(a + t) == Words(a[1..] + t)
  {
    assert (a + t)[0] == a[0];
    assert (a + t)[1..] == a[1..] + t;
  }

  /** A leading token of `a` stays the leading token of `a + " " + b`. */
  lemma WordsTakeWord(a: string, b: string)
    requires a != [] && !IsSpace(a[0])
    ensures Words(a + " " + b) == [a[..SpanWord(a)]] + Words(a[SpanWord(a)..] + " " + b)
  {
    var m := SpanWord(a);
    var s := a + " " + b;
    SpanWordAppend(a, " " + b);
    assert SpanWord(" " + b) == 0;
    assert a + " " + b == a + (" " + b);
    assert SpanWord(s) == m;
    assert s[0] == a[0];
    assert Words(s) == [s[..m]] + Words(s[m..]);
    assert s[..m] == a[..m];
    assert s[m..] == a[m..] + " " + b;
  }

  /** Joining two strings with a space never merges or loses tokens. */
  lemma {:induction false} WordsSpaceJoin(a: string, b: string)
    ensures Words(a + " " + b) == Words(a) + Words(b)
    decreases |a|
  {
    var t := " " + b;
    assert a + " " + b == a + t;
    if a == [] {
      assert a + t == t;
      assert t[1..] == b;
    } else if IsSpace(a[0]) {
      WordsSkipSpace(a, t);
      WordsSpaceJoin(a[1..], b);
      assert a[1..] + " " + b == a[1..] + t;
    } else {
      var m := SpanWord(a);
      WordsTakeWord(a, b);
      WordsSpaceJoin(a[m..], b);
      assert a[m..] + " " + b == a[m..] + t;
    }
  }

  lemma WordsOfWord(w: string)
    requires IsWord(w)
    ensures Words(w) == [w]
  {
    assert SpanWord(w) == |w|;
    assert w[..|w|] == w;
    assert w[|w|..] == [];
  }

  lemma {:induction false} WordsEmptyIffAllSpace(s: string)
    ensures Words(s) == [] <==> AllSpace(s)
    decreases |s|
  {
    if s != [] {
      if IsSpace(s[0]) {
        WordsEmptyIffAllSpace(s[1..]);
        assert forall i :: 1 <= i < |s| ==> s[i] == s[1..][i - 1];
      }
    }
  }

  /** Tokenising a space-joined list of tokens gives the list back. */
  lemma {:induction false} WordsOfJoin(ws: seq<string>)
    requires forall k :: 0 <= k < |ws| ==> IsWord(ws[k])
    ensures Words(JoinWith(" ", ws)) == ws
  {
    if |ws| == 1 {
      WordsOfWord(ws[0]);
    } else if |ws| > 1 {
      WordsSpaceJoin(ws[0], JoinWith(" ", ws[1..]));
      WordsOfWord(ws[0]);
      WordsOfJoin(ws[1..]);
    }
  }

  /** Tokenising drops exactly the whitespace: no other character is lost. */
  lemma {:induction false} WordsKeepNonSpace(s: string)
    ensures Concat(Words(s)) == NonSpace(s)
    decreases |s|
  {
    if s != [] {
      if IsSpace(s[0]) {
        WordsKeepNonSpace(s[1..]);
      } else {
        var n := SpanWord(s);
        WordsKeepNonSpace(s[n..]);
        NoSpaceNonSpace(s[..n]);
        assert s == s[..n] + s[n..];
        NonSpaceAppend(s[..n], s[n..]);
        assert Concat([s[..n]] + Words(s[n..])) == s[..n] + Concat(Words(s[n..]));
      }
    }
  }

  lemma {:induction false} NoSpaceNonSpace(s: string)
    requires NoSpace(s)
    ensures NonSpace(s) == s
  {
    if s != [] {
      NoSpaceNonSpace(s[1..]);
    }
  }

  // ---------------------------------------------------------------------
  // str.join
  // ---------------------------------------------------------------------

  /** `sep.join(xs)`. */
  function JoinWith(sep: string, xs: seq<string>): string {
    if |xs| == 0 then ""
    else if |xs| == 1 then xs[0]
    else xs[0] + sep + JoinWith(sep, xs[1..])
  }

  /** Joining two non-empty lists one after the other puts one separator between them. */
  lemma {:induction false} JoinWithAppend(sep: string, xs: seq<string>, ys: seq<string>)
    requires xs != [] && ys != []
    ensures JoinWith(sep, xs + ys) == JoinWith(sep, xs) + sep + JoinWith(sep, ys)
  {
    if |xs| == 1 {
      assert (xs + ys)[1..] == ys;
    } else {
      JoinWithAppend(sep, xs[1..], ys);
      assert (xs + ys)[1..] == xs[1..] + ys;
    }
  }

  // ---------------------------------------------------------------------
  // str.strip()
  // ---------------------------------------------------------------------

  function LStrip(s: string): (r: string)
    ensures |r| <= |s| && r == s[|s| - |r|..]
    ensures AllSpace(s[..|s| - |r|])
    ensures r != [] ==> !IsSpace(r[0])
  {
    if s != [] && IsSpace(s[0]) then
      var r := LStrip(s[1..]);
      assert s[|s| - |r|..] == s[1..][|s| - 1 - |r|..];
      assert forall i :: 0 <= i < |s| - |r| ==> i == 0 || s[i] == s[1..][..|s| - 1 - |r|][i - 1];
      r
    else s
  }

  function RStrip(s: string): (r: string)
    ensures |r| <= |s| && r == s[..|r|]
    ensures AllSpace(s[|r|..])
    ensures r != [] ==> !IsSpace(r[|r| - 1])
  {
    if s != [] && IsSpace(s[|s| - 1]) then
      var r := RStrip(s[..|s| - 1]);
      assert forall i :: |r| <= i < |s| ==> i == |s| - 1 || s[i] == s[..|s| - 1][i];
      r
    else s
  }

  /** `s.strip()`: whitespace removed from both ends. */
  function Strip(s: string): (r: string)
    ensures |r| <= |s|
    ensures r != [] ==> !IsSpace(r[0]) && !IsSpace(r[|r| - 1])
  {
    RStrip(LStrip(s))
  }

  /** What `Strip` keeps is a slice of `s` with nothing but whitespace around it. */
  lemma StripSlice(s: string) returns (i: nat)
    ensures i + |Strip(s)| <= |s| && Strip(s) == s[i..i + |Strip(s)|]
    ensures AllSpace(s[..i]) && AllSpace(s[i + |Strip(s)|..])
  {
    var l := LStrip(s);
    var r := Strip(s);
    i := |s| - |l|;
    assert l == s[i..];
    assert r == l[..|r|];
    assert r == s[i..i + |r|];
    assert s[i + |r|..] == l[|r|..];
  }

  lemma StripEmptyIffAllSpace(s: string)
    ensures Strip(s) == [] <==> AllSpace(s)
  {
    var i := StripSlice(s);
    var r := Strip(s);
    if r == [] {
      assert s == s[..i] + s[i..];
      assert forall k :: 0 <= k < |s| ==> (k < i ==> s[k] == s[..i][k]) && (k >= i ==> s[k] == s[i..][k - i]);
    } else {
      assert s[i] == r[0];
    }
  }

  lemma NonSpaceAround(a: string, r: string, b: string)
    requires AllSpace(a) && AllSpace(b)
    ensures NonSpace(a + r + b) == NonSpace(r)
  {
    NonSpaceAppend(a + r, b);
    NonSpaceAppend(a, r);
    NonSpaceOfAllSpace(a);
    NonSpaceOfAllSpace(b);
  }

  lemma SliceAround(s: string, i: nat, n: nat)
    requires i + n <= |s|
    ensures s == s[..i] + s[i..i + n] + s[i + n..]
  {
  }

  /** Stripping removes only whitespace. */
  lemma StripKeepsNonSpace(s: string)
    ensures NonSpace(Strip(s)) == NonSpace(s)
  {
    var i := StripSlice(s);
    var r := Strip(s);
    SliceAround(s, i, |r|);
    NonSpaceAround(s[..i], r, s[i + |r|..]);
  }

  // ---------------------------------------------------------------------
  // Substring search and str.replace
  // ---------------------------------------------------------------------

  ghost predicate OccursAt(s: string, p: string, i: nat) {
    i + |p| <= |s| && s[i..i + |p|] == p
  }

  function FindFrom(s: string, p: string, i: nat): (r: Option<nat>)
    requires i <= |s|
    ensures r.Some? ==> i <= r.value && OccursAt(s, p, r.value)
    ensures r.Some? ==> forall j :: i <= j < r.value ==> !OccursAt(s, p, j)
    ensures r.None? ==> forall j :: i <= j <= |s| ==> !OccursAt(s, p, j)
    decreases |s| - i
  {
    if i + |p| <= |s| && s[i..i + |p|] == p then Some(i)
    else if i == |s| then None
    else FindFrom(s, p, i + 1)
  }

  /** `s.find(p)`, as an option: the first index at which `p` occurs. */
  function Find(s: string, p: string): (r: Option<nat>)
    ensures r.Some? ==> OccursAt(s, p, r.value) && forall j :: 0 <= j < r.value ==> !OccursAt(s, p, j)
    ensures r.None? <==> forall j :: 0 <= j <= |s| ==> !OccursAt(s, p, j)
  {
    FindFrom(s, p, 0)
  }

  /** Python's `p in s` on strings. */
  predicate Contains(s: string, p: string) {
    Find(s, p).Some?
  }

  /** `s.replace(p, rep, 1)`. */
  function ReplaceFirst(s: string, p: string, rep: string): string {
    match Find(s, p)
    case None => s
    case Some(i) => s[..i] + rep + s[i + |p|..]
  }

  /**
   * `s.replace(p, rep, 1)` changes at most one occurrence, the first: everything
   * before it and everything after it is kept, and a string without `p` is kept whole.
   */
  lemma ReplaceFirstAtMostOne(s: string, p: string, rep: string)
    ensures !Contains(s, p) ==> ReplaceFirst(s, p, rep) == s
    ensures Contains(s, p) ==>
      var i := Find(s, p).value;
      var r := ReplaceFirst(s, p, rep);
      |r| == |s| - |p| + |rep| && r[..i] == s[..i] && r[i..i + |rep|] == rep
      && r[i + |rep|..] == s[i + |p|..]
      && (forall j :: 0 <= j < i ==> !OccursAt(s, p, j))
  {
  }

  /** Replacing the first occurrence of `p` by itself changes nothing. */
  lemma ReplaceFirstSelf(s: string, p: string)
    ensures ReplaceFirst(s, p, p) == s
  {
    var f := Find(s, p);
    if f.Some? {
      var i := f.value;
      assert s[i..i + |p|] == p;
      assert s == s[..i] + s[i..i + |p|] + s[i + |p|..];
    }
  }

  /**
   * `s.replace(p, rep)`: find the next occurrence, copy what precedes it and
   * `rep`, and go on after it, so occurrences never overlap. An empty `p`
   * matches before every character and at the end.
   */
  function ReplaceAll(s: string, p: string, rep: string): string
    decreases |s|
  {
    if p == [] then
      (if s == [] then rep else rep + [s[0]] + ReplaceAll(s[1..], p, rep))
    else
      match Find(s, p)
      case None => s
      case Some(i) => s[..i] + rep + ReplaceAll(s[i + |p|..], p, rep)
  }

  /** A string without `p` goes through `s.replace(p, rep)` unchanged. */
  lemma ReplaceAllAbsent(s: string, p: string, rep: string)
    requires p != [] && !Contains(s, p)
    ensures ReplaceAll(s, p, rep) == s
  {
  }

  /** `s.replace(p, rep)` and `s.replace(p, rep, 1)` agree up to the end of the
      first replacement. */
  lemma ReplaceAllExtendsFirst(s: string, p: string, rep: string)
    requires p != [] && Contains(s, p)
    ensures var i := Find(s, p).value;
      ReplaceAll(s, p, rep)[..i + |rep|] == ReplaceFirst(s, p, rep)[..i + |rep|]
  {
  }

  /** One step of `s.replace(p, rep)` for a non-empty `p`. */
  lemma ReplaceAllStep(s: string, p: string, rep: string) returns (i: nat)
    requires p != [] && Contains(s, p)
    ensures i == Find(s, p).value && i + |p| <= |s| && s[i..i + |p|] == p
    ensures ReplaceAll(s, p, rep) == s[..i] + rep + ReplaceAll(s[i + |p|..], p, rep)
  {
    i := Find(s, p).value;
  }

  // ---------------------------------------------------------------------
  // str.split(sep) with a one-character separator
  // ---------------------------------------------------------------------

  function CountChar(s: string, c: char): nat {
    if s == [] then 0 else (if s[0] == c then 1 else 0) + CountChar(s[1..], c)
  }

  /** `s.split(c)`: the pieces between the separators, empty pieces included. */
  function SplitOn(s: string, c: char): (r: seq<string>)
    ensures |r| >= 1
  {
    if s == [] then [""]
    else
      var rest := SplitOn(s[1..], c);
      if s[0] == c then [""] + rest else [[s[0]] + rest[0]] + rest[1..]
  }

  /** There is one more piece than separators, no piece holds the separator, and
      joining the pieces with the separator gives the string back. */
  lemma {:induction false} SplitOnRoundTrip(s: string, c: char)
    ensures |SplitOn(s, c)| == CountChar(s, c) + 1
    ensures forall k :: 0 <= k < |SplitOn(s, c)| ==> c !in SplitOn(s, c)[k]
    ensures JoinWith([c], SplitOn(s, c)) == s
  {
    if s != [] {
      SplitOnRoundTrip(s[1..], c);
      var rest := SplitOn(s[1..], c);
      if s[0] == c {
        assert JoinWith([c], [""] + rest) == "" + [c] + JoinWith([c], rest);
      } else {
        var r := SplitOn(s, c);
        assert r == [[s[0]] + rest[0]] + rest[1..];
        forall k | 0 <= k < |r| ensures c !in r[k] {
          if k > 0 {
            assert r[k] == rest[k];
          } else {
            assert c !in rest[0];
          }
        }
        if |rest| == 1 {
          assert JoinWith([c], r) == [s[0]] + rest[0];
        } else {
          assert JoinWith([c], r) == [s[0]] + rest[0] + [c] + JoinWith([c], rest[1..]);
        }
      }
    }
  }

  // ---------------------------------------------------------------------
  // Case mapping (ASCII letters)
  // ---------------------------------------------------------------------

  function LowerChar(c: char): char {
    if 'A' <= c <= 'Z' then (c as int + 32) as char else c
  }

  function UpperChar(c: char): char {
    if 'a' <= c <= 'z' then (c as int - 32) as char else c
  }

  /** `s.lower()`. */
  function Lower(s: string): (r: string)
    ensures |r| == |s|
    ensures forall i :: 0 <= i < |s| ==> r[i] == LowerChar(s[i])
  {
    if s == [] then [] else [LowerChar(s[0])] + Lower(s[1..])
  }

  /** Lower-casing twice is lower-casing once. */
  lemma LowerIdempotent(s: string)
    ensures Lower(Lower(s)) == Lower(s)
  {
  }

  /** `s.capitalize()`: the first character upper-cased, all the others lower-cased. */
  function Capitalize(s: string): (r: string)
    ensures |r| == |s|
    ensures r != [] ==> r[0] == UpperChar(s[0]) && r[1..] == Lower(s[1..])
  {
    if s == [] then [] else [UpperChar(s[0])] + Lower(s[1..])
  }

  /** Whitespace is unaffected by case mapping, so words survive lower-casing. */
  lemma LowerKeepsSpace(s: string)
    ensures forall i :: 0 <= i < |s| ==> (IsSpace(Lower(s)[i]) <==> IsSpace(s[i]))
  {
  }
}
