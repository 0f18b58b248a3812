/**
 * The detection-evasion passes run on the engine's output: an occasional
 * zero-width space, the dash style, the quote style, and an occasional typo.
 * Each is a static string pass drawing from the random source.
 */
module Evasion {
  import opened Wrappers
  import opened PyStr
  import opened Rand

  const ZeroWidthSpace: char := '\U{200B}'
  const EmDash: char := '\U{2014}'
  const EnDash: char := '\U{2013}'

  /** `s` with every `c` taken out. */
  function Without(s: string, c: char): (r: string)
    ensures |r| + CountChar(s, c) == |s|
  {
    if s == [] then [] else (if s[0] == c then [] else [s[0]]) + Without(s[1..], c)
  }

  lemma {:induction false} WithoutAppend(a: string, b: string, c: char)
    ensures Without(a + b, c) == Without(a, c) + Without(b, c)
    ensures CountChar(a + b, c) == CountChar(a, c) + CountChar(b, c)
    decreases |a|
  {
    if a != [] {
      assert (a + b)[1..] == a[1..] + b;
      WithoutAppend(a[1..], b, c);
    } else {
      assert a + b == b;
    }
  }

  // ---------------------------------------------------------------------
  // add_unicode_variations
  // ---------------------------------------------------------------------

  /** `add_unicode_variations(text, rate)`: on a draw below `rate`, the first space gets a zero-width space after it. */
  function AddUnicodeVariations(text: string, rate: real, g: Rng): (r: (string, Rng))
    ensures r.1 == Skip(g, 1)
  {
    var (u, g1) := Random(g);
    if u < rate then (ReplaceFirst(text, " ", [' ', ZeroWidthSpace]), g1) else (text, g1)
  }

  /**
   * At most one zero-width space is inserted, and taking the zero-width
   * spaces out gives back what taking them out of the input gives; a text
   * without a space, or a rate of 0, is left unchanged.
   */
  lemma UnicodeVariationsInsertAtMostOne(text: string, rate: real, g: Rng)
    ensures var r := AddUnicodeVariations(text, rate, g).0;
      Without(r, ZeroWidthSpace) == Without(text, ZeroWidthSpace)
      && CountChar(text, ZeroWidthSpace) <= CountChar(r, ZeroWidthSpace) <= CountChar(text, ZeroWidthSpace) + 1
    ensures !Contains(text, " ") || rate <= 0.0 ==> AddUnicodeVariations(text, rate, g).0 == text
  {
    var r := AddUnicodeVariations(text, rate, g).0;
    if r != text {
      var i := Find(text, " ").value;
      var ins: string := [' ', ZeroWidthSpace];
      assert text[i..i + 1] == " ";
      assert r == text[..i] + ins + text[i + 1..];
      assert text == text[..i] + " " + text[i + 1..];
      WithoutAppend(text[..i] + ins, text[i + 1..], ZeroWidthSpace);
      WithoutAppend(text[..i], ins, ZeroWidthSpace);
      WithoutAppend(text[..i] + " ", text[i + 1..], ZeroWidthSpace);
      WithoutAppend(text[..i], " ", ZeroWidthSpace);
    }
  }

  // ---------------------------------------------------------------------
  // vary_punctuation
  // ---------------------------------------------------------------------

  /**
   * `vary_punctuation(text)`: every `" - "` becomes an em dash (draw below
   * 0.5) or an en dash between spaces; then, when the text has a double
   * quote, a second draw below 0.3 replaces the first `"` with `"` twice
   * over, which is the same character.
   */
  function VaryPunctuation(text: string, g: Rng): (r: (string, Rng))
    ensures DrewAtMost(g, r.1, 2) && r.1.pos > g.pos
  {
    var (u, g1) := Random(g);
    var dash: string := if u < 0.5 then [' ', EmDash, ' '] else [' ', EnDash, ' '];
    var t := ReplaceAll(text, " - ", dash);
    if Contains(t, "\"") then
      var (v, g2) := Random(g1);
      (if v < 0.3 then ReplaceFirst(ReplaceFirst(t, "\"", "\""), "\"", "\"") else t, g2)
    else (t, g1)
  }

  /** Each character of `r` is the character of `s` at the same place, or the one `rep` puts there in place of an occurrence of `p`. */
  ghost predicate Pointwise(s: string, r: string, p: string, rep: string) {
    |r| == |s| && forall k :: 0 <= k < |s| ==> r[k] == s[k] || Swapped(s, r, k, p, rep)
  }

  /** `p` occurs in `s` at `i`. */
  ghost predicate OccursAt(s: string, p: string, i: nat) {
    i + |p| <= |s| && s[i..i + |p|] == p
  }

  /** Place `k` lies in an occurrence of `p` in `s`, and `r` has there what `rep` has at the same offset. */
  ghost predicate Swapped(s: string, r: string, k: nat, p: string, rep: string)
    requires k < |r|
  {
    exists i: nat :: OccursAt(s, p, i) && i <= k < i + |p| && k - i < |rep| && r[k] == rep[k - i]
  }

  /** An occurrence in a suffix of `s` is an occurrence in `s`. */
  lemma OccursInSuffix(s: string, p: string, n: nat, j: nat)
    requires n <= |s| && OccursAt(s[n..], p, j)
    ensures OccursAt(s, p, n + j)
  {
    assert s[n + j..n + j + |p|] == s[n..][j..j + |p|];
  }

  lemma PointwiseSplice(s: string, i: nat, p: string, rep: string, rtail: string)
    requires |rep| == |p| && OccursAt(s, p, i)
    requires Pointwise(s[i + |p|..], rtail, p, rep)
    ensures Pointwise(s, s[..i] + rep + rtail, p, rep)
  {
    var r := s[..i] + rep + rtail;
    var n := i + |p|;
    var tail := s[n..];
    forall k | 0 <= k < |s| ensures r[k] == s[k] || Swapped(s, r, k, p, rep) {
      if i <= k < n {
        assert s[k] == p[k - i] && r[k] == rep[k - i];
        assert Swapped(s, r, k, p, rep);
      } else if k >= n {
        SplicedTail(s, r, n, tail, rtail, k, p, rep);
      }
    }
  }

  lemma SplicedTail(s: string, r: string, n: nat, tail: string, rtail: string, k: nat, p: string, rep: string)
    requires n <= k < |s| && tail == s[n..] && |r| == |s| && |rtail| == |tail| && r[n..] == rtail
    requires rtail[k - n] == tail[k - n] || Swapped(tail, rtail, k - n, p, rep)
    ensures r[k] == s[k] || Swapped(s, r, k, p, rep)
  {
    assert s[k] == tail[k - n] && r[k] == rtail[k - n];
    if r[k] != s[k] {
      var j: nat :| OccursAt(tail, p, j) && j <= k - n < j + |p| && k - n - j < |rep| && rtail[k - n] == rep[k - n - j];
      OccursInSuffix(s, p, n, j);
      assert Swapped(s, r, k, p, rep);
    }
  }

  /** Replacing a pattern by one of the same length changes the text character by character. */
  lemma {:induction false} ReplaceAllPointwise(s: string, p: string, rep: string)
    requires p != [] && |rep| == |p|
    ensures Pointwise(s, ReplaceAll(s, p, rep), p, rep)
    decreases |s|
  {
    if Contains(s, p) {
      var i := ReplaceAllStep(s, p, rep);
      var tail := s[i + |p|..];
      ReplaceAllPointwise(tail, p, rep);
      PointwiseSplice(s, i, p, rep, ReplaceAll(tail, p, rep));
    } else {
      ReplaceAllAbsent(s, p, rep);
    }
  }

  /** A place a space-padded replacement of `" - "` changed holds the middle of an occurrence. */
  lemma DashInside(text: string, t: string, k: nat, dash: string)
    requires |dash| == 3 && dash[0] == ' ' && dash[2] == ' '
    requires Pointwise(text, t, " - ", dash) && k < |text| && t[k] != text[k]
    ensures 0 < k < |text| - 1 && text[k - 1..k + 2] == " - " && t[k] == dash[1]
  {
    var i: nat :| OccursAt(text, " - ", i) && i <= k < i + 3 && t[k] == dash[k - i];
    assert text[i..i + 3] == " - ";
    assert text[i] == ' ' && text[i + 2] == ' ';
    assert k == i + 1;
    assert text[k - 1..k + 2] == text[i..i + 3];
  }

  /**
   * The punctuation pass only ever turns the hyphen of a `" - "` into an em
   * or en dash: the length is kept and every other character stays where it
   * was. The quote step is the identity, so a text without `" - "` comes
   * back unchanged.
   */
  lemma VaryPunctuationOnlyDashes(text: string, g: Rng)
    ensures var r := VaryPunctuation(text, g).0;
      |r| == |text|
      && forall k :: 0 <= k < |text| ==>
           r[k] == text[k]
           || (0 < k < |text| - 1 && text[k - 1..k + 2] == " - " && (r[k] == EmDash || r[k] == EnDash))
    ensures !Contains(text, " - ") ==> VaryPunctuation(text, g).0 == text
  {
    var (u, g1) := Random(g);
    var dash: string := if u < 0.5 then [' ', EmDash, ' '] else [' ', EnDash, ' '];
    var t := ReplaceAll(text, " - ", dash);
    ReplaceFirstSelf(t, "\"");
    assert VaryPunctuation(text, g).0 == t;
    ReplaceAllPointwise(text, " - ", dash);
    forall k | 0 <= k < |text|
      ensures t[k] == text[k]
              || (0 < k < |text| - 1 && text[k - 1..k + 2] == " - " && (t[k] == EmDash || t[k] == EnDash))
    {
      if t[k] != text[k] {
        DashInside(text, t, k, dash);
      }
    }
    if !Contains(text, " - ") {
      ReplaceAllAbsent(text, " - ", dash);
    }
  }

  // ---------------------------------------------------------------------
  // add_typos
  // ---------------------------------------------------------------------

  const TypoPatterns: seq<(string, string)> := [
    ("the", "teh"), ("and", "adn"), ("you", "yuo"),
    ("that", "taht"), ("with", "wiht"), ("have", "ahve")]

  /**
   * The pattern loop of `add_typos` from pattern `k` on: a draw for each
   * pattern the text contains, and on the first draw below `rate` the first
   * occurrence is swapped and the loop stops.
   */
  function TyposFrom(text: string, rate: real, k: nat, g: Rng): (r: (string, Rng))
    requires k <= |TypoPatterns|
    ensures DrewAtMost(g, r.1, |TypoPatterns| - k)
    decreases |TypoPatterns| - k
  {
    if k == |TypoPatterns| then (text, g)
    else if Contains(text, TypoPatterns[k].0) then
      var (u, g1) := Random(g);
      if u < rate then (ReplaceFirst(text, TypoPatterns[k].0, TypoPatterns[k].1), g1)
      else TyposFrom(text, rate, k + 1, g1)
    else TyposFrom(text, rate, k + 1, g)
  }

  /** `add_typos(text, rate)`. */
  method AddTypos(text: string, rate: real, g: Rng) returns (r: string, g': Rng)
    ensures (r, g') == TyposFrom(text, rate, 0, g)
  {
    r, g' := text, g;
    var k := 0;
    while k < |TypoPatterns|
      invariant 0 <= k <= |TypoPatterns|
      invariant TyposFrom(text, rate, k, g') == TyposFrom(text, rate, 0, g)
    {
      var (correct, typo) := TypoPatterns[k];
      if Contains(text, correct) {
        var u;
        u, g' := Random(g').0, Random(g').1;
        if u < rate {
          r := ReplaceFirst(text, correct, typo);
          break;
        }
      }
      k := k + 1;
    }
  }

  /**
   * At most one typo is made: the result is the text itself or the text with
   * the first occurrence of one pattern, which it contains, swapped; a rate
   * of 0 changes nothing.
   */
  lemma {:induction false} TyposAtMostOne(text: string, rate: real, k: nat, g: Rng) returns (which: Option<nat>)
    requires k <= |TypoPatterns|
    ensures var r := TyposFrom(text, rate, k, g).0;
      match which
      case None => r == text
      case Some(j) => (k <= j < |TypoPatterns| && Contains(text, TypoPatterns[j].0)
        && r == ReplaceFirst(text, TypoPatterns[j].0, TypoPatterns[j].1))
    ensures rate <= 0.0 ==> which == None
    decreases |TypoPatterns| - k
  {
    if k == |TypoPatterns| {
      which := None;
    } else if Contains(text, TypoPatterns[k].0) {
      var (u, g1) := Random(g);
      if u < rate {
        which := Some(k);
      } else {
        which := TyposAtMostOne(text, rate, k + 1, g1);
      }
    } else {
      which := TyposAtMostOne(text, rate, k + 1, g);
    }
  }

  /** A text containing none of the patterns is left unchanged and costs no draw. */
  lemma {:induction false} NoPatternNoTypo(text: string, rate: real, k: nat, g: Rng)
    requires k <= |TypoPatterns|
    requires forall j :: k <= j < |TypoPatterns| ==> !Contains(text, TypoPatterns[j].0)
    ensures TyposFrom(text, rate, k, g) == (text, g)
    decreases |TypoPatterns| - k
  {
    if k < |TypoPatterns| {
      NoPatternNoTypo(text, rate, k + 1, g);
    }
  }

  // ---------------------------------------------------------------------
  // The post-pass of the humanize endpoint
  // ---------------------------------------------------------------------

  /** The punctuation pass, then the zero-width space pass at the default rate when the intensity exceeds 0.8. */
  function PostProcess(text: string, intensity: real, g: Rng): (r: (string, Rng))
  {
    var (t, g1) := VaryPunctuation(text, g);
    if intensity > 0.8 then AddUnicodeVariations(t, 0.001, g1) else (t, g1)
  }

  /**
   * The post-pass keeps the text up to dashes and at most one added
   * zero-width space, and adds none at intensity 0.8 or below.
   */
  lemma PostProcessKeepsText(text: string, intensity: real, g: Rng)
    ensures var t := VaryPunctuation(text, g).0;
      var r := PostProcess(text, intensity, g).0;
      Without(r, ZeroWidthSpace) == Without(t, ZeroWidthSpace)
      && CountChar(r, ZeroWidthSpace) <= CountChar(t, ZeroWidthSpace) + 1
      && (intensity <= 0.8 ==> r == t)
  {
    var (t, g1) := VaryPunctuation(text, g);
    UnicodeVariationsInsertAtMostOne(t, 0.001, g1);
  }
}
