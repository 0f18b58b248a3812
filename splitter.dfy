/**
 * The sentence splitter of the humanizer engine: `re.split(r'(?<=[.!?])\s+', text)`
 * followed by stripping every piece and dropping the empty ones.
 */
module Splitter {
  import opened Wrappers
  import opened PyStr

  predicate IsTerminal(c: char) {
    c == '.' || c == '!' || c == '?'
  }

  /** Position `i` starts a match of `(?<=[.!?])\s+`: whitespace right after a terminal. */
  ghost predicate BoundaryAt(s: string, i: int) {
    0 < i < |s| && IsTerminal(s[i - 1]) && IsSpace(s[i])
  }

  ghost predicate NoBoundary(s: string) {
    forall i :: !BoundaryAt(s, i)
  }

  function FirstBoundaryFrom(s: string, i: nat): (r: Option<nat>)
    requires i >= 1
    ensures r.Some? ==> i <= r.value < |s| && BoundaryAt(s, r.value)
    ensures r.Some? ==> forall k :: i <= k < r.value ==> !BoundaryAt(s, k)
    ensures r.None? ==> forall k :: i <= k ==> !BoundaryAt(s, k)
    decreases |s| - i
  {
    if i >= |s| then None
    else if IsTerminal(s[i - 1]) && IsSpace(s[i]) then Some(i)
    else FirstBoundaryFrom(s, i + 1)
  }

  /** Where the regular expression first matches, if anywhere. */
  function FirstBoundary(s: string): (r: Option<nat>)
    ensures r.Some? ==> BoundaryAt(s, r.value) && forall k :: 0 <= k < r.value ==> !BoundaryAt(s, k)
    ensures r.None? ==> NoBoundary(s)
  {
    FirstBoundaryFrom(s, 1)
  }

  /** Length of the leading whitespace run (what the greedy `\s+` consumes). */
  function SpanSpace(s: string): (n: nat)
    ensures n <= |s|
    ensures forall i :: 0 <= i < n ==> IsSpace(s[i])
    ensures n < |s| ==> !IsSpace(s[n])
  {
    if s == [] || !IsSpace(s[0]) then 0 else 1 + SpanSpace(s[1..])
  }

  /** One piece of `re.split`, with the whitespace the match removed after it. */
  datatype Cut = Cut(piece: string, gap: string)

  /** `re.split(r'(?<=[.!?])\s+', s)`, each piece paired with the separator that followed it. */
  function Cuts(s: string): (r: seq<Cut>)
    ensures |r| >= 1
    decreases |s|
  {
    match FirstBoundary(s)
    case None => [Cut(s, "")]
    case Some(i) =>
      var j := i + SpanSpace(s[i..]);
      [Cut(s[..i], s[i..j])] + Cuts(s[j..])
  }

  function Rejoin(cs: seq<Cut>): string {
    if cs == [] then "" else cs[0].piece + cs[0].gap + Rejoin(cs[1..])
  }

  /** A sentence as the splitter returns it: non-empty, no whitespace at either end. */
  ghost predicate Trimmed(t: string) {
    t != [] && !IsSpace(t[0]) && !IsSpace(t[|t| - 1])
  }

  /** The pieces of `Cuts` after `strip()`, empty ones dropped. */
  function Sentences(cs: seq<Cut>): seq<string> {
    if cs == [] then []
    else
      var t := Strip(cs[0].piece);
      (if t == [] then [] else [t]) + Sentences(cs[1..])
  }

  /** Every piece kept is non-empty with no whitespace at either end. */
  lemma {:induction false} SentencesTrimmed(cs: seq<Cut>)
    ensures forall k :: 0 <= k < |Sentences(cs)| ==> Trimmed(Sentences(cs)[k])
  {
    if cs != [] {
      SentencesTrimmed(cs[1..]);
      var t := Strip(cs[0].piece);
      var rest := Sentences(cs[1..]);
      if t != [] {
        var r := [t] + rest;
        assert Sentences(cs) == r;
        forall k | 0 <= k < |r| ensures Trimmed(r[k]) {
          if k > 0 {
            assert r[k] == rest[k - 1];
          }
        }
      } else {
        assert Sentences(cs) == rest;
      }
    }
  }

  /** `_split_sentences`: every sentence is non-empty and has no whitespace at either end. */
  function SplitSentences(text: string): (r: seq<string>)
    ensures forall k :: 0 <= k < |r| ==> Trimmed(r[k])
  {
    SentencesTrimmed(Cuts(text));
    Sentences(Cuts(text))
  }

  // ---------------------------------------------------------------------
  // What the regular-expression split does
  // ---------------------------------------------------------------------

  function Last(s: string): char
    requires s != []
  {
    s[|s| - 1]
  }

  /** A piece the split cut off after it: it ends in a terminal and whitespace followed. */
  ghost predicate EndsAtBoundary(c: Cut) {
    c.gap != [] && c.piece != [] && IsTerminal(Last(c.piece))
  }

  ghost predicate StartsClean(p: string) {
    p == [] || !IsSpace(p[0])
  }

  /**
   * The shape `re.split` leaves: every separator is whitespace, every piece is
   * free of boundaries; all pieces but the last were cut at a boundary and the
   * last has no separator; the whole whitespace run went into the separator,
   * so no later piece starts with whitespace.
   */
  ghost predicate WellCut(cs: seq<Cut>) {
    && |cs| >= 1
    && (forall k :: 0 <= k < |cs| ==> AllSpace(cs[k].gap) && NoBoundary(cs[k].piece))
    && cs[|cs| - 1].gap == []
    && (forall k :: 0 <= k < |cs| - 1 ==> EndsAtBoundary(cs[k]))
    && (forall k :: 1 <= k < |cs| ==> StartsClean(cs[k].piece))
  }

  lemma WellCutCons(c: Cut, cs: seq<Cut>)
    requires WellCut(cs) && StartsClean(cs[0].piece)
    requires AllSpace(c.gap) && NoBoundary(c.piece) && EndsAtBoundary(c)
    ensures WellCut([c] + cs)
  {
    var r := [c] + cs;
    assert forall k :: 1 <= k < |r| ==> r[k] == cs[k - 1];
  }

  lemma RejoinCons(c: Cut, cs: seq<Cut>)
    ensures Rejoin([c] + cs) == c.piece + c.gap + Rejoin(cs)
  {
    assert ([c] + cs)[1..] == cs;
  }

  lemma FirstPieceStarts(s: string)
    ensures Cuts(s)[0].piece == [] || (s != [] && Cuts(s)[0].piece[0] == s[0])
  {
  }

  /** The pieces and separators put back together give the text. */
  lemma {:induction false} CutsRejoin(s: string)
    ensures Rejoin(Cuts(s)) == s
    decreases |s|
  {
    match FirstBoundary(s)
    case None =>
    case Some(i) =>
      var j := FirstCutShape(s, i);
      var rest := s[j..];
      CutsRejoin(rest);
      var c := Cut(s[..i], s[i..j]);
      assert Cuts(s) == [c] + Cuts(rest);
      RejoinCons(c, Cuts(rest));
      SliceAround(s, i, j - i);
  }

  /** The first cut: a piece free of boundaries ended by a terminal, then the whole whitespace run after it. */
  lemma FirstCutShape(s: string, i: nat) returns (j: nat)
    requires FirstBoundary(s) == Some(i)
    ensures j == i + SpanSpace(s[i..]) && i < j <= |s|
    ensures AllSpace(s[i..j]) && NoBoundary(s[..i]) && EndsAtBoundary(Cut(s[..i], s[i..j]))
    ensures StartsClean(s[j..])
  {
    j := i + SpanSpace(s[i..]);
    var head := s[..i];
    forall m ensures !BoundaryAt(head, m) {
      assert BoundaryAt(head, m) ==> BoundaryAt(s, m);
    }
    assert AllSpace(s[i..j]);
    assert Last(head) == s[i - 1];
    assert s[i..][0] == s[i];
    assert s[j..] != [] ==> s[j..][0] == s[j];
    assert j < |s| ==> !IsSpace(s[j]);
  }

  /** The pieces and separators are cut as `WellCut` says. */
  lemma {:induction false} CutsWellCut(s: string)
    ensures WellCut(Cuts(s))
    decreases |s|
  {
    match FirstBoundary(s)
    case None =>
    case Some(i) =>
      var j := FirstCutShape(s, i);
      var rest := s[j..];
      CutsWellCut(rest);
      var c := Cut(s[..i], s[i..j]);
      assert Cuts(s) == [c] + Cuts(rest);
      FirstPieceStarts(rest);
      WellCutCons(c, Cuts(rest));
  }

  // ---------------------------------------------------------------------
  // What _split_sentences promises
  // ---------------------------------------------------------------------

  lemma SentenceStripsNonBlank(t: string)
    requires t != [] && !IsSpace(t[0])
    ensures NonSpace(t) != []
  {
  }

  /** Splitting loses no character other than whitespace. */
  lemma {:induction false} SplitSentencesKeepsText(text: string)
    ensures NonSpace(Concat(SplitSentences(text))) == NonSpace(text)
  {
    CutsWellCut(text);
    CutsRejoin(text);
    SentencesKeepText(Cuts(text));
  }

  lemma RejoinHeadNonSpace(cs: seq<Cut>)
    requires cs != [] && AllSpace(cs[0].gap)
    ensures NonSpace(Rejoin(cs)) == NonSpace(cs[0].piece) + NonSpace(Rejoin(cs[1..]))
  {
    var p := cs[0].piece;
    var g := cs[0].gap;
    assert Rejoin(cs) == p + g + Rejoin(cs[1..]);
    NonSpaceAppend(p + g, Rejoin(cs[1..]));
    NonSpaceAppend(p, g);
    NonSpaceOfAllSpace(g);
  }

  lemma {:induction false} SentencesHeadNonSpace(cs: seq<Cut>)
    requires cs != []
    ensures NonSpace(Concat(Sentences(cs))) == NonSpace(cs[0].piece) + NonSpace(Concat(Sentences(cs[1..])))
  {
    var p := cs[0].piece;
    var t := Strip(p);
    var rest := Sentences(cs[1..]);
    StripKeepsNonSpace(p);
    if t != [] {
      assert Sentences(cs) == [t] + rest;
      ConcatAppend([t], rest);
      assert Concat([t]) == t;
      NonSpaceAppend(t, Concat(rest));
    } else {
      assert Sentences(cs) == rest;
      assert NonSpace(p) == [];
    }
  }

  lemma {:induction false} SentencesKeepText(cs: seq<Cut>)
    requires forall k :: 0 <= k < |cs| ==> AllSpace(cs[k].gap)
    ensures NonSpace(Concat(Sentences(cs))) == NonSpace(Rejoin(cs))
  {
    if cs != [] {
      SentencesKeepText(cs[1..]);
      RejoinHeadNonSpace(cs);
      SentencesHeadNonSpace(cs);
    }
  }

  /** A list of trimmed strings has no non-whitespace character exactly when it is empty. */
  lemma TrimmedConcatBlank(ss: seq<string>)
    requires forall k :: 0 <= k < |ss| ==> Trimmed(ss[k])
    ensures ss == [] <==> NonSpace(Concat(ss)) == []
  {
    if ss != [] {
      ConcatAppend([ss[0]], ss[1..]);
      assert ss == [ss[0]] + ss[1..];
      assert Concat([ss[0]]) == ss[0];
      NonSpaceAppend(ss[0], Concat(ss[1..]));
      SentenceStripsNonBlank(ss[0]);
    }
  }

  /** Empty or whitespace-only text, and only such text, gives no sentence. */
  lemma SplitSentencesEmptyIffBlank(text: string)
    ensures SplitSentences(text) == [] <==> AllSpace(text)
  {
    SplitSentencesKeepsText(text);
    NonSpaceOfAllSpace(text);
    TrimmedConcatBlank(SplitSentences(text));
  }

  lemma StripKeepsTerminalEnd(s: string)
    requires s != [] && IsTerminal(Last(s))
    ensures Strip(s) != [] && Last(Strip(s)) == Last(s)
  {
    var i := StripSlice(s);
    assert !IsSpace(s[|s| - 1]);
  }

  lemma SliceKeepsNoBoundary(s: string, i: nat, n: nat)
    requires i + n <= |s| && NoBoundary(s)
    ensures NoBoundary(s[i..i + n])
  {
    var t := s[i..i + n];
    forall m ensures !BoundaryAt(t, m) {
      assert BoundaryAt(t, m) ==> BoundaryAt(s, i + m);
    }
  }

  /**
   * The split happens exactly at the boundaries: no sentence contains `.`, `!`
   * or `?` followed by whitespace, and every sentence but the last ends in one
   * of them.
   */
  lemma SplitSentencesAtBoundaries(text: string)
    ensures forall k :: 0 <= k < |SplitSentences(text)| ==> NoBoundary(SplitSentences(text)[k])
    ensures forall k :: 0 <= k < |SplitSentences(text)| - 1 ==>
      IsTerminal(Last(SplitSentences(text)[k]))
  {
    CutsWellCut(text);
    SentencesAtBoundaries(Cuts(text));
  }

  ghost predicate EndsInTerminal(t: string) {
    t != [] && IsTerminal(t[|t| - 1])
  }

  /** A string free of boundaries stays so in any slice equal to `t`. */
  lemma SliceNoBoundary(s: string, t: string, i: nat)
    requires NoBoundary(s) && i + |t| <= |s| && t == s[i..i + |t|]
    ensures NoBoundary(t)
  {
    SliceKeepsNoBoundary(s, i, |t|);
  }

  /** A piece free of boundaries stays so once stripped. */
  lemma StripNoBoundary(p: string)
    requires NoBoundary(p)
    ensures NoBoundary(Strip(p))
  {
    var i := StripSlice(p);
    SliceNoBoundary(p, Strip(p), i);
  }

  /** A piece free of boundaries stays so once stripped, and keeps its terminal end when it was cut at one. */
  lemma StripPiece(c: Cut)
    requires NoBoundary(c.piece) && Strip(c.piece) != []
    ensures NoBoundary(Strip(c.piece))
    ensures EndsAtBoundary(c) ==> EndsInTerminal(Strip(c.piece))
  {
    StripNoBoundary(c.piece);
    if EndsAtBoundary(c) {
      StripKeepsTerminalEnd(c.piece);
    }
  }

  lemma {:induction false} SentencesAtBoundaries(cs: seq<Cut>)
    requires forall k :: 0 <= k < |cs| ==> NoBoundary(cs[k].piece)
    requires forall k :: 0 <= k < |cs| - 1 ==> EndsAtBoundary(cs[k])
    ensures forall k :: 0 <= k < |Sentences(cs)| ==> NoBoundary(Sentences(cs)[k])
    ensures forall k :: 0 <= k < |Sentences(cs)| - 1 ==> EndsInTerminal(Sentences(cs)[k])
  {
    if cs != [] {
      var tail := cs[1..];
      assert forall k :: 0 <= k < |tail| ==> tail[k] == cs[k + 1];
      SentencesAtBoundaries(tail);
      var t := Strip(cs[0].piece);
      var rest := Sentences(tail);
      if t != [] {
        var r := [t] + rest;
        assert Sentences(cs) == r;
        StripPiece(cs[0]);
        assert rest != [] ==> tail != [] && EndsAtBoundary(cs[0]);
        forall k | 0 <= k < |r| ensures NoBoundary(r[k]) && (k < |r| - 1 ==> EndsInTerminal(r[k])) {
          if k > 0 {
            assert r[k] == rest[k - 1];
          }
        }
      } else {
        assert Sentences(cs) == rest;
      }
    }
  }
}
