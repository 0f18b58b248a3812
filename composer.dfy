/**
 * The paragraph composer of the humanizer engine: sentences are gathered
 * into paragraphs of a randomly drawn target length, the paragraphs are
 * joined with single spaces inside and blank lines between them.
 */
module Composer {
  import opened PyStr
  import opened Rand

  /**
   * The paragraphs the loop produced, whether the flush after the loop added
   * one, and the random source after the loop.
   */
  datatype Grouping = Grouping(paragraphs: seq<seq<string>>, lateFlush: bool, rng: Rng)

  /** The smallest and largest target length: `randint(2, 5)` above intensity 0.5, else `randint(3, 6)`. */
  function Lo(intensity: real): nat { if intensity > 0.5 then 2 else 3 }
  function Hi(intensity: real): nat { if intensity > 0.5 then 5 else 6 }

  /** The target length drawn for one sentence. */
  function Target(intensity: real, g: Rng): (r: (int, Rng))
    ensures Lo(intensity) <= r.0 <= Hi(intensity) && r.1 == Skip(g, 1)
  {
    if intensity > 0.5 then RandInt(2, 5, g) else RandInt(3, 6, g)
  }

  function Flatten(ps: seq<seq<string>>): seq<string> {
    if ps == [] then [] else ps[0] + Flatten(ps[1..])
  }

  /** The sentence loop of `_create_paragraph_variation` from index `i` on, `para` being the open paragraph. */
  function GroupFrom(s: seq<string>, i: nat, para: seq<string>, intensity: real, g: Rng): (r: Grouping)
    requires i <= |s|
    ensures r.rng == Skip(g, |s| - i)
    decreases |s| - i
  {
    if i == |s| then
      (if para != [] then Grouping([para], true, g) else Grouping([], false, g))
    else
      var p := para + [s[i]];
      var (target, g1) := Target(intensity, g);
      if |p| >= target || i == |s| - 1 then
        var rest := GroupFrom(s, i + 1, [], intensity, g1);
        Grouping([p] + rest.paragraphs, rest.lateFlush, rest.rng)
      else GroupFrom(s, i + 1, p, intensity, g1)
  }

  function Group(s: seq<string>, intensity: real, g: Rng): Grouping {
    GroupFrom(s, 0, [], intensity, g)
  }

  function JoinEach(ps: seq<seq<string>>): (r: seq<string>)
    ensures |r| == |ps| && forall k :: 0 <= k < |ps| ==> r[k] == JoinWith(" ", ps[k])
  {
    if ps == [] then [] else [JoinWith(" ", ps[0])] + JoinEach(ps[1..])
  }

  lemma JoinEachSnoc(ps: seq<seq<string>>, p: seq<string>)
    ensures JoinEach(ps + [p]) == JoinEach(ps) + [JoinWith(" ", p)]
  {
  }

  /** `_create_paragraph_variation(sentences, intensity)`. */
  function Compose(s: seq<string>, intensity: real, g: Rng): (r: (string, Rng))
    ensures r.1 == Skip(g, |s|)
  {
    var gr := Group(s, intensity, g);
    var texts := JoinEach(gr.paragraphs);
    (if |texts| > 1 then JoinWith("\n\n", texts) else JoinWith(" ", s), gr.rng)
  }

  /** The paragraphs already closed, followed by what the rest of the loop produces. */
  function After(done: seq<seq<string>>, rest: Grouping): Grouping {
    Grouping(done + rest.paragraphs, rest.lateFlush, rest.rng)
  }

  lemma AfterFlush(done: seq<seq<string>>, p: seq<string>, rest: Grouping)
    ensures After(done, After([p], rest)) == After(done + [p], rest)
  {
    assert done + ([p] + rest.paragraphs) == (done + [p]) + rest.paragraphs;
  }

  /** One turn of the sentence loop, unfolded. */
  lemma GroupStep(s: seq<string>, i: nat, para: seq<string>, intensity: real, g: Rng)
    requires i < |s|
    ensures var p := para + [s[i]];
      var t := Target(intensity, g);
      GroupFrom(s, i, para, intensity, g)
        == if |p| >= t.0 || i == |s| - 1 then After([p], GroupFrom(s, i + 1, [], intensity, t.1))
           else GroupFrom(s, i + 1, p, intensity, t.1)
  {
  }

  /** The flush after the loop. */
  lemma GroupEnd(s: seq<string>, para: seq<string>, intensity: real, g: Rng)
    ensures GroupFrom(s, |s|, para, intensity, g)
      == if para != [] then Grouping([para], true, g) else Grouping([], false, g)
  {
  }

  /** `_create_paragraph_variation`, with the sentence loop. */
  method CreateParagraphVariation(sentences: seq<string>, intensity: real, g: Rng) returns (out: string, g': Rng)
    ensures (out, g') == Compose(sentences, intensity, g)
  {
    var result: seq<string> := [];
    var paragraph: seq<string> := [];
    ghost var done: seq<seq<string>> := [];
    g' := g;
    var i := 0;
    while i < |sentences|
      invariant 0 <= i <= |sentences|
      invariant result == JoinEach(done)
      invariant Group(sentences, intensity, g) == After(done, GroupFrom(sentences, i, paragraph, intensity, g'))
    {
      GroupStep(sentences, i, paragraph, intensity, g');
      ghost var g0 := g';
      paragraph := paragraph + [sentences[i]];
      var paraLength;
      paraLength, g' := Target(intensity, g').0, Target(intensity, g').1;
      if |paragraph| >= paraLength || i == |sentences| - 1 {
        AfterFlush(done, paragraph, GroupFrom(sentences, i + 1, [], intensity, g'));
        JoinEachSnoc(done, paragraph);
        result := result + [JoinWith(" ", paragraph)];
        done := done + [paragraph];
        paragraph := [];
      }
      i := i + 1;
    }
    GroupEnd(sentences, paragraph, intensity, g');
    if paragraph != [] {
      JoinEachSnoc(done, paragraph);
      result := result + [JoinWith(" ", paragraph)];
      done := done + [paragraph];
    } else {
      assert done + [] == done;
    }
    ghost var gr := Group(sentences, intensity, g);
    assert gr.paragraphs == done && gr.rng == g';
    assert JoinEach(gr.paragraphs) == result;
    if |result| > 1 {
      out := JoinWith("\n\n", result);
    } else {
      out := JoinWith(" ", sentences);
    }
  }

  // ---------------------------------------------------------------------
  // What the composer promises
  // ---------------------------------------------------------------------

  lemma FlattenCons(p: seq<string>, ps: seq<seq<string>>)
    ensures Flatten([p] + ps) == p + Flatten(ps)
  {
    assert ([p] + ps)[1..] == ps;
  }

  lemma {:induction false} GroupFromPartition(s: seq<string>, i: nat, para: seq<string>, intensity: real, g: Rng)
    requires i <= |s|
    ensures var ps := GroupFrom(s, i, para, intensity, g).paragraphs;
      Flatten(ps) == para + s[i..] && forall k :: 0 <= k < |ps| ==> ps[k] != []
    decreases |s| - i
  {
    if i < |s| {
      var p := para + [s[i]];
      var (target, g1) := Target(intensity, g);
      assert s[i..] == [s[i]] + s[i + 1..];
      if |p| >= target || i == |s| - 1 {
        GroupFromPartition(s, i + 1, [], intensity, g1);
        var rest := GroupFrom(s, i + 1, [], intensity, g1).paragraphs;
        FlattenCons(p, rest);
        assert forall k :: 1 <= k < |[p] + rest| ==> ([p] + rest)[k] == rest[k - 1];
      } else {
        GroupFromPartition(s, i + 1, p, intensity, g1);
      }
    }
  }

  /** The paragraphs are consecutive runs of the sentences: put together they give the input, in order. */
  lemma ParagraphsPartitionInput(s: seq<string>, intensity: real, g: Rng)
    ensures Flatten(Group(s, intensity, g).paragraphs) == s
    ensures forall k :: 0 <= k < |Group(s, intensity, g).paragraphs| ==> Group(s, intensity, g).paragraphs[k] != []
  {
    GroupFromPartition(s, 0, [], intensity, g);
    assert s[0..] == s;
  }

  /** Every paragraph holds at most `hi` sentences and every one but the last at least `lo`. */
  ghost predicate SizesWithin(ps: seq<seq<string>>, lo: nat, hi: nat) {
    (forall k :: 0 <= k < |ps| ==> |ps[k]| <= hi)
    && (forall k :: 0 <= k < |ps| - 1 ==> |ps[k]| >= lo)
  }

  lemma SizesWithinCons(p: seq<string>, ps: seq<seq<string>>, lo: nat, hi: nat)
    requires SizesWithin(ps, lo, hi) && |p| <= hi && (ps != [] ==> |p| >= lo)
    ensures SizesWithin([p] + ps, lo, hi)
  {
    assert forall k :: 1 <= k < |[p] + ps| ==> ([p] + ps)[k] == ps[k - 1];
  }

  lemma {:induction false} GroupFromSizes(s: seq<string>, i: nat, para: seq<string>, intensity: real, g: Rng)
    requires i <= |s| && |para| < Hi(intensity)
    ensures SizesWithin(GroupFrom(s, i, para, intensity, g).paragraphs, Lo(intensity), Hi(intensity))
    decreases |s| - i
  {
    if i < |s| {
      var p := para + [s[i]];
      var (target, g1) := Target(intensity, g);
      if |p| >= target || i == |s| - 1 {
        GroupFromSizes(s, i + 1, [], intensity, g1);
        var rest := GroupFrom(s, i + 1, [], intensity, g1).paragraphs;
        assert GroupFrom(s, i, para, intensity, g).paragraphs == [p] + rest;
        assert rest != [] ==> i < |s| - 1;
        SizesWithinCons(p, rest, Lo(intensity), Hi(intensity));
      } else {
        assert GroupFrom(s, i, para, intensity, g) == GroupFrom(s, i + 1, p, intensity, g1);
        GroupFromSizes(s, i + 1, p, intensity, g1);
      }
    }
  }

  /**
   * No paragraph holds more than 5 sentences (6 at intensity 0.5 or below), and
   * every paragraph but the last holds at least 2 (at least 3).
   */
  lemma ParagraphSizeBounds(s: seq<string>, intensity: real, g: Rng)
    ensures SizesWithin(Group(s, intensity, g).paragraphs, Lo(intensity), Hi(intensity))
  {
    GroupFromSizes(s, 0, [], intensity, g);
  }

  lemma {:induction false} GroupFromNoLateFlush(s: seq<string>, i: nat, para: seq<string>, intensity: real, g: Rng)
    requires i <= |s| && (i < |s| || para == [])
    ensures !GroupFrom(s, i, para, intensity, g).lateFlush
    decreases |s| - i
  {
    if i < |s| {
      var p := para + [s[i]];
      var (target, g1) := Target(intensity, g);
      if |p| >= target || i == |s| - 1 {
        GroupFromNoLateFlush(s, i + 1, [], intensity, g1);
        assert GroupFrom(s, i, para, intensity, g).lateFlush == GroupFrom(s, i + 1, [], intensity, g1).lateFlush;
      } else {
        GroupFromNoLateFlush(s, i + 1, p, intensity, g1);
        assert GroupFrom(s, i, para, intensity, g) == GroupFrom(s, i + 1, p, intensity, g1);
      }
    }
  }

  /** The flush after the loop never adds a paragraph: the last index always closes the open one. */
  lemma TrailingFlushNeverFires(s: seq<string>, intensity: real, g: Rng)
    ensures !Group(s, intensity, g).lateFlush
  {
    GroupFromNoLateFlush(s, 0, [], intensity, g);
  }

  /**
   * Both branches of the final join agree: the output is always the
   * paragraphs, each joined with spaces, joined with blank lines; so empty
   * input gives the empty string.
   */
  lemma ComposeJoinsParagraphs(s: seq<string>, intensity: real, g: Rng)
    ensures Compose(s, intensity, g).0 == JoinWith("\n\n", JoinEach(Group(s, intensity, g).paragraphs))
    ensures s == [] ==> Compose(s, intensity, g).0 == ""
  {
    var ps := Group(s, intensity, g).paragraphs;
    ParagraphsPartitionInput(s, intensity, g);
    if |ps| == 0 {
      assert s == [];
    } else if |ps| == 1 {
      assert Flatten(ps) == ps[0] + Flatten(ps[1..]);
      assert ps[0] == s;
    }
  }
}
