/**
 * The per-sentence rewriting techniques of the humanizer engine. Each takes a
 * sentence, the intensity and the random source, and gives back the new
 * sentence with the random source moved past the draws it made. The machine
 * learning models are oracles in `Providers`.
 */
module Techniques {
  import opened Wrappers
  import opened PyStr
  import opened Rand

  /** A token of the part-of-speech tagger: its text and its coarse tag. */
  datatype Token = Token(text: string, pos: string)

  /**
   * The models the engine calls into. `paraphrase(s, temperature, maxLength)`
   * is the paraphrasing model's output, `None` when generation raises;
   * `tag(s)` is the tagger's token sequence; `drifted(a, b)` says that the
   * embedding similarity of `a` and `b` is below 0.7.
   */
  datatype Providers = Providers(
    paraphrase: (string, real, nat) -> Option<string>,
    tag: string -> seq<Token>,
    drifted: (string, string) -> bool)

  // ---------------------------------------------------------------------
  // _vary_sentence_structure
  // ---------------------------------------------------------------------

  /** The tokens a long sentence may be split at. */
  const Connectors: seq<string> := [",", "and", "but", "or", "while", "although"]

  ghost predicate IsConnectorAt(words: seq<string>, i: int) {
    0 <= i < |words| && words[i] in Connectors
  }

  function ScanFrom(words: seq<string>, i: nat, hi: int): (r: Option<nat>)
    ensures r.Some? ==> i <= r.value < hi && IsConnectorAt(words, r.value)
    ensures r.Some? ==> forall j :: i <= j < r.value ==> !IsConnectorAt(words, j)
    ensures r.None? ==> forall j :: i <= j < hi ==> !IsConnectorAt(words, j)
    decreases hi - i
  {
    if i >= hi then None
    else if i < |words| && words[i] in Connectors then Some(i)
    else ScanFrom(words, i + 1, hi)
  }

  /**
   * The split point of a long sentence: the first index of
   * `range(mid - 3, mid + 3)`, `mid = len(words) // 2`, whose token is a
   * connector, or `None` when there is none.
   */
  function SplitPoint(words: seq<string>): (r: Option<nat>)
    requires |words| > 15
    ensures r.Some? ==> |words| / 2 - 3 <= r.value < |words| / 2 + 3 && words[r.value] in Connectors
    ensures r.Some? ==> forall j :: |words| / 2 - 3 <= j < r.value ==> words[j] !in Connectors
    ensures r.None? <==> forall j :: |words| / 2 - 3 <= j < |words| / 2 + 3 ==> words[j] !in Connectors
  {
    var lo, hi := |words| / 2 - 3, |words| / 2 + 3;
    assert 0 <= lo && hi <= |words|;
    var r := ScanFrom(words, lo, hi);
    assert forall j :: lo <= j < hi ==> (IsConnectorAt(words, j) <==> words[j] in Connectors);
    r
  }

  /** The words before connector `i`, a full stop, and the words after it capitalized; the connector is dropped. */
  function SplitAt(words: seq<string>, i: nat): string
    requires i < |words|
  {
    JoinWith(" ", words[..i]) + ". " + Capitalize(JoinWith(" ", words[i + 1..]))
  }

  function SplitLong(sentence: string, words: seq<string>): string
    requires |words| > 15
  {
    match SplitPoint(words)
    case None => sentence
    case Some(i) => SplitAt(words, i)
  }

  /** The first step of `_vary_sentence_structure`: a draw only for a sentence of more than 15 words. */
  function SplitStage(sentence: string, intensity: real, g: Rng): (r: (string, Rng))
    ensures DrewAtMost(g, r.1, 1)
  {
    var words := Words(sentence);
    if |words| > 15 then
      var (u, g1) := Random(g);
      (if u < intensity * 0.5 then SplitLong(sentence, words) else sentence, g1)
    else (sentence, g)
  }

  /** The clause swap: only a sentence with exactly two comma-separated parts is changed. */
  function SwapClauses(s: string): string {
    var parts := SplitOn(s, ',');
    if |parts| == 2 then Capitalize(Strip(parts[1])) + ", " + Lower(Strip(parts[0])) else s
  }

  /** The second step of `_vary_sentence_structure`: a draw only when the sentence has a comma. */
  function SwapStage(s: string, intensity: real, g: Rng): (r: (string, Rng))
    ensures DrewAtMost(g, r.1, 1)
  {
    if ',' in s then
      var (u, g1) := Random(g);
      (if u < intensity * 0.3 then SwapClauses(s) else s, g1)
    else (s, g)
  }

  /** `_vary_sentence_structure(sentence, intensity)`. */
  function Vary(sentence: string, intensity: real, g: Rng): (r: (string, Rng))
    ensures DrewAtMost(g, r.1, 2)
  {
    var (s1, g1) := SplitStage(sentence, intensity, g);
    SwapStage(s1, intensity, g1)
  }

  /** The split-point scan of `_vary_sentence_structure`: the loop over `range(mid - 3, mid + 3)`. */
  method FindSplitPoint(words: seq<string>) returns (r: Option<nat>)
    requires |words| > 15
    ensures r == SplitPoint(words)
  {
    var mid := |words| / 2;
    var i: nat := mid - 3;
    while i < mid + 3
      invariant mid - 3 <= i <= mid + 3
      invariant ScanFrom(words, i, mid + 3) == SplitPoint(words)
    {
      if i < |words| && words[i] in Connectors {
        return Some(i);
      }
      i := i + 1;
    }
    return None;
  }

  /** The split step of `_vary_sentence_structure`. */
  method SplitLongSentence(sentence: string, intensity: real, g: Rng) returns (r: string, g': Rng)
    ensures (r, g') == SplitStage(sentence, intensity, g)
  {
    var words := Words(sentence);
    r, g' := sentence, g;
    if |words| > 15 {
      var u;
      u, g' := Random(g).0, Random(g).1;
      if u < intensity * 0.5 {
        var split := FindSplitPoint(words);
        if split.Some? {
          var i := split.value;
          r := SplitAt(words, i);
        }
        assert r == SplitLong(sentence, words);
      }
    }
  }

  /** The clause-swap step of `_vary_sentence_structure`. */
  method SwapClauseStep(s: string, intensity: real, g: Rng) returns (r: string, g': Rng)
    ensures (r, g') == SwapStage(s, intensity, g)
  {
    r, g' := s, g;
    if ',' in s {
      var u;
      u, g' := Random(g).0, Random(g).1;
      if u < intensity * 0.3 {
        var parts := SplitOn(s, ',');
        if |parts| == 2 {
          r := Capitalize(Strip(parts[1])) + ", " + Lower(Strip(parts[0]));
        }
      }
    }
  }

  /** `_vary_sentence_structure`: the split step, then the swap step. */
  method VarySentenceStructure(sentence: string, intensity: real, g: Rng) returns (r: string, g': Rng)
    ensures (r, g') == Vary(sentence, intensity, g)
  {
    var g1;
    r, g1 := SplitLongSentence(sentence, intensity, g);
    r, g' := SwapClauseStep(r, intensity, g1);
  }

  /** A sentence of at most 15 words is never split, and no draw is made for the split. */
  lemma ShortSentenceNotSplit(sentence: string, intensity: real, g: Rng)
    requires |Words(sentence)| <= 15
    ensures SplitStage(sentence, intensity, g) == (sentence, g)
  {
  }

  /**
   * When a connector is found, the sentence becomes the words before it,
   * `". "`, and the words after it run through `capitalize`; the connector
   * itself is dropped.
   */
  lemma SplitLongDropsConnector(sentence: string, words: seq<string>) returns (head: string, tail: string)
    requires words == Words(sentence)
    requires |words| > 15 && SplitPoint(words).Some?
    ensures SplitLong(sentence, words) == head + ". " + Capitalize(tail)
    ensures Words(head) == words[..SplitPoint(words).value]
    ensures Words(tail) == words[SplitPoint(words).value + 1..]
  {
    var i := SplitPoint(words).value;
    head := JoinWith(" ", words[..i]);
    tail := JoinWith(" ", words[i + 1..]);
    WordsOfSlice(words, 0, i);
    WordsOfSlice(words, i + 1, |words|);
    assert words[0..i] == words[..i] && words[i + 1..|words|] == words[i + 1..];
  }

  lemma WordsOfSlice(words: seq<string>, i: nat, j: nat)
    requires i <= j <= |words|
    requires forall k :: 0 <= k < |words| ==> IsWord(words[k])
    ensures Words(JoinWith(" ", words[i..j])) == words[i..j]
  {
    var w := words[i..j];
    assert forall k :: 0 <= k < |w| ==> w[k] == words[i + k];
    WordsOfJoin(w);
  }

  /** Without a connector in the window the split step leaves the sentence as it is. */
  lemma NoConnectorNoSplit(sentence: string, intensity: real, g: Rng)
    requires |Words(sentence)| > 15
    requires forall j :: |Words(sentence)| / 2 - 3 <= j < |Words(sentence)| / 2 + 3 ==>
      Words(sentence)[j] !in Connectors
    ensures SplitStage(sentence, intensity, g) == (sentence, Skip(g, 1))
  {
  }

  /**
   * The clause swap fires exactly for a sentence with one comma: `a,b` becomes
   * `b.strip().capitalize() + ", " + a.strip().lower()`. Any other sentence is kept.
   */
  lemma {:induction false} SwapClausesOneComma(s: string)
    ensures CountChar(s, ',') == 1 ==>
      exists a, b :: s == a + "," + b && ',' !in a && ',' !in b
        && SwapClauses(s) == Capitalize(Strip(b)) + ", " + Lower(Strip(a))
    ensures CountChar(s, ',') != 1 ==> SwapClauses(s) == s
  {
    SplitOnRoundTrip(s, ',');
    var parts := SplitOn(s, ',');
    if |parts| == 2 {
      assert JoinWith([','], parts) == parts[0] + [','] + parts[1];
      assert s == parts[0] + "," + parts[1];
    }
  }

  /** A sentence without a comma is never changed by the swap, and no draw is made. */
  lemma NoCommaNoSwap(s: string, intensity: real, g: Rng)
    requires ',' !in s
    ensures SwapStage(s, intensity, g) == (s, g)
  {
  }

  /** With intensity 0 neither the split nor the swap fires: the sentence comes back as it is. */
  lemma VaryAtZero(s: string, g: Rng)
    ensures Vary(s, 0.0, g).0 == s
  {
  }

  // ---------------------------------------------------------------------
  // _add_human_patterns
  // ---------------------------------------------------------------------

  const Fillers: seq<string> := [
    "kind of", "sort of", "pretty much", "more or less", "essentially",
    "basically", "actually", "really", "quite", "rather", "somewhat",
    "perhaps", "maybe", "probably", "I think", "I believe", "it seems"]

  /** The contraction table, applied in this order. */
  const Contractions: seq<(string, string)> := [
    ("it is", "it's"), ("is not", "isn't"), ("cannot", "can't"),
    ("will not", "won't"), ("do not", "don't"), ("I am", "I'm"),
    ("you are", "you're"), ("they are", "they're")]

  /** A minor-imperfection swap: `correct` becomes `variant` with probability `chance`. */
  datatype Imperfection = Imperfection(correct: string, variant: string, chance: real)

  const Imperfections: seq<Imperfection> := [
    Imperfection("it's", "its", 0.02), Imperfection("their", "there", 0.01),
    Imperfection("effect", "affect", 0.01), Imperfection("who", "that", 0.03)]

  const PersonalTouches: seq<string> := [
    "I'd say", "I mean", "if you ask me", "in my experience",
    "from what I've seen", "personally", "honestly"]

  /**
   * The filler step. The filler is drawn before the length check; a sentence
   * of more than 3 words gets it at a drawn position in `[1, len - 1]`.
   */
  function FillerStage(s: string, intensity: real, g: Rng): (r: (string, Rng))
    ensures DrewAtMost(g, r.1, 3)
  {
    var (u, g1) := Random(g);
    if u < intensity * 0.2 then
      var (filler, g2) := Choice(Fillers, g1);
      var words := Words(s);
      if |words| > 3 then
        var (p, g3) := RandInt(1, |words| - 1, g2);
        (JoinWith(" ", words[..p] + [filler] + words[p..]), g3)
      else (s, g2)
    else (s, g1)
  }

  /** `for formal, informal in table: s = s.replace(formal, informal)`. */
  function ApplyTable(s: string, table: seq<(string, string)>): string
    decreases table
  {
    if table == [] then s else ApplyTable(ReplaceAll(s, table[0].0, table[0].1), table[1..])
  }

  function ContractionStage(s: string, intensity: real, g: Rng): (r: (string, Rng))
    ensures r.1 == Skip(g, 1)
  {
    var (u, g1) := Random(g);
    (if u < intensity * 0.4 then ApplyTable(s, Contractions) else s, g1)
  }

  /**
   * The imperfection loop: for each entry whose `correct` occurs, one draw,
   * and on success the first occurrence is replaced.
   */
  function Imperfect(s: string, list: seq<Imperfection>, g: Rng): (r: (string, Rng))
    ensures DrewAtMost(g, r.1, |list|)
    decreases list
  {
    if list == [] then (s, g)
    else
      var e := list[0];
      if Contains(s, e.correct) then
        var (u, g1) := Random(g);
        Imperfect(if u < e.chance then ReplaceFirst(s, e.correct, e.variant) else s, list[1..], g1)
      else Imperfect(s, list[1..], g)
  }

  function ImperfectionStage(s: string, intensity: real, g: Rng): (r: (string, Rng))
    ensures DrewAtMost(g, r.1, 1 + |Imperfections|)
  {
    var (u, g1) := Random(g);
    if u < intensity * 0.05 then Imperfect(s, Imperfections, g1) else (s, g1)
  }

  /**
   * The personal-touch step: the sentence is kept, or one of the listed
   * touches goes in front of its lower-cased form, after a comma; at
   * intensity 0 or below it is always kept.
   */
  function PersonalStage(s: string, intensity: real, g: Rng): (r: (string, Rng))
    ensures DrewAtMost(g, r.1, 2)
    ensures r.0 == s || exists j :: 0 <= j < |PersonalTouches| && r.0 == PersonalTouches[j] + ", " + Lower(s)
    ensures intensity <= 0.0 ==> r == (s, Skip(g, 1))
  {
    var (u, g1) := Random(g);
    if u < intensity * 0.15 then
      var (touch, g2) := Choice(PersonalTouches, g1);
      (touch + ", " + Lower(s), g2)
    else (s, g1)
  }

  /** `_add_human_patterns(sentence, intensity)`: the four steps in order. */
  function HumanPatterns(s: string, intensity: real, g: Rng): (r: (string, Rng))
    ensures DrewAtMost(g, r.1, 12)
  {
    var (s1, g1) := FillerStage(s, intensity, g);
    var (s2, g2) := ContractionStage(s1, intensity, g1);
    var (s3, g3) := ImperfectionStage(s2, intensity, g2);
    PersonalStage(s3, intensity, g3)
  }

  /** The contraction loop: each entry replaces all its occurrences, in table order. */
  method ApplyContractions(s: string) returns (r: string)
    ensures r == ApplyTable(s, Contractions)
  {
    r := s;
    var k := 0;
    while k < |Contractions|
      invariant 0 <= k <= |Contractions|
      invariant ApplyTable(r, Contractions[k..]) == ApplyTable(s, Contractions)
    {
      var (formal, informal) := Contractions[k];
      assert Contractions[k..][1..] == Contractions[k + 1..];
      r := ReplaceAll(r, formal, informal);
      k := k + 1;
    }
  }

  /** The imperfection loop: a draw only for an entry whose `correct` occurs. */
  method ApplyImperfections(s: string, g: Rng) returns (r: string, g': Rng)
    ensures (r, g') == Imperfect(s, Imperfections, g)
  {
    r, g' := s, g;
    var k := 0;
    while k < |Imperfections|
      invariant 0 <= k <= |Imperfections|
      invariant Imperfect(r, Imperfections[k..], g') == Imperfect(s, Imperfections, g)
    {
      var e := Imperfections[k];
      assert Imperfections[k..][1..] == Imperfections[k + 1..];
      if Contains(r, e.correct) {
        var v;
        v, g' := Random(g').0, Random(g').1;
        if v < e.chance {
          r := ReplaceFirst(r, e.correct, e.variant);
        }
      }
      k := k + 1;
    }
  }

  /** The filler step of `_add_human_patterns`. */
  method InsertFiller(s: string, intensity: real, g: Rng) returns (r: string, g': Rng)
    ensures (r, g') == FillerStage(s, intensity, g)
  {
    r, g' := s, g;
    var u;
    u, g' := Random(g).0, Random(g).1;
    if u < intensity * 0.2 {
      var filler;
      filler, g' := Choice(Fillers, g').0, Choice(Fillers, g').1;
      var words := Words(s);
      if |words| > 3 {
        var p;
        p, g' := RandInt(1, |words| - 1, g').0, RandInt(1, |words| - 1, g').1;
        words := words[..p] + [filler] + words[p..];
        r := JoinWith(" ", words);
      }
    }
  }

  /** The contraction step of `_add_human_patterns`. */
  method ContractStep(s: string, intensity: real, g: Rng) returns (r: string, g': Rng)
    ensures (r, g') == ContractionStage(s, intensity, g)
  {
    r := s;
    var u;
    u, g' := Random(g).0, Random(g).1;
    if u < intensity * 0.4 {
      r := ApplyContractions(s);
    }
  }

  /** The imperfection step of `_add_human_patterns`. */
  method ImperfectStep(s: string, intensity: real, g: Rng) returns (r: string, g': Rng)
    ensures (r, g') == ImperfectionStage(s, intensity, g)
  {
    r := s;
    var u;
    u, g' := Random(g).0, Random(g).1;
    if u < intensity * 0.05 {
      r, g' := ApplyImperfections(s, g');
    }
  }

  /** The personal-touch step of `_add_human_patterns`. */
  method PersonalStep(s: string, intensity: real, g: Rng) returns (r: string, g': Rng)
    ensures (r, g') == PersonalStage(s, intensity, g)
  {
    r := s;
    var u;
    u, g' := Random(g).0, Random(g).1;
    if u < intensity * 0.15 {
      var touch;
      touch, g' := Choice(PersonalTouches, g').0, Choice(PersonalTouches, g').1;
      r := touch + ", " + Lower(s);
    }
  }

  /** `_add_human_patterns`: the four steps in order. */
  method AddHumanPatterns(sentence: string, intensity: real, g: Rng) returns (r: string, g': Rng)
    ensures (r, g') == HumanPatterns(sentence, intensity, g)
  {
    var g1, g2, g3;
    r, g1 := InsertFiller(sentence, intensity, g);
    r, g2 := ContractStep(r, intensity, g1);
    r, g3 := ImperfectStep(r, intensity, g2);
    r, g' := PersonalStep(r, intensity, g3);
  }

  /**
   * A filler goes between two words of a sentence of more than 3 words, so the
   * first and the last word stay first and last; a shorter sentence is kept.
   */
  lemma FillerKeepsEnds(s: string, words: seq<string>, intensity: real, g: Rng)
    returns (filler: string, p: nat)
    requires words == Words(s)
    ensures var r := FillerStage(s, intensity, g).0;
      r == s
      || (|words| > 3 && filler in Fillers && 1 <= p < |words| && Words(r) == words[..p] + Words(filler) + words[p..])
    ensures |words| <= 3 ==> FillerStage(s, intensity, g).0 == s
    ensures var r := FillerStage(s, intensity, g).0;
      words != [] ==> Words(r) != [] && Words(r)[0] == words[0] && Words(r)[|Words(r)| - 1] == words[|words| - 1]
  {
    var (u, g1) := Random(g);
    filler, p := "", 0;
    if u < intensity * 0.2 && |words| > 3 {
      var (f, g2) := Choice(Fillers, g1);
      var (q, g3) := RandInt(1, |words| - 1, g2);
      filler, p := f, q;
      WordsOfInsert(words, filler, p);
    }
  }

  /** The joined text with `filler` put in at position `p`, as three joins. */
  lemma JoinOfInsert(words: seq<string>, filler: string, p: nat)
    requires 1 <= p < |words|
    ensures JoinWith(" ", words[..p] + [filler] + words[p..])
      == JoinWith(" ", words[..p]) + " " + (filler + " " + JoinWith(" ", words[p..]))
  {
    var a, b := words[..p], words[p..];
    JoinWithAppend(" ", a, [filler] + b);
    JoinWithAppend(" ", [filler], b);
    assert a + ([filler] + b) == words[..p] + [filler] + words[p..];
  }

  lemma WordsOfThree(a: string, m: string, b: string)
    ensures Words(a + " " + (m + " " + b)) == Words(a) + Words(m) + Words(b)
  {
    WordsSpaceJoin(a, m + " " + b);
    WordsSpaceJoin(m, b);
  }

  lemma WordsOfInsert(words: seq<string>, filler: string, p: nat)
    requires forall k :: 0 <= k < |words| ==> IsWord(words[k])
    requires 1 <= p < |words|
    ensures Words(JoinWith(" ", words[..p] + [filler] + words[p..])) == words[..p] + Words(filler) + words[p..]
  {
    JoinOfInsert(words, filler, p);
    WordsOfThree(JoinWith(" ", words[..p]), filler, JoinWith(" ", words[p..]));
    WordsOfSlice(words, 0, p);
    WordsOfSlice(words, p, |words|);
    assert words[0..p] == words[..p] && words[p..|words|] == words[p..];
  }

  /** A table none of whose patterns occurs leaves the sentence as it is. */
  lemma {:induction false} ApplyTableAbsent(s: string, table: seq<(string, string)>)
    requires forall k :: 0 <= k < |table| ==> table[k].0 != [] && !Contains(s, table[k].0)
    ensures ApplyTable(s, table) == s
    decreases table
  {
    if table != [] {
      ReplaceAllAbsent(s, table[0].0, table[0].1);
      ApplyTableAbsent(s, table[1..]);
    }
  }

  /** A sentence holding none of the formal phrases goes through the contraction step unchanged. */
  lemma NoFormalPhraseNoContraction(s: string, intensity: real, g: Rng)
    requires forall k :: 0 <= k < |Contractions| ==> !Contains(s, Contractions[k].0)
    ensures ContractionStage(s, intensity, g) == (s, Skip(g, 1))
  {
    ApplyTableAbsent(s, Contractions);
  }

  /** A sentence holding none of the imperfection patterns is kept and costs no draw. */
  lemma {:induction false} ImperfectAbsent(s: string, list: seq<Imperfection>, g: Rng)
    requires forall k :: 0 <= k < |list| ==> !Contains(s, list[k].correct)
    ensures Imperfect(s, list, g) == (s, g)
    decreases list
  {
    if list != [] {
      ImperfectAbsent(s, list[1..], g);
    }
  }

  /** With intensity 0 no step fires: the sentence is kept and exactly four draws are made. */
  lemma HumanPatternsAtZero(s: string, g: Rng)
    ensures HumanPatterns(s, 0.0, g) == (s, Skip(g, 4))
  {
  }

  // ---------------------------------------------------------------------
  // _inject_style
  // ---------------------------------------------------------------------

  const Questions: seq<string> := [
    "You know what?", "But here's the question:",
    "Want to know something interesting?", "Guess what?"]

  /** Words never wrapped in emphasis. */
  const PlainWords: seq<string> := ["the", "a", "an", "and", "or", "but"]

  ghost predicate WrapsAtMostOne(words: seq<string>, out: seq<string>) {
    out == words
    || exists idx :: 1 <= idx <= |words| - 2 && words[idx] !in PlainWords
         && out == words[idx := "*" + words[idx] + "*"]
  }

  /**
   * The emphasis step: in a list of more than 5 words, a drawn word in
   * `[1, len - 2]` that is not a plain word is wrapped in `*`.
   */
  function Emphasis(words: seq<string>, g: Rng): (r: (seq<string>, Rng))
    ensures WrapsAtMostOne(words, r.0)
    ensures DrewAtMost(g, r.1, 2)
  {
    if |words| > 5 then
      var (u, g1) := Random(g);
      if u < 0.15 then
        var (idx, g2) := RandInt(1, |words| - 2, g1);
        (if words[idx] !in PlainWords then words[idx := "*" + words[idx] + "*"] else words, g2)
      else (words, g1)
    else (words, g)
  }

  function QuestionStage(s: string, g: Rng): (r: (string, Rng))
    ensures r.0 == s || exists q :: q in Questions && r.0 == q + " " + s
    ensures DrewAtMost(g, r.1, 2)
  {
    var (v, g1) := Random(g);
    if v < 0.1 then
      var (q, g2) := Choice(Questions, g1);
      (q + " " + s, g2)
    else (s, g1)
  }

  /**
   * `_inject_style(sentence, intensity)`: skipped when the draw exceeds the
   * intensity; otherwise maybe a rhetorical question in front, maybe one word
   * emphasised, and the words joined again with single spaces.
   */
  function InjectStyle(s: string, intensity: real, g: Rng): (r: (string, Rng))
    ensures DrewAtMost(g, r.1, 5)
  {
    var (u, g1) := Random(g);
    if u > intensity then (s, g1)
    else
      var (s2, g2) := QuestionStage(s, g1);
      var (ws, g3) := Emphasis(Words(s2), g2);
      (JoinWith(" ", ws), g3)
  }

  /** Wrapping one word in `*` keeps every entry a word. */
  lemma WrapKeepsWords(words: seq<string>, out: seq<string>)
    requires forall k :: 0 <= k < |words| ==> IsWord(words[k])
    requires WrapsAtMostOne(words, out)
    ensures forall k :: 0 <= k < |out| ==> IsWord(out[k])
  {
    if out != words {
      var idx :| 1 <= idx <= |words| - 2 && words[idx] !in PlainWords
        && out == words[idx := "*" + words[idx] + "*"];
      var w := "*" + words[idx] + "*";
      assert forall i :: 0 <= i < |w| ==> w[i] == '*' || w[i] == words[idx][i - 1];
    }
  }

  /**
   * When the style step runs, the words of its result are the words of the
   * sentence (after an optional question) with at most one of them, neither the
   * first nor the last nor a plain word, wrapped in `*`.
   */
  lemma InjectStyleWords(s: string, intensity: real, g: Rng) returns (base: string)
    ensures var r := InjectStyle(s, intensity, g).0;
      r == s || ((base == s || exists q :: q in Questions && base == q + " " + s)
                 && WrapsAtMostOne(Words(base), Words(r)))
  {
    var (u, g1) := Random(g);
    base := s;
    if u <= intensity {
      var (s2, g2) := QuestionStage(s, g1);
      base := s2;
      var (ws, g3) := Emphasis(Words(s2), g2);
      WrapKeepsWords(Words(s2), ws);
      WordsOfJoin(ws);
    }
  }

  /**
   * The style gate is `random() > intensity`, so even at intensity 0 it opens
   * when the draw is exactly 0.0: the step goes on and draws again.
   */
  lemma InjectStyleOpensOnZeroDraw(s: string, g: Rng)
    requires g.tape(g.pos).u == 0.0
    ensures InjectStyle(s, 0.0, g).1.pos >= g.pos + 2
  {
  }

  // ---------------------------------------------------------------------
  // _get_simple_synonyms
  // ---------------------------------------------------------------------

  const SynonymTable: map<string, seq<string>> := map[
    "good" := ["great", "fine", "nice", "excellent", "solid"],
    "bad" := ["poor", "terrible", "awful", "lousy"],
    "big" := ["large", "huge", "massive", "enormous"],
    "small" := ["little", "tiny", "minor", "slight"],
    "fast" := ["quick", "rapid", "speedy", "swift"],
    "slow" := ["gradual", "leisurely", "sluggish"]]

  /** `_get_simple_synonyms(word)`: the table entry of `word.lower()`, or the empty list. */
  function Synonyms(word: string): (r: seq<string>)
    ensures r != [] <==> Lower(word) in SynonymTable
    ensures Lower(word) in SynonymTable ==> r == SynonymTable[Lower(word)]
  {
    var key := Lower(word);
    if key in SynonymTable then SynonymTable[key] else []
  }

  /** The lookup ignores case. */
  lemma SynonymsIgnoreCase(word: string)
    ensures Synonyms(word) == Synonyms(Lower(word))
  {
    LowerIdempotent(word);
  }

  /** Every synonym the table offers is a single word. */
  lemma SynonymsAreWords(word: string)
    ensures forall k :: 0 <= k < |Synonyms(word)| ==> IsWord(Synonyms(word)[k])
  {
    var key := Lower(word);
    if key in SynonymTable {
      assert key in {"good", "bad", "big", "small", "fast", "slow"};
      var ws := SynonymTable[key];
      forall k | 0 <= k < |ws| ensures IsWord(ws[k]) {
        RowWord(key, k);
      }
    }
  }

  /** A non-empty run of lower-case ASCII letters is a single word. */
  lemma LettersAreWord(w: string)
    requires w != [] && forall i :: 0 <= i < |w| ==> 'a' <= w[i] <= 'z'
    ensures IsWord(w)
  {
  }

  lemma RowWord(key: string, k: nat)
    requires key in SynonymTable && k < |SynonymTable[key]|
    ensures IsWord(SynonymTable[key][k])
  {
    var w := SynonymTable[key][k];
    assert w in {"great", "fine", "nice", "excellent", "solid", "poor", "terrible", "awful", "lousy",
                 "large", "huge", "massive", "enormous", "little", "tiny", "minor", "slight",
                 "quick", "rapid", "speedy", "swift", "gradual", "leisurely", "sluggish"};
    LettersAreWord(w);
  }

  // ---------------------------------------------------------------------
  // _paraphrase_sentence
  // ---------------------------------------------------------------------

  /**
   * `_paraphrase_sentence(sentence, intensity)`: skipped when the draw exceeds
   * the intensity; otherwise the paraphraser's output at temperature
   * `0.7 + intensity * 0.5` and length bound twice the word count, or the
   * sentence itself when generation raises.
   */
  function Paraphrase(s: string, intensity: real, prov: Providers, g: Rng): (r: (string, Rng))
    ensures r.1 == Skip(g, 1)
    ensures r.0 == s || prov.paraphrase(s, 0.7 + intensity * 0.5, |Words(s)| * 2) == Some(r.0)
  {
    var (u, g1) := Random(g);
    if u > intensity then (s, g1)
    else
      match prov.paraphrase(s, 0.7 + intensity * 0.5, |Words(s)| * 2)
      case None => (s, g1)
      case Some(p) => (p, g1)
  }

  // ---------------------------------------------------------------------
  // _modulate_perplexity
  // ---------------------------------------------------------------------

  /** What `_modulate_perplexity` can raise: a token index past the end of the word list. */
  datatype Raised = IndexError(index: nat)

  const ContentTags: seq<string> := ["NOUN", "VERB", "ADJ", "ADV"]

  /** Whether the token at position `i` is picked for a synonym, and the draw that decided. */
  function Picks(toks: seq<Token>, i: nat, intensity: real, u: Unit): bool
    requires i < |toks|
  {
    u < intensity * 0.1 && toks[i].pos in ContentTags && Synonyms(toks[i].text) != []
  }

  /**
   * The token loop from position `i` on: one draw per token, and for a picked
   * token a second draw for the synonym, written at the token's index.
   */
  function ModulateFrom(words: seq<string>, toks: seq<Token>, i: nat, intensity: real, g: Rng)
    : (r: Result<(seq<string>, Rng), Raised>)
    requires i <= |toks|
    ensures r.Ok? ==> r.value.1.tape == g.tape
    decreases |toks| - i
  {
    if i == |toks| then Ok((words, g))
    else
      var (u, g1) := Random(g);
      if Picks(toks, i, intensity, u) then
        var (w, g2) := Choice(Synonyms(toks[i].text), g1);
        if i < |words| then ModulateFrom(words[i := w], toks, i + 1, intensity, g2)
        else Err(IndexError(i))
      else ModulateFrom(words, toks, i + 1, intensity, g1)
  }

  /** `_modulate_perplexity(sentence, intensity)`, with the tagger as an oracle. */
  function Modulate(s: string, intensity: real, prov: Providers, g: Rng): (r: Result<(string, Rng), Raised>)
    ensures r.Ok? ==> r.value.1.tape == g.tape
  {
    match ModulateFrom(Words(s), prov.tag(s), 0, intensity, g)
    case Err(e) => Err(e)
    case Ok((ws, g1)) => Ok((JoinWith(" ", ws), g1))
  }

  /** `_modulate_perplexity`, with the token loop. */
  method ModulatePerplexity(s: string, intensity: real, prov: Providers, g: Rng)
    returns (r: Result<(string, Rng), Raised>)
    ensures r == Modulate(s, intensity, prov, g)
  {
    var words := Words(s);
    var toks := prov.tag(s);
    var g' := g;
    var i := 0;
    while i < |toks|
      invariant 0 <= i <= |toks|
      invariant ModulateFrom(words, toks, i, intensity, g') == ModulateFrom(Words(s), toks, 0, intensity, g)
    {
      var u;
      u, g' := Random(g').0, Random(g').1;
      if Picks(toks, i, intensity, u) {
        var w;
        w, g' := Choice(Synonyms(toks[i].text), g').0, Choice(Synonyms(toks[i].text), g').1;
        if i >= |words| {
          return Err(IndexError(i));
        }
        words := words[i := w];
      }
      i := i + 1;
    }
    return Ok((JoinWith(" ", words), g'));
  }

  /** With no more tokens than words no index is out of range, so nothing is raised. */
  lemma {:induction false} ModulateFromSucceeds(words: seq<string>, toks: seq<Token>, i: nat, intensity: real, g: Rng)
    requires i <= |toks| <= |words|
    ensures ModulateFrom(words, toks, i, intensity, g).Ok?
    decreases |toks| - i
  {
    if i < |toks| {
      var (u, g1) := Random(g);
      if Picks(toks, i, intensity, u) {
        var (w, g2) := Choice(Synonyms(toks[i].text), g1);
        ModulateFromSucceeds(words[i := w], toks, i + 1, intensity, g2);
      } else {
        ModulateFromSucceeds(words, toks, i + 1, intensity, g1);
      }
    }
  }

  /** `_modulate_perplexity` raises only when the tagger yields more tokens than there are words. */
  lemma ModulateSucceedsWhenAligned(s: string, intensity: real, prov: Providers, g: Rng)
    requires |prov.tag(s)| <= |Words(s)|
    ensures Modulate(s, intensity, prov, g).Ok?
  {
    ModulateFromSucceeds(Words(s), prov.tag(s), 0, intensity, g);
  }

  /**
   * The loop keeps the number of words, and every word it changes becomes a
   * synonym of the text of some token.
   */
  lemma {:induction false} ModulateFromKeepsWords(words: seq<string>, toks: seq<Token>, i: nat, intensity: real, g: Rng)
    requires i <= |toks|
    requires ModulateFrom(words, toks, i, intensity, g).Ok?
    ensures var ws := ModulateFrom(words, toks, i, intensity, g).value.0;
      |ws| == |words| && forall k :: 0 <= k < |ws| ==>
        ws[k] == words[k] || exists t :: t in toks && ws[k] in Synonyms(t.text)
    decreases |toks| - i
  {
    if i < |toks| {
      var (u, g1) := Random(g);
      if Picks(toks, i, intensity, u) {
        var (w, g2) := Choice(Synonyms(toks[i].text), g1);
        assert i < |words|;
        ModulateFromKeepsWords(words[i := w], toks, i + 1, intensity, g2);
        assert toks[i] in toks && w in Synonyms(toks[i].text);
      } else {
        ModulateFromKeepsWords(words, toks, i + 1, intensity, g1);
      }
    }
  }

  /** With intensity 0 no token is picked: the words come back joined with single spaces, one draw per token. */
  lemma {:induction false} ModulateFromAtZero(words: seq<string>, toks: seq<Token>, i: nat, g: Rng)
    requires i <= |toks|
    ensures ModulateFrom(words, toks, i, 0.0, g) == Ok((words, Skip(g, |toks| - i)))
    decreases |toks| - i
  {
    if i < |toks| {
      ModulateFromAtZero(words, toks, i + 1, Random(g).1);
    }
  }

  lemma ModulateAtZero(s: string, prov: Providers, g: Rng)
    ensures Modulate(s, 0.0, prov, g) == Ok((JoinWith(" ", Words(s)), Skip(g, |prov.tag(s)|)))
  {
    ModulateFromAtZero(Words(s), prov.tag(s), 0, g);
  }
}
