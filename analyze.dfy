/**
 * The AI-pattern analyzer: a heuristic score in steps of 25 from
 * sentence-length variance, missing contractions and stock phrases, and the
 * tier and intensity the detect-and-humanize endpoint picks from it.
 */
module Analyze {
  import opened Wrappers
  import opened PyStr
  import Service

  /** The substrings whose presence counts as a contraction. */
  const ContractionMarks: seq<string> := ["'s", "'t", "'re", "'ve", "'ll", "'d", "'m"]

  /** Phrases typical of generated text, looked for in the lowercased text. */
  const AiPhrases: seq<string> := [
    "it is important to note", "in conclusion", "furthermore", "moreover",
    "nevertheless", "it should be noted", "in summary"]

  const HighNeed: string := "High humanization needed"
  const LightNeed: string := "Light touch-up sufficient"

  datatype Patterns = Patterns(
    repetitiveStructure: bool,
    uniformSentenceLength: bool,
    lackOfContractions: bool,
    formalTone: bool,
    perfectGrammar: bool,
    aiPhrases: seq<string>)

  /** The fields of the analysis response. */
  datatype Analysis = Analysis(
    textLength: nat,
    sentenceCount: nat,
    patterns: Patterns,
    probability: string,
    recommendation: string)

  // ---------------------------------------------------------------------
  // Sentence lengths and their variance
  // ---------------------------------------------------------------------

  /** `[len(s.split()) for s in pieces if s.strip()]`. */
  function Lengths(pieces: seq<string>): (r: seq<nat>)
    ensures |r| <= |pieces|
  {
    if pieces == [] then []
    else (if Strip(pieces[0]) != [] then [|Words(pieces[0])|] else []) + Lengths(pieces[1..])
  }

  function Sum(ls: seq<nat>): nat {
    if ls == [] then 0 else ls[0] + Sum(ls[1..])
  }

  function SquaredDeviation(ls: seq<nat>, mean: real): (r: real)
    ensures r >= 0.0
  {
    if ls == [] then 0.0 else (ls[0] as real - mean) * (ls[0] as real - mean) + SquaredDeviation(ls[1..], mean)
  }

  /** The population variance of the lengths (exact), 0 for no lengths. */
  function Variance(ls: seq<nat>): (v: real)
    ensures v >= 0.0
  {
    if ls == [] then 0.0
    else
      var mean := Sum(ls) as real / |ls| as real;
      SquaredDeviation(ls, mean) / |ls| as real
  }

  lemma NonBlankHasWord(s: string)
    requires Strip(s) != []
    ensures |Words(s)| >= 1
  {
    StripEmptyIffAllSpace(s);
    WordsEmptyIffAllSpace(s);
  }

  lemma PositiveCons(x: nat, rest: seq<nat>)
    requires x >= 1 && forall k :: 0 <= k < |rest| ==> rest[k] >= 1
    ensures forall k :: 0 <= k < |[x] + rest| ==> ([x] + rest)[k] >= 1
  {
    var r := [x] + rest;
    assert forall k :: 1 <= k < |r| ==> r[k] == rest[k - 1];
  }

  /** Each non-blank piece has at least one word. */
  lemma {:induction false} LengthsPositive(pieces: seq<string>)
    ensures forall k :: 0 <= k < |Lengths(pieces)| ==> Lengths(pieces)[k] >= 1
  {
    if pieces != [] {
      LengthsPositive(pieces[1..]);
      var rest := Lengths(pieces[1..]);
      if Strip(pieces[0]) != [] {
        var n := |Words(pieces[0])|;
        NonBlankHasWord(pieces[0]);
        PositiveCons(n, rest);
        assert Lengths(pieces) == [n] + rest;
      } else {
        assert Lengths(pieces) == rest;
      }
    }
  }

  /** No length is measured exactly when every piece strips to nothing. */
  lemma {:induction false} LengthsEmptyIffBlank(pieces: seq<string>)
    ensures Lengths(pieces) == [] <==> forall k :: 0 <= k < |pieces| ==> Strip(pieces[k]) == []
  {
    if pieces != [] {
      LengthsEmptyIffBlank(pieces[1..]);
      LengthsEmptyCons(pieces);
      AllBlankCons(pieces);
    }
  }

  lemma LengthsEmptyCons(pieces: seq<string>)
    requires pieces != []
    ensures Lengths(pieces) == [] <==> Strip(pieces[0]) == [] && Lengths(pieces[1..]) == []
  {
  }

  lemma AllBlankCons(pieces: seq<string>)
    requires pieces != []
    ensures (forall k :: 0 <= k < |pieces| ==> Strip(pieces[k]) == [])
      <==> Strip(pieces[0]) == [] && forall k :: 0 <= k < |pieces[1..]| ==> Strip(pieces[1..][k]) == []
  {
    AllCons(pieces, (p: string) => Strip(p) == []);
  }

  lemma {:induction false} SumOfEqual(ls: seq<nat>, c: nat)
    requires forall k :: 0 <= k < |ls| ==> ls[k] == c
    ensures Sum(ls) == |ls| * c
  {
    if ls != [] {
      SumOfEqual(ls[1..], c);
    }
  }

  lemma {:induction false} DeviationFromEqual(ls: seq<nat>, c: nat)
    requires forall k :: 0 <= k < |ls| ==> ls[k] == c
    ensures SquaredDeviation(ls, c as real) == 0.0
  {
    if ls != [] {
      DeviationFromEqual(ls[1..], c);
    }
  }

  /** Sentences of one and the same length have variance 0, so they always count as uniform. */
  lemma EqualLengthsZeroVariance(ls: seq<nat>)
    requires forall k :: 0 <= k < |ls| ==> ls[k] == ls[0]
    ensures Variance(ls) == 0.0
  {
    if ls != [] {
      SumOfEqual(ls, ls[0]);
      assert (|ls| * ls[0]) as real / |ls| as real == ls[0] as real;
      DeviationFromEqual(ls, ls[0]);
    }
  }

  // ---------------------------------------------------------------------
  // Contractions and phrases
  // ---------------------------------------------------------------------

  /** `any(p in t for p in ps)`. */
  predicate AnyOccurs(ps: seq<string>, t: string) {
    ps != [] && (Contains(t, ps[0]) || AnyOccurs(ps[1..], t))
  }

  lemma {:induction false} AnyOccursIff(ps: seq<string>, t: string)
    ensures AnyOccurs(ps, t) <==> exists k :: 0 <= k < |ps| && Contains(t, ps[k])
  {
    if ps != [] {
      AnyOccursIff(ps[1..], t);
      assert forall k :: 1 <= k < |ps| ==> ps[k] == ps[1..][k - 1];
      if exists k :: 0 <= k < |ps| && Contains(t, ps[k]) {
        var k :| 0 <= k < |ps| && Contains(t, ps[k]);
        assert k == 0 || Contains(t, ps[1..][k - 1]);
      }
    }
  }

  /** `[p for p in ps if p in t]`. */
  function Keep(ps: seq<string>, t: string): seq<string> {
    if ps == [] then [] else (if Contains(t, ps[0]) then [ps[0]] else []) + Keep(ps[1..], t)
  }

  /** `xs` is `ys` with some entries left out, the rest in their order. */
  ghost predicate IsSubsequence(xs: seq<string>, ys: seq<string>)
    decreases |ys|
  {
    xs == [] || (ys != [] && ((xs[0] == ys[0] && IsSubsequence(xs[1..], ys[1..])) || IsSubsequence(xs, ys[1..])))
  }

  /** The kept phrases are exactly those of the list that occur, in list order. */
  lemma {:induction false} KeepIsOrderedFilter(ps: seq<string>, t: string)
    ensures IsSubsequence(Keep(ps, t), ps)
    ensures forall p :: p in Keep(ps, t) <==> p in ps && Contains(t, p)
  {
    if ps != [] {
      KeepIsOrderedFilter(ps[1..], t);
      var rest := Keep(ps[1..], t);
      if Contains(t, ps[0]) {
        assert Keep(ps, t) == [ps[0]] + rest;
        assert ([ps[0]] + rest)[1..] == rest;
      } else {
        assert Keep(ps, t) == rest;
      }
      assert forall p :: p in ps <==> p == ps[0] || p in ps[1..];
    }
  }

  // ---------------------------------------------------------------------
  // The score and the response
  // ---------------------------------------------------------------------

  /** The decimal digits of `n`. */
  function Decimal(n: nat): (s: string)
    decreases n
  {
    if n < 10 then [('0' as int + n) as char] else Decimal(n / 10) + [('0' as int + n % 10) as char]
  }

  /** `f"{score}%"`. */
  function Percent(n: nat): string {
    Decimal(n) + "%"
  }

  /** The score the four checks add up to. */
  function AiScore(text: string): nat {
    var ls := Lengths(SplitOn(text, '.'));
    var v := Variance(ls);
    (if ls != [] && v < 10.0 then 25 else 0)
    + (if !AnyOccurs(ContractionMarks, text) then 25 else 0)
    + (if |Keep(AiPhrases, Lower(text))| > 2 then 25 else 0)
    + (if v < 5.0 then 25 else 0)
  }

  /** The response of `analyze_text`. */
  function Analyze(text: string): Analysis {
    var pieces := SplitOn(text, '.');
    var ls := Lengths(pieces);
    var score := AiScore(text);
    Analysis(
      |text|, |pieces|,
      Patterns(false, ls != [] && Variance(ls) < 10.0, !AnyOccurs(ContractionMarks, text), false, false,
               Keep(AiPhrases, Lower(text))),
      Percent(score),
      if score > 50 then HighNeed else LightNeed)
  }

  /** `analyze_text`: the pattern entries filled in one by one and the score accumulated. */
  method AnalyzeText(text: string) returns (a: Analysis)
    ensures a == Analyze(text)
    ensures AiScore(text) in {0, 25, 50, 75, 100}
  {
    var sentences := SplitOn(text, '.');
    var lengths := Lengths(sentences);
    var patterns := Patterns(false, false, false, false, false, []);
    var variance := 0.0;
    if lengths != [] {
      variance := Variance(lengths);
      patterns := patterns.(uniformSentenceLength := variance < 10.0);
    }
    var hasContractions := AnyOccurs(ContractionMarks, text);
    patterns := patterns.(lackOfContractions := !hasContractions);
    var found := Keep(AiPhrases, Lower(text));
    patterns := patterns.(aiPhrases := found);
    var score := 0;
    if patterns.uniformSentenceLength {
      score := score + 25;
    }
    if patterns.lackOfContractions {
      score := score + 25;
    }
    if |found| > 2 {
      score := score + 25;
    }
    if variance < 5.0 {
      score := score + 25;
    }
    assert score == AiScore(text);
    a := Analysis(|text|, |sentences|, patterns, Percent(score),
                  if score > 50 then HighNeed else LightNeed);
  }

  /**
   * What the response reports: one sentence more than there are periods,
   * the contraction flag exactly when none of the seven marks occurs, the
   * listed phrases in list order exactly when they occur in the lowercased
   * text, and the high recommendation exactly above 50.
   */
  lemma AnalysisReports(text: string)
    ensures Analyze(text).sentenceCount == CountChar(text, '.') + 1
    ensures Analyze(text).patterns.lackOfContractions
      <==> forall k :: 0 <= k < |ContractionMarks| ==> !Contains(text, ContractionMarks[k])
    ensures IsSubsequence(Analyze(text).patterns.aiPhrases, AiPhrases)
    ensures forall p :: p in Analyze(text).patterns.aiPhrases <==> p in AiPhrases && Contains(Lower(text), p)
    ensures Analyze(text).recommendation == HighNeed <==> AiScore(text) > 50
  {
    SplitOnRoundTrip(text, '.');
    AnyOccursIff(ContractionMarks, text);
    KeepIsOrderedFilter(AiPhrases, Lower(text));
  }

  /**
   * A text with no non-blank piece between periods has variance 0 and is
   * not flagged uniform, yet the low-variance check still adds 25.
   */
  lemma BlankPiecesStillScore(text: string)
    requires forall k :: 0 <= k < |SplitOn(text, '.')| ==> Strip(SplitOn(text, '.')[k]) == []
    ensures !Analyze(text).patterns.uniformSentenceLength
    ensures AiScore(text) >= 25
  {
    var ls := Lengths(SplitOn(text, '.'));
    LengthsEmptyIffBlank(SplitOn(text, '.'));
    assert ls == [] && Variance(ls) == 0.0;
    assert (if Variance(ls) < 5.0 then 25 else 0) == 25;
  }

  // ---------------------------------------------------------------------
  // detect_and_humanize: reading the score back and choosing the tier
  // ---------------------------------------------------------------------

  predicate IsDigit(c: char) {
    '0' <= c <= '9'
  }

  function DigitsValue(s: string): nat
    requires forall k :: 0 <= k < |s| ==> IsDigit(s[k])
    decreases |s|
  {
    if s == [] then 0
    else
      assert IsDigit(s[|s| - 1]);
      DigitsValue(s[..|s| - 1]) * 10 + (s[|s| - 1] as int - '0' as int)
  }

  /** `s.rstrip(c)`. */
  function RStripChar(s: string, c: char): (r: string)
    ensures |r| <= |s|
    decreases |s|
  {
    if s != [] && s[|s| - 1] == c then RStripChar(s[..|s| - 1], c) else s
  }

  /** `int(s.rstrip('%'))` on a plain digit string; anything else raises `ValueError`. */
  function ParseScore(s: string): Option<nat> {
    var t := RStripChar(s, '%');
    if t != [] && forall k :: 0 <= k < |t| ==> IsDigit(t[k]) then Some(DigitsValue(t)) else None
  }

  lemma {:induction false} DecimalDigits(n: nat)
    ensures var d := Decimal(n);
      d != [] && (forall k :: 0 <= k < |d| ==> IsDigit(d[k])) && DigitsValue(d) == n
    decreases n
  {
    if n >= 10 {
      DecimalDigits(n / 10);
      var d := Decimal(n / 10);
      var e := d + [('0' as int + n % 10) as char];
      assert e[..|e| - 1] == d;
      assert forall k :: 0 <= k < |d| ==> e[k] == d[k];
    }
  }

  /** The score read back from the formatted probability is the score itself. */
  lemma PercentRoundTrip(n: nat)
    ensures ParseScore(Percent(n)) == Some(n)
  {
    DecimalDigits(n);
    var d := Decimal(n);
    assert (d + "%")[..|d + "%"| - 1] == d;
    assert RStripChar(d + "%", '%') == RStripChar(d, '%');
  }

  /** The mode and intensity picked for a score. */
  function AutoSettings(score: int): (r: (string, real))
    ensures r.0 in Service.Modes
    ensures r.0 == "quality" <==> score > 75
    ensures r.0 == "balanced" <==> 50 < score <= 75
    ensures r.0 == "fast" <==> score <= 50
    ensures r.1 == (if score > 75 then 0.9 else if score > 50 then 0.7 else 0.5)
  {
    if score > 75 then ("quality", 0.9)
    else if score > 50 then ("balanced", 0.7)
    else ("fast", 0.5)
  }

  /** A higher score never gets a lower intensity. */
  lemma AutoSettingsMonotone(a: int, b: int)
    requires a <= b
    ensures AutoSettings(a).1 <= AutoSettings(b).1
  {
  }

  /** `detect_and_humanize`'s choice from the analysis: the probability read back, then the thresholds. */
  function DetectSettings(a: Analysis): Option<(string, real)> {
    match ParseScore(a.probability)
    case None => None
    case Some(score) => Some(AutoSettings(score))
  }

  /**
   * The choice follows the analyzer's own score, the chosen mode is one the
   * service accepts, and a tier above fast is picked exactly when the
   * analysis recommends high humanization.
   */
  lemma DetectFollowsAnalysis(text: string)
    ensures DetectSettings(Analyze(text)) == Some(AutoSettings(AiScore(text)))
    ensures DetectSettings(Analyze(text)).value.0 in Service.Modes
    ensures DetectSettings(Analyze(text)).value.0 != "fast" <==> Analyze(text).recommendation == HighNeed
  {
    PercentRoundTrip(AiScore(text));
  }

  // ---------------------------------------------------------------------
  // detect_and_humanize: building the humanize request
  // ---------------------------------------------------------------------

  /** The request `detect_and_humanize` hands to the humanize endpoint. */
  datatype HumanizeRequest = HumanizeRequest(text: string, mode: string, intensity: real, preserveMeaning: bool)

  /** Why the endpoint answers with HTTP 500. */
  datatype Failure =
    | ScoreNotInteger        // `int(...)` raises `ValueError`
    | NameNotDefined(name: string)  // a name the module never imports

  /**
   * `detect_and_humanize` as written: after the thresholds, the request is
   * built with `HumanizeRequest`, which the module never imports (only the
   * analyze and detect schemas and `humanize_text` are), so `NameError` is
   * raised and turned into HTTP 500.
   */
  function DetectRequestAsWritten(text: string): (r: Result<HumanizeRequest, Failure>)
    ensures r.Err?
  {
    match DetectSettings(Analyze(text))
    case None => Err(ScoreNotInteger)
    case Some(_) => Err(NameNotDefined("HumanizeRequest"))
  }

  /** Every call of the endpoint as written fails on the missing name, after a successful analysis and choice. */
  lemma DetectAsWrittenAlwaysFails(text: string)
    ensures DetectSettings(Analyze(text)).Some?
    ensures DetectRequestAsWritten(text) == Err(NameNotDefined("HumanizeRequest"))
  {
    DetectFollowsAnalysis(text);
  }

  /** `detect_and_humanize` with `HumanizeRequest` imported: the request for the chosen mode and intensity. */
  function DetectRequest(text: string): (r: Result<HumanizeRequest, Failure>)
    ensures r.Ok? ==> r.value.text == text && r.value.preserveMeaning && r.value.mode in Service.Modes
  {
    match DetectSettings(Analyze(text))
    case None => Err(ScoreNotInteger)
    case Some((mode, intensity)) => Ok(HumanizeRequest(text, mode, intensity, true))
  }

  /**
   * The intended endpoint always builds its request: the original text, with
   * meaning preservation, at the mode and intensity the analyzer's own score
   * selects.
   */
  lemma DetectRequestFollowsScore(text: string)
    ensures DetectRequest(text).Ok?
    ensures var (mode, intensity) := AutoSettings(AiScore(text));
      DetectRequest(text) == Ok(HumanizeRequest(text, mode, intensity, true))
  {
    DetectFollowsAnalysis(text);
  }
}
