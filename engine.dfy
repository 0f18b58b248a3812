/**
 * The humanizer engine: it splits a text into sentences, rewrites each
 * sentence with the techniques it is configured with, and lays the result
 * out in paragraphs. The fast tier uses the pattern techniques only; the full
 * tier also calls the models and reverts a sentence whose meaning drifted.
 */
module Engine {
  import opened Wrappers
  import opened PyStr
  import opened Rand
  import opened Splitter
  import opened Techniques
  import opened Composer

  const SentenceVariation: string := "sentence_variation"
  const PerplexityModulation: string := "perplexity_modulation"
  const StylisticInjection: string := "stylistic_injection"
  const SemanticParaphrasing: string := "semantic_paraphrasing"
  const HumanPatterning: string := "human_patterns"

  /** The techniques of an engine built without a list (or with an empty one). */
  const DefaultTechniques: seq<string> :=
    [SentenceVariation, PerplexityModulation, StylisticInjection, SemanticParaphrasing, HumanPatterning]

  /** Transition phrases put in front of a sentence other than the first. */
  const Transitions: seq<string> := [
    "Actually,", "You know,", "To be honest,", "Interestingly,",
    "Here's the thing:", "The way I see it,", "From my perspective,",
    "Let me explain:", "Basically,", "In other words,", "Simply put,",
    "Well,", "So,", "Now,", "Look,", "See,", "Anyway,", "Besides,"]

  // ---------------------------------------------------------------------
  // Model selection
  // ---------------------------------------------------------------------

  /** The paraphrasing, style and embedding models an engine loads. */
  datatype ModelNames = ModelNames(paraphrase: string, style: string, semantic: string)

  const SmallModels := ModelNames("Vamsi/T5_Paraphrase_Paws", "distilgpt2", "sentence-transformers/all-MiniLM-L6-v2")
  const MediumModels := ModelNames(
    "ramsrigouthamg/t5-large-paraphraser-diverse-high-quality", "gpt2-medium",
    "sentence-transformers/all-mpnet-base-v2")
  const LargeModels := ModelNames(
    "humarin/chatgpt_paraphraser_on_T5_base", "gpt2-large", "sentence-transformers/all-roberta-large-v1")

  /** `_init_models`: "small" and "medium" pick their own set; every other size picks the large one. */
  function ModelsFor(size: string): (r: ModelNames)
    ensures r == SmallModels <==> size == "small"
    ensures r == MediumModels <==> size == "medium"
    ensures r == LargeModels <==> size != "small" && size != "medium"
  {
    if size == "small" then SmallModels
    else if size == "medium" then MediumModels
    else LargeModels
  }

  // ---------------------------------------------------------------------
  // The fast tier
  // ---------------------------------------------------------------------

  /** `t + " " + s.lower()` for some transition phrase `t`. */
  ghost predicate Opens(r: string, s: string) {
    exists t :: t in Transitions && r == t + " " + Lower(s)
  }

  /**
   * The transition step of `_fast_humanize`: the draw is made only for a
   * sentence other than the first, and below `intensity * 0.3` a drawn
   * transition goes in front of the lowercased sentence.
   */
  function TransitionStage(s: string, i: nat, intensity: real, g: Rng): (r: (string, Rng))
    ensures r.0 == s || (i > 0 && Opens(r.0, s))
    ensures i == 0 ==> r == (s, g)
    ensures DrewAtMost(g, r.1, 2)
  {
    if i > 0 then
      var (u, g1) := Random(g);
      if u < intensity * 0.3 then
        var (t, g2) := Choice(Transitions, g1);
        (t + " " + Lower(s), g2)
      else (s, g1)
    else (s, g)
  }

  /** One sentence of `_fast_humanize`, the one at index `i`. */
  function FastStep(s: string, i: nat, techniques: seq<string>, intensity: real, g: Rng): (r: (string, Rng))
    ensures DrewAtMost(g, r.1, 16)
  {
    var (s1, g1) := if SentenceVariation in techniques then Vary(s, intensity, g) else (s, g);
    var (s2, g2) := if HumanPatterning in techniques then HumanPatterns(s1, intensity, g1) else (s1, g1);
    TransitionStage(s2, i, intensity, g2)
  }

  /** What a sentence loop does to sentence `i`: its output and the random source moved on. */
  type Stepper = (string, nat, Rng) -> (string, Rng)

  /** A step that reads the random source without replacing its tape. */
  ghost predicate KeepsTape(step: Stepper) {
    forall s, i, g :: step(s, i, g).1.tape == g.tape
  }

  /** A sentence loop from index `i` on, `acc` holding the sentences done: one `step` per sentence, in order. */
  function LoopFrom(ss: seq<string>, i: nat, acc: seq<string>, step: Stepper, g: Rng): (r: (seq<string>, Rng))
    requires i <= |ss|
    ensures |r.0| == |acc| + |ss| - i && forall j :: 0 <= j < |acc| ==> r.0[j] == acc[j]
    decreases |ss| - i
  {
    if i == |ss| then (acc, g)
    else
      var st := step(ss[i], i, g);
      LoopFrom(ss, i + 1, acc + [st.0], step, st.1)
  }

  lemma {:induction false} LoopKeepsTape(ss: seq<string>, i: nat, acc: seq<string>, step: Stepper, g: Rng)
    requires i <= |ss| && KeepsTape(step)
    ensures LoopFrom(ss, i, acc, step, g).1.tape == g.tape
    decreases |ss| - i
  {
    if i < |ss| {
      var st := step(ss[i], i, g);
      LoopKeepsTape(ss, i + 1, acc + [st.0], step, st.1);
    }
  }

  lemma LoopUnfold(ss: seq<string>, i: nat, acc: seq<string>, step: Stepper, g: Rng)
    requires i < |ss|
    ensures var st := step(ss[i], i, g);
      LoopFrom(ss, i, acc, step, g) == LoopFrom(ss, i + 1, acc + [st.0], step, st.1)
      && LoopFrom(ss, i, acc, step, g).0[|acc|] == st.0
  {
    var st := step(ss[i], i, g);
    assert LoopFrom(ss, i + 1, acc + [st.0], step, st.1).0[|acc|] == (acc + [st.0])[|acc|];
  }

  /** Output `k` of the loop, counted from index `i`, is `step` on input `k`, from a later point `gk` of the same tape. */
  lemma {:induction false} LoopAt(ss: seq<string>, i: nat, acc: seq<string>, k: nat, step: Stepper, g: Rng)
    returns (gk: Rng)
    requires i <= k < |ss| && KeepsTape(step)
    ensures gk.tape == g.tape
    ensures LoopFrom(ss, i, acc, step, g).0[|acc| + k - i] == step(ss[k], k, gk).0
    decreases k - i
  {
    var st := step(ss[i], i, g);
    LoopUnfold(ss, i, acc, step, g);
    if k == i {
      gk := g;
    } else {
      gk := LoopAt(ss, i + 1, acc + [st.0], k, step, st.1);
    }
  }

  /** A step that gives every sentence back gives the sentences back. */
  lemma {:induction false} LoopIdentity(ss: seq<string>, i: nat, acc: seq<string>, step: Stepper, g: Rng)
    requires i <= |ss|
    requires forall s, j, h :: step(s, j, h).0 == s
    ensures LoopFrom(ss, i, acc, step, g).0 == acc + ss[i..]
    decreases |ss| - i
  {
    if i < |ss| {
      var st := step(ss[i], i, g);
      LoopUnfold(ss, i, acc, step, g);
      LoopIdentity(ss, i + 1, acc + [ss[i]], step, st.1);
      assert ss[i..] == [ss[i]] + ss[i + 1..];
    }
  }

  /** The step `_fast_humanize` applies to each sentence. */
  function FastStepper(techniques: seq<string>, intensity: real): (f: Stepper)
    ensures KeepsTape(f)
  {
    (s: string, i: nat, g: Rng) => FastStep(s, i, techniques, intensity, g)
  }

  /** The sentence loop of `_fast_humanize` from index `i` on, `acc` holding the sentences done. */
  function FastFrom(ss: seq<string>, i: nat, acc: seq<string>, techniques: seq<string>, intensity: real, g: Rng)
    : (r: (seq<string>, Rng))
    requires i <= |ss|
    ensures r.1.tape == g.tape
  {
    LoopKeepsTape(ss, i, acc, FastStepper(techniques, intensity), g);
    LoopFrom(ss, i, acc, FastStepper(techniques, intensity), g)
  }

  /** `_fast_humanize(sentences, intensity)`. */
  function FastHumanizeSpec(ss: seq<string>, techniques: seq<string>, intensity: real, g: Rng): (r: (string, Rng))
    ensures r.1.tape == g.tape
  {
    var (out, g1) := FastFrom(ss, 0, [], techniques, intensity, g);
    Compose(out, intensity, g1)
  }

  // ---------------------------------------------------------------------
  // The full tier
  // ---------------------------------------------------------------------

  /** Paraphrase and structure variation, the two steps before the perplexity step. */
  function Prepare(s: string, techniques: seq<string>, intensity: real, prov: Providers, g: Rng): (r: (string, Rng))
    ensures r.1.tape == g.tape
  {
    var (s1, g1) := if SemanticParaphrasing in techniques then Paraphrase(s, intensity, prov, g) else (s, g);
    if SentenceVariation in techniques then Vary(s1, intensity, g1) else (s1, g1)
  }

  /** Style injection and human patterns, the two steps after the perplexity step. */
  function Finish(s: string, techniques: seq<string>, intensity: real, g: Rng): (r: (string, Rng))
    ensures r.1.tape == g.tape
  {
    var (s4, g4) := if StylisticInjection in techniques then InjectStyle(s, intensity, g) else (s, g);
    if HumanPatterning in techniques then HumanPatterns(s4, intensity, g4) else (s4, g4)
  }

  /** The five techniques of `_full_humanize` in their order; only the perplexity step can raise. */
  function Mutate(s: string, techniques: seq<string>, intensity: real, prov: Providers, g: Rng)
    : (r: Result<(string, Rng), Raised>)
    ensures r.Ok? ==> r.value.1.tape == g.tape
    ensures PerplexityModulation !in techniques ==> r.Ok?
  {
    var (s2, g2) := Prepare(s, techniques, intensity, prov, g);
    var m := if PerplexityModulation in techniques then Modulate(s2, intensity, prov, g2) else Ok((s2, g2));
    match m
    case Err(e) => Err(e)
    case Ok((s3, g3)) => Ok(Finish(s3, techniques, intensity, g3))
  }

  /**
   * The semantic gate: with meaning preservation on and the mutation drifted
   * from the original, the original gets the human patterns at half intensity
   * instead.
   */
  function Gate(s: string, m: string, intensity: real, preserve: bool, prov: Providers, g: Rng): (r: (string, Rng))
    ensures r.1.tape == g.tape
  {
    if preserve && prov.drifted(s, m) then HumanPatterns(s, intensity * 0.5, g) else (m, g)
  }

  /** One sentence of `_full_humanize`. */
  function FullStep(s: string, techniques: seq<string>, intensity: real, preserve: bool, prov: Providers, g: Rng)
    : (r: Result<(string, Rng), Raised>)
    ensures r.Ok? ==> r.value.1.tape == g.tape
    ensures PerplexityModulation !in techniques ==> r.Ok?
  {
    match Mutate(s, techniques, intensity, prov, g)
    case Err(e) => Err(e)
    case Ok((m, g1)) => Ok(Gate(s, m, intensity, preserve, prov, g1))
  }

  /** What a sentence loop that can raise does to one sentence: its output and the moved random source, or the error. */
  type TryStepper = (string, Rng) -> Result<(string, Rng), Raised>

  /** A step that, when it succeeds, reads the random source without replacing its tape. */
  ghost predicate TryKeepsTape(step: TryStepper) {
    forall s, g :: step(s, g).Ok? ==> step(s, g).value.1.tape == g.tape
  }

  /** A sentence loop from index `i` on that stops at the first sentence whose step raises. */
  function TryLoopFrom(ss: seq<string>, i: nat, acc: seq<string>, step: TryStepper, g: Rng)
    : (r: Result<(seq<string>, Rng), Raised>)
    requires i <= |ss|
    ensures r.Ok? ==> |r.value.0| == |acc| + |ss| - i && forall j :: 0 <= j < |acc| ==> r.value.0[j] == acc[j]
    decreases |ss| - i
  {
    if i == |ss| then Ok((acc, g))
    else
      match step(ss[i], g)
      case Err(e) => Err(e)
      case Ok((s, g1)) => TryLoopFrom(ss, i + 1, acc + [s], step, g1)
  }

  lemma {:induction false} TryLoopKeepsTape(ss: seq<string>, i: nat, acc: seq<string>, step: TryStepper, g: Rng)
    requires i <= |ss| && TryKeepsTape(step)
    ensures TryLoopFrom(ss, i, acc, step, g).Ok? ==> TryLoopFrom(ss, i, acc, step, g).value.1.tape == g.tape
    decreases |ss| - i
  {
    if i < |ss| && step(ss[i], g).Ok? {
      var (s, g1) := step(ss[i], g).value;
      TryLoopKeepsTape(ss, i + 1, acc + [s], step, g1);
    }
  }

  /**
   * Output `k` of a loop that succeeded, counted from index `i`, is a
   * successful `step` on input `k` from a later point `gk` of the same tape.
   */
  lemma {:induction false} TryLoopAt(ss: seq<string>, i: nat, acc: seq<string>, k: nat, step: TryStepper, g: Rng)
    returns (gk: Rng)
    requires i <= k < |ss| && TryKeepsTape(step)
    requires TryLoopFrom(ss, i, acc, step, g).Ok?
    ensures gk.tape == g.tape && step(ss[k], gk).Ok?
    ensures TryLoopFrom(ss, i, acc, step, g).value.0[|acc| + k - i] == step(ss[k], gk).value.0
    decreases k - i
  {
    var (s, g1) := step(ss[i], g).value;
    var acc' := acc + [s];
    if k == i {
      gk := g;
      assert TryLoopFrom(ss, i + 1, acc', step, g1).value.0[|acc|] == acc'[|acc|];
    } else {
      gk := TryLoopAt(ss, i + 1, acc', k, step, g1);
      assert |acc| + k - i == |acc'| + k - (i + 1);
    }
  }

  /** A step that never raises makes a loop that never raises. */
  lemma {:induction false} TryLoopSucceeds(ss: seq<string>, i: nat, acc: seq<string>, step: TryStepper, g: Rng)
    requires i <= |ss|
    requires forall s, h :: step(s, h).Ok?
    ensures TryLoopFrom(ss, i, acc, step, g).Ok?
    decreases |ss| - i
  {
    if i < |ss| {
      var (s, g1) := step(ss[i], g).value;
      TryLoopSucceeds(ss, i + 1, acc + [s], step, g1);
    }
  }

  /** The step `_full_humanize` applies to each sentence. */
  function FullStepper(techniques: seq<string>, intensity: real, preserve: bool, prov: Providers): (f: TryStepper)
    ensures TryKeepsTape(f)
  {
    (s: string, g: Rng) => FullStep(s, techniques, intensity, preserve, prov, g)
  }

  /** The sentence loop of `_full_humanize` from index `i` on; an error ends it. */
  function FullFrom(ss: seq<string>, i: nat, acc: seq<string>, techniques: seq<string>, intensity: real,
                    preserve: bool, prov: Providers, g: Rng): (r: Result<(seq<string>, Rng), Raised>)
    requires i <= |ss|
    ensures r.Ok? ==> r.value.1.tape == g.tape
  {
    TryLoopKeepsTape(ss, i, acc, FullStepper(techniques, intensity, preserve, prov), g);
    TryLoopFrom(ss, i, acc, FullStepper(techniques, intensity, preserve, prov), g)
  }

  /** `_full_humanize(sentences, intensity, preserve_meaning)`. */
  function FullHumanizeSpec(ss: seq<string>, techniques: seq<string>, intensity: real, preserve: bool,
                            prov: Providers, g: Rng): (r: Result<(string, Rng), Raised>)
  {
    match FullFrom(ss, 0, [], techniques, intensity, preserve, prov, g)
    case Err(e) => Err(e)
    case Ok((out, g1)) => Ok(Compose(out, intensity, g1))
  }

  /** `humanize(text, intensity, preserve_meaning, fast_mode)` once the models are loaded. */
  function HumanizeSpec(text: string, techniques: seq<string>, intensity: real, preserve: bool, fast: bool,
                        prov: Providers, g: Rng): (r: Result<(string, Rng), Raised>)
  {
    var ss := SplitSentences(text);
    if fast then Ok(FastHumanizeSpec(ss, techniques, intensity, g))
    else FullHumanizeSpec(ss, techniques, intensity, preserve, prov, g)
  }

  // ---------------------------------------------------------------------
  // The engine object
  // ---------------------------------------------------------------------

  class HumanizerEngine {
    var device: string
    var modelSize: string
    var techniques: seq<string>
    var models: ModelNames
    var modelsLoaded: bool

    /**
     * `HumanizerEngine(use_gpu, model_size, techniques)`. CUDA availability is
     * a parameter; a missing or empty technique list gives the defaults. The
     * models are only named here, not loaded.
     */
    constructor(useGpu: bool, cudaAvailable: bool, size: string, chosen: Option<seq<string>>)
      ensures device == (if useGpu && cudaAvailable then "cuda" else "cpu")
      ensures modelSize == size && models == ModelsFor(size) && !modelsLoaded
      ensures techniques == (if chosen.None? || chosen.value == [] then DefaultTechniques else chosen.value)
    {
      device := if useGpu && cudaAvailable then "cuda" else "cpu";
      modelSize := size;
      techniques := if chosen.None? || chosen.value == [] then DefaultTechniques else chosen.value;
      models := ModelsFor(size);
      modelsLoaded := false;
    }

    /** `_load_models`: a second call does nothing; the loading itself is outside the model. */
    method LoadModels()
      modifies this
      ensures modelsLoaded
      ensures techniques == old(techniques) && models == old(models)
      ensures device == old(device) && modelSize == old(modelSize)
    {
      if modelsLoaded {
        return;
      }
      modelsLoaded := true;
    }

    /** One sentence of the fast loop. */
    method FastSentence(s: string, i: nat, intensity: real, g: Rng) returns (r: string, g': Rng)
      ensures (r, g') == FastStep(s, i, techniques, intensity, g)
    {
      r, g' := s, g;
      if SentenceVariation in techniques {
        r, g' := VarySentenceStructure(r, intensity, g');
      }
      ghost var r1, g1 := r, g';
      if HumanPatterning in techniques {
        r, g' := AddHumanPatterns(r, intensity, g');
      }
      assert (r, g') == if HumanPatterning in techniques then HumanPatterns(r1, intensity, g1) else (r1, g1);
      if i > 0 {
        var u;
        u, g' := Random(g').0, Random(g').1;
        if u < intensity * 0.3 {
          var t;
          t, g' := Choice(Transitions, g').0, Choice(Transitions, g').1;
          r := t + " " + Lower(r);
        }
      }
    }

    /** `_fast_humanize`. */
    method FastHumanize(sentences: seq<string>, intensity: real, g: Rng) returns (out: string, g': Rng)
      ensures (out, g') == FastHumanizeSpec(sentences, techniques, intensity, g)
    {
      var result: seq<string> := [];
      g' := g;
      var i := 0;
      while i < |sentences|
        invariant 0 <= i <= |sentences|
        invariant FastFrom(sentences, i, result, techniques, intensity, g')
          == FastFrom(sentences, 0, [], techniques, intensity, g)
      {
        var s;
        s, g' := FastSentence(sentences[i], i, intensity, g');
        result := result + [s];
        i := i + 1;
      }
      out, g' := CreateParagraphVariation(result, intensity, g');
    }

    /** The steps before the perplexity step. */
    method PrepareSentence(s: string, intensity: real, prov: Providers, g: Rng) returns (t: string, g': Rng)
      ensures (t, g') == Prepare(s, techniques, intensity, prov, g)
    {
      t, g' := s, g;
      if SemanticParaphrasing in techniques {
        t, g' := Paraphrase(t, intensity, prov, g').0, Paraphrase(t, intensity, prov, g').1;
      }
      ghost var t1, g1 := t, g';
      if SentenceVariation in techniques {
        t, g' := VarySentenceStructure(t, intensity, g');
      }
      assert (t, g') == if SentenceVariation in techniques then Vary(t1, intensity, g1) else (t1, g1);
    }

    /** The steps after the perplexity step. */
    method FinishSentence(s: string, intensity: real, g: Rng) returns (t: string, g': Rng)
      ensures (t, g') == Finish(s, techniques, intensity, g)
    {
      t, g' := s, g;
      if StylisticInjection in techniques {
        t, g' := InjectStyle(t, intensity, g').0, InjectStyle(t, intensity, g').1;
      }
      ghost var t1, g1 := t, g';
      if HumanPatterning in techniques {
        t, g' := AddHumanPatterns(t, intensity, g');
      }
      assert (t, g') == if HumanPatterning in techniques then HumanPatterns(t1, intensity, g1) else (t1, g1);
    }

    /** One sentence of the full loop, with the semantic gate. */
    method FullSentence(s: string, intensity: real, preserve: bool, prov: Providers, g: Rng)
      returns (r: Result<(string, Rng), Raised>)
      ensures r == FullStep(s, techniques, intensity, preserve, prov, g)
    {
      var t, g' := PrepareSentence(s, intensity, prov, g);
      if PerplexityModulation in techniques {
        var m := ModulatePerplexity(t, intensity, prov, g');
        if m.Err? {
          return Err(m.error);
        }
        t, g' := m.value.0, m.value.1;
      }
      t, g' := FinishSentence(t, intensity, g');
      assert Mutate(s, techniques, intensity, prov, g) == Ok((t, g'));
      if preserve && prov.drifted(s, t) {
        t, g' := AddHumanPatterns(s, intensity * 0.5, g');
      }
      return Ok((t, g'));
    }

    /** `_full_humanize`. */
    method FullHumanize(sentences: seq<string>, intensity: real, preserve: bool, prov: Providers, g: Rng)
      returns (r: Result<(string, Rng), Raised>)
      ensures r == FullHumanizeSpec(sentences, techniques, intensity, preserve, prov, g)
    {
      var result: seq<string> := [];
      var g' := g;
      var i := 0;
      while i < |sentences|
        invariant 0 <= i <= |sentences|
        invariant FullFrom(sentences, i, result, techniques, intensity, preserve, prov, g')
          == FullFrom(sentences, 0, [], techniques, intensity, preserve, prov, g)
      {
        var step := FullSentence(sentences[i], intensity, preserve, prov, g');
        if step.Err? {
          return Err(step.error);
        }
        result := result + [step.value.0];
        g' := step.value.1;
        i := i + 1;
      }
      var out;
      out, g' := CreateParagraphVariation(result, intensity, g');
      return Ok((out, g'));
    }

    /** `humanize`: the models are loaded on first use, then the text goes through the chosen tier. */
    method Humanize(text: string, intensity: real, preserve: bool, fast: bool, prov: Providers, g: Rng)
      returns (r: Result<(string, Rng), Raised>)
      modifies this
      ensures modelsLoaded
      ensures techniques == old(techniques) && models == old(models)
      ensures device == old(device) && modelSize == old(modelSize)
      ensures r == HumanizeSpec(text, techniques, intensity, preserve, fast, prov, g)
    {
      if !modelsLoaded {
        LoadModels();
      }
      var sentences := SplitSentences(text);
      if fast {
        var out, g' := FastHumanize(sentences, intensity, g);
        r := Ok((out, g'));
      } else {
        r := FullHumanize(sentences, intensity, preserve, prov, g);
      }
    }
  }

  /** The techniques of the real-time humanizer. */
  const FastTechniques: seq<string> := [SentenceVariation, HumanPatterning]

  /** `FastHumanizer`: a small-model engine with the two pattern techniques only. */
  class FastHumanizer {
    var engine: HumanizerEngine

    constructor(cudaAvailable: bool)
      ensures fresh(engine)
      ensures engine.techniques == FastTechniques && engine.modelSize == "small" && !engine.modelsLoaded
    {
      engine := new HumanizerEngine(cudaAvailable, cudaAvailable, "small", Some(FastTechniques));
    }

    /** `humanize_batch(texts)`: every text through the fast tier at intensity 0.7, in order. */
    method HumanizeBatch(texts: seq<string>, prov: Providers, g: Rng) returns (results: seq<string>, g': Rng)
      modifies engine
      ensures engine.techniques == old(engine.techniques) && engine.models == old(engine.models)
      ensures engine.device == old(engine.device) && engine.modelSize == old(engine.modelSize)
      ensures engine.modelsLoaded == (old(engine.modelsLoaded) || |texts| > 0)
      ensures (results, g') == BatchFrom(texts, 0, [], old(engine.techniques), g)
    {
      results, g' := [], g;
      var i := 0;
      while i < |texts|
        invariant 0 <= i <= |texts|
        invariant engine.techniques == old(engine.techniques) && engine.models == old(engine.models)
        invariant engine.device == old(engine.device) && engine.modelSize == old(engine.modelSize)
        invariant engine.modelsLoaded == (old(engine.modelsLoaded) || i > 0)
        invariant BatchFrom(texts, i, results, engine.techniques, g') == BatchFrom(texts, 0, [], engine.techniques, g)
      {
        var r := engine.Humanize(texts[i], 0.7, true, true, prov, g');
        results := results + [r.value.0];
        g' := r.value.1;
        i := i + 1;
      }
    }
  }

  /** The batch loop from text `i` on, `acc` holding the results so far. */
  function BatchFrom(texts: seq<string>, i: nat, acc: seq<string>, techniques: seq<string>, g: Rng)
    : (r: (seq<string>, Rng))
    requires i <= |texts|
    ensures |r.0| == |acc| + |texts| - i && forall j :: 0 <= j < |acc| ==> r.0[j] == acc[j]
    ensures r.1.tape == g.tape
    decreases |texts| - i
  {
    if i == |texts| then (acc, g)
    else
      var r := FastHumanizeSpec(SplitSentences(texts[i]), techniques, 0.7, g);
      BatchFrom(texts, i + 1, acc + [r.0], techniques, r.1)
  }

  // ---------------------------------------------------------------------
  // What the tiers promise
  // ---------------------------------------------------------------------

  lemma FastFromUnfold(ss: seq<string>, i: nat, acc: seq<string>, techniques: seq<string>, intensity: real, g: Rng)
    requires i < |ss|
    ensures var step := FastStep(ss[i], i, techniques, intensity, g);
      FastFrom(ss, i, acc, techniques, intensity, g) == FastFrom(ss, i + 1, acc + [step.0], techniques, intensity, step.1)
  {
    LoopUnfold(ss, i, acc, FastStepper(techniques, intensity), g);
  }

  /**
   * `_fast_humanize` gives one sentence per input sentence, in order: output
   * `k` is input `k` (at index `k`, which decides the transition) through one
   * fast step.
   */
  lemma FastOnePerSentence(ss: seq<string>, k: nat, techniques: seq<string>, intensity: real, g: Rng) returns (gk: Rng)
    requires k < |ss|
    ensures |FastFrom(ss, 0, [], techniques, intensity, g).0| == |ss|
    ensures gk.tape == g.tape
    ensures FastFrom(ss, 0, [], techniques, intensity, g).0[k] == FastStep(ss[k], k, techniques, intensity, gk).0
  {
    gk := LoopAt(ss, 0, [], k, FastStepper(techniques, intensity), g);
  }

  /** With intensity 0 one fast step gives the sentence back. */
  lemma FastStepAtZero(s: string, i: nat, techniques: seq<string>, g: Rng)
    ensures FastStep(s, i, techniques, 0.0, g).0 == s
  {
    var (s1, g1) := if SentenceVariation in techniques then Vary(s, 0.0, g) else (s, g);
    VaryAtZero(s, g);
    assert s1 == s;
    var (s2, g2) := if HumanPatterning in techniques then HumanPatterns(s1, 0.0, g1) else (s1, g1);
    HumanPatternsAtZero(s1, g1);
    assert s2 == s;
  }

  /**
   * `_fast_humanize(sentences, 0)` is `_create_paragraph_variation(sentences, 0)`
   * with every sentence as it was, only the random source having moved on.
   */
  lemma FastAtZero(ss: seq<string>, techniques: seq<string>, g: Rng) returns (g1: Rng)
    ensures g1.tape == g.tape
    ensures FastHumanizeSpec(ss, techniques, 0.0, g) == Compose(ss, 0.0, g1)
  {
    var fast := FastStepper(techniques, 0.0);
    forall s, j, h ensures fast(s, j, h).0 == s {
      FastStepAtZero(s, j, techniques, h);
    }
    LoopIdentity(ss, 0, [], fast, g);
    var r := FastFrom(ss, 0, [], techniques, 0.0, g);
    assert ss[0..] == ss;
    assert r.0 == ss;
    g1 := r.1;
    assert FastHumanizeSpec(ss, techniques, 0.0, g) == Compose(r.0, 0.0, r.1);
  }

  /**
   * The revert ignores the mutated text: once the mutation drifted, the
   * sentence is the original with the human patterns at half intensity,
   * whatever the mutation was; without meaning preservation the mutation stays.
   */
  lemma GateRevertsToOriginal(s: string, m1: string, m2: string, intensity: real, prov: Providers, g: Rng)
    requires prov.drifted(s, m1) && prov.drifted(s, m2)
    ensures Gate(s, m1, intensity, true, prov, g) == Gate(s, m2, intensity, true, prov, g)
              == HumanPatterns(s, intensity * 0.5, g)
    ensures Gate(s, m1, intensity, false, prov, g) == (m1, g)
  {
  }

  /**
   * `_full_humanize` gives one sentence per input sentence, in order. Output
   * `k` is input `k` mutated into `m` from a later point of the same tape and
   * then passed through the semantic gate (see `GateRevertsToOriginal`).
   */
  lemma FullOnePerSentence(ss: seq<string>, k: nat, techniques: seq<string>, intensity: real, preserve: bool,
                           prov: Providers, g: Rng) returns (gk: Rng, m: string, gm: Rng)
    requires k < |ss|
    requires FullFrom(ss, 0, [], techniques, intensity, preserve, prov, g).Ok?
    ensures var out := FullFrom(ss, 0, [], techniques, intensity, preserve, prov, g).value.0;
      |out| == |ss| && gk.tape == g.tape && Mutate(ss[k], techniques, intensity, prov, gk) == Ok((m, gm))
      && out[k] == Gate(ss[k], m, intensity, preserve, prov, gm).0
  {
    var full := FullStepper(techniques, intensity, preserve, prov);
    gk := TryLoopAt(ss, 0, [], k, full, g);
    assert full(ss[k], gk) == FullStep(ss[k], techniques, intensity, preserve, prov, gk);
    m, gm := FullStepGated(ss[k], techniques, intensity, preserve, prov, gk);
  }

  /** A sentence the full step did not raise on is its mutation `m`, gated. */
  lemma FullStepGated(s: string, techniques: seq<string>, intensity: real, preserve: bool, prov: Providers, g: Rng)
    returns (m: string, gm: Rng)
    requires FullStep(s, techniques, intensity, preserve, prov, g).Ok?
    ensures Mutate(s, techniques, intensity, prov, g) == Ok((m, gm))
    ensures FullStep(s, techniques, intensity, preserve, prov, g).value.0
      == Gate(s, m, intensity, preserve, prov, gm).0
  {
    m, gm := Mutate(s, techniques, intensity, prov, g).value.0, Mutate(s, techniques, intensity, prov, g).value.1;
  }

  /** A run without the perplexity step, or with a tagger that never yields more tokens than words, cannot raise. */
  lemma FullFromSucceeds(ss: seq<string>, i: nat, acc: seq<string>, techniques: seq<string>,
                         intensity: real, preserve: bool, prov: Providers, g: Rng)
    requires i <= |ss|
    requires PerplexityModulation !in techniques || forall t :: |prov.tag(t)| <= |Words(t)|
    ensures FullFrom(ss, i, acc, techniques, intensity, preserve, prov, g).Ok?
  {
    var full := FullStepper(techniques, intensity, preserve, prov);
    forall s, h ensures full(s, h).Ok? {
      MutateSucceeds(s, techniques, intensity, prov, h);
    }
    TryLoopSucceeds(ss, i, acc, full, g);
  }

  lemma MutateSucceeds(s: string, techniques: seq<string>, intensity: real, prov: Providers, g: Rng)
    requires PerplexityModulation !in techniques || forall t :: |prov.tag(t)| <= |Words(t)|
    ensures Mutate(s, techniques, intensity, prov, g).Ok?
  {
    var (s2, g2) := Prepare(s, techniques, intensity, prov, g);
    if PerplexityModulation in techniques {
      ModulateSucceedsWhenAligned(s2, intensity, prov, g2);
    }
  }

  /**
   * `humanize` raises only on the full tier with the perplexity step, and
   * only when the tagger yields more tokens than the sentence has words.
   */
  lemma HumanizeRaisesOnlyInModulation(text: string, techniques: seq<string>, intensity: real, preserve: bool,
                                       fast: bool, prov: Providers, g: Rng)
    requires fast || PerplexityModulation !in techniques || forall t :: |prov.tag(t)| <= |Words(t)|
    ensures HumanizeSpec(text, techniques, intensity, preserve, fast, prov, g).Ok?
  {
    if !fast {
      FullFromSucceeds(SplitSentences(text), 0, [], techniques, intensity, preserve, prov, g);
    }
  }

  /** An empty or blank text becomes the empty string on either tier. */
  lemma HumanizeBlank(text: string, techniques: seq<string>, intensity: real, preserve: bool, fast: bool,
                      prov: Providers, g: Rng)
    requires AllSpace(text)
    ensures var r := HumanizeSpec(text, techniques, intensity, preserve, fast, prov, g);
      r.Ok? && r.value.0 == ""
  {
    SplitSentencesEmptyIffBlank(text);
    var none: seq<string> := [];
    assert SplitSentences(text) == none;
    ComposeJoinsParagraphs(none, intensity, g);
  }
}
