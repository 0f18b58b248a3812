/**
 * The humanizer service: a registry of three engines, one per tier, built
 * together on first initialization and handed out by mode name.
 */
module Service {
  import opened Wrappers
  import opened Engine

  /** The tiers, in the order they are built. */
  datatype Tier = FastTier | StandardTier | AdvancedTier

  /** What `get_humanizer` raises: `RuntimeError` before initialization, `ValueError` for an unknown mode. */
  datatype LookupError = NotInitialized | InvalidMode(mode: string)

  /** The model sizes of the configuration. */
  const ModelSizeFast: string := "small"
  const ModelSizeBalanced: string := "medium"
  const ModelSizeQuality: string := "large"

  const BalancedTechniques: seq<string> := [SentenceVariation, HumanPatterning, SemanticParaphrasing]
  const QualityTechniques: seq<string> :=
    [SentenceVariation, PerplexityModulation, StylisticInjection, SemanticParaphrasing, HumanPatterning]

  /** The mode names `get_humanizer` accepts. */
  const Modes: seq<string> := ["fast", "balanced", "quality"]

  /** The tier a mode name selects, or what is raised instead. */
  function Lookup(initialized: bool, mode: string): (r: Result<Tier, LookupError>)
    ensures r.Ok? <==> initialized && mode in Modes
    ensures !initialized ==> r == Err(NotInitialized)
    ensures initialized && mode !in Modes ==> r == Err(InvalidMode(mode))
  {
    if !initialized then Err(NotInitialized)
    else if mode == "fast" then Ok(FastTier)
    else if mode == "balanced" then Ok(StandardTier)
    else if mode == "quality" then Ok(AdvancedTier)
    else Err(InvalidMode(mode))
  }

  /** The three accepted modes select three different tiers, in the order fast, standard, advanced. */
  lemma ModesSelectDistinctTiers()
    ensures forall i, j :: 0 <= i < j < |Modes| ==> Lookup(true, Modes[i]) != Lookup(true, Modes[j])
    ensures Lookup(true, "fast") == Ok(FastTier)
    ensures Lookup(true, "balanced") == Ok(StandardTier)
    ensures Lookup(true, "quality") == Ok(AdvancedTier)
  {
    assert Modes[0] == "fast" && Modes[1] == "balanced" && Modes[2] == "quality";
  }

  /**
   * The technique sets of the tiers are nested: balanced adds paraphrasing
   * to the fast pair, quality adds perplexity modulation and style injection
   * to that, and quality is the engine's default set.
   */
  lemma TechniqueTiersNested()
    ensures (set t | t in BalancedTechniques) == (set t | t in FastTechniques) + {SemanticParaphrasing}
    ensures (set t | t in QualityTechniques)
      == (set t | t in BalancedTechniques) + {PerplexityModulation, StylisticInjection}
    ensures QualityTechniques == DefaultTechniques
    ensures SemanticParaphrasing !in FastTechniques
    ensures PerplexityModulation !in BalancedTechniques && StylisticInjection !in BalancedTechniques
  {
    assert FastTechniques == [SentenceVariation, HumanPatterning];
    assert BalancedTechniques == FastTechniques + [SemanticParaphrasing];
  }

  class HumanizerService {
    var fastHumanizer: HumanizerEngine?
    var standardHumanizer: HumanizerEngine?
    var advancedHumanizer: HumanizerEngine?
    var initialized: bool

    /** Once initialized, the three engines exist, are distinct, and carry their tier's techniques. */
    ghost predicate Valid()
      reads this, fastHumanizer, standardHumanizer, advancedHumanizer
    {
      initialized ==>
        fastHumanizer != null && standardHumanizer != null && advancedHumanizer != null
        && fastHumanizer != standardHumanizer && standardHumanizer != advancedHumanizer
        && fastHumanizer != advancedHumanizer
        && fastHumanizer.techniques == FastTechniques
        && standardHumanizer.techniques == BalancedTechniques
        && advancedHumanizer.techniques == QualityTechniques
    }

    constructor()
      ensures !initialized && Valid()
      ensures fastHumanizer == null && standardHumanizer == null && advancedHumanizer == null
    {
      fastHumanizer, standardHumanizer, advancedHumanizer := null, null, null;
      initialized := false;
    }

    /**
     * `initialize()`. A second call after success returns at once. Otherwise
     * the fast, standard and advanced engines are built in that order; the
     * fast one always on the CPU. `raising` names the construction that
     * raises, if any: the engines built before it stay assigned, the flag
     * stays false and the error is passed on.
     */
    method Initialize(useGpu: bool, cudaAvailable: bool, raising: Option<Tier>) returns (r: Result<(), Tier>)
      requires Valid()
      modifies this
      ensures Valid()
      ensures old(initialized) ==>
        (r.Ok? && initialized
         && fastHumanizer == old(fastHumanizer) && standardHumanizer == old(standardHumanizer)
         && advancedHumanizer == old(advancedHumanizer))
      ensures !old(initialized) ==> (initialized <==> raising.None?) && (r.Ok? <==> raising.None?)
      ensures !old(initialized) && raising.Some? ==> r == Err(raising.value)
      ensures !old(initialized) && raising != Some(FastTier) ==>
        (fastHumanizer != null && fresh(fastHumanizer) && fastHumanizer.techniques == FastTechniques
         && fastHumanizer.device == "cpu" && fastHumanizer.modelSize == ModelSizeFast)
      ensures !old(initialized) && raising == Some(FastTier) ==> fastHumanizer == old(fastHumanizer)
      ensures !old(initialized) && (raising.None? || raising == Some(AdvancedTier)) ==>
        (standardHumanizer != null && fresh(standardHumanizer) && standardHumanizer.techniques == BalancedTechniques
         && standardHumanizer.modelSize == ModelSizeBalanced)
      ensures !old(initialized) && (raising == Some(FastTier) || raising == Some(StandardTier)) ==>
        standardHumanizer == old(standardHumanizer)
      ensures !old(initialized) && raising.None? ==>
        (advancedHumanizer != null && fresh(advancedHumanizer) && advancedHumanizer.modelSize == ModelSizeQuality)
      ensures !old(initialized) && raising.Some? ==> advancedHumanizer == old(advancedHumanizer)
    {
      if initialized {
        return Ok(());
      }
      if raising.Some? && raising.value == FastTier {
        return Err(FastTier);
      }
      fastHumanizer := new HumanizerEngine(false, cudaAvailable, ModelSizeFast, Some(FastTechniques));
      if raising.Some? && raising.value == StandardTier {
        return Err(StandardTier);
      }
      standardHumanizer := new HumanizerEngine(useGpu && cudaAvailable, cudaAvailable, ModelSizeBalanced,
                                               Some(BalancedTechniques));
      if raising.Some? {
        assert raising.value == AdvancedTier;
        return Err(AdvancedTier);
      }
      advancedHumanizer := new HumanizerEngine(useGpu && cudaAvailable, cudaAvailable, ModelSizeQuality,
                                               Some(QualityTechniques));
      initialized := true;
      return Ok(());
    }

    /** `get_humanizer(mode)`: the engine of the tier `Lookup` selects, or what it raises. */
    method GetHumanizer(mode: string) returns (r: Result<HumanizerEngine, LookupError>)
      requires Valid()
      ensures r.Err? <==> Lookup(initialized, mode).Err?
      ensures r.Err? ==> r.error == Lookup(initialized, mode).error
      ensures Lookup(initialized, mode) == Ok(FastTier) ==> r == Ok(fastHumanizer)
      ensures Lookup(initialized, mode) == Ok(StandardTier) ==> r == Ok(standardHumanizer)
      ensures Lookup(initialized, mode) == Ok(AdvancedTier) ==> r == Ok(advancedHumanizer)
    {
      if !initialized {
        return Err(NotInitialized);
      }
      if mode == "fast" {
        return Ok(fastHumanizer);
      } else if mode == "balanced" {
        return Ok(standardHumanizer);
      } else if mode == "quality" {
        return Ok(advancedHumanizer);
      } else {
        return Err(InvalidMode(mode));
      }
    }

    /** `is_initialized()`. */
    method IsInitialized() returns (b: bool)
      ensures b == initialized
    {
      return initialized;
    }
  }
}
