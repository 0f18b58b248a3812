# AI text humanizer — a Dafny model of the rewriting pipeline

This project models the core of the AI text humanizer service. The service takes generated text and rewrites it. It:

- splits the text into sentences;
- puts each sentence through pattern techniques and model techniques: clause restructuring, fillers, contractions, minor imperfections, personal touches, rhetorical questions and emphasis, synonym swaps, and paraphrasing;
- lays the sentences out in paragraphs of random length;
- runs a detection-evasion pass over the result.

Three engines, one per tier (fast, balanced, quality), live in a service registry. A heuristic analyzer scores a text for AI patterns. The detect-and-humanize endpoint picks the tier and intensity from that score; as written, it then always fails with HTTP 500 (see "## Findings").

The model makes two things explicit that the program takes from its environment:

- **The random source** (`Rand`). It is a tape of draws and a cursor. `random()`, `choice` and `randint` each read one draw and move the cursor by one. No distribution is assumed, so every property holds for every tape.
- **The machine-learning models** (`Techniques.Providers`). They are oracles:
  - the paraphraser gives an output, or `None` when generation raises;
  - the part-of-speech tagger gives a token sequence;
  - the semantic check answers "similarity below 0.7".

The program's own string work has no oracle. It is spelled out on `seq<char>` in `PyStr`: `str.split()`, `strip`, `join`, `in`, `replace` with and without a count, `split(sep)`, `lower` and `capitalize`.

Modules:

| module | file | models |
|---|---|---|
| `Wrappers` | wrappers.dfy | `Option`, `Result` |
| `Rand` | rand.dfy | `random.random`, `random.choice`, `random.randint` |
| `PyStr` | pystr.dfy | the Python string methods the pipeline uses |
| `Splitter` | splitter.dfy | `_split_sentences` |
| `Techniques` | techniques.dfy | the per-sentence rewrites, the synonym table and the model calls |
| `Composer` | composer.dfy | `_create_paragraph_variation` |
| `Engine` | engine.dfy | `HumanizerEngine` (the model list, both tiers, `humanize`) and `FastHumanizer` |
| `Evasion` | evasion.dfy | `DetectionEvasion` and the endpoint's post-pass |
| `Service` | service.dfy | `HumanizerService` |
| `Analyze` | analyze.dfy | the scorer of `analyze_text` and the chooser of `detect_and_humanize` |

Each step that loops or updates state in the program is a method with a loop, proved equal to a specification function. Examples are the split-point scan, the contraction and imperfection loops, the token loop, both sentence loops, the paragraph loop, the typo loop and the batch loop. The properties are then lemmas about those functions. `HumanizerEngine`, `FastHumanizer` and `HumanizerService` are classes whose methods update their fields.

The model follows the code as written, including these behaviours a reader might not expect:

- `_create_paragraph_variation` draws a new target length for every sentence, not once per paragraph. The check at app/services/engine.py:425 compares the open paragraph with the latest draw.
- The quote step of `vary_punctuation` replaces `"` with `"` twice over, which is the identity, though it still uses a draw. The model proves it changes nothing (`Evasion.VaryPunctuationOnlyDashes`).
- The gates of `_paraphrase_sentence` and `_inject_style` are `random() > intensity`. They pass on a draw of exactly 0.0 even at intensity 0 (`Techniques.InjectStyleOpensOnZeroDraw`).
- `_modulate_perplexity` writes to `words[token.i]`, where the index comes from the tagger and not from `split()`. A tagger yielding more tokens than there are words can make it raise `IndexError`: it does when a token at an index past the last word passes the `intensity * 0.1` draw, has a content tag and has synonyms. That error passes up through `_full_humanize` and `humanize`.

## Model

| member | source | states |
|---|---|---|
| `Rand.Choice` | app/services/engine.py:208 | the picked element is one of the list, and exactly one draw is used |
| `Rand.RandInt` | app/services/engine.py:423 | the result lies in `[a, b]`, both ends included, and one draw is used |
| `PyStr.Words` | app/services/engine.py:304 | every token of `split()` is non-empty and holds no whitespace |
| `PyStr.WordsOfJoin` | app/services/engine.py:389 | splitting a space-joined list of tokens gives the list back |
| `PyStr.WordsKeepNonSpace` | app/services/engine.py:304 | tokenising loses exactly the whitespace |
| `PyStr.WordsSpaceJoin` | app/services/engine.py:312 | joining two strings with a space neither merges nor loses tokens |
| `PyStr.Strip` | app/services/engine.py:192 | the result has no whitespace at either end |
| `PyStr.StripSlice` | app/services/engine.py:192 | what `strip()` keeps is a slice with only whitespace around it |
| `PyStr.StripEmptyIffAllSpace` | app/services/engine.py:192 | `strip()` is empty exactly for a whitespace-only string |
| `PyStr.Find` | app/services/engine.py:405 | the first index where the pattern occurs; `None` exactly when it occurs nowhere |
| `PyStr.ReplaceFirstAtMostOne` | app/services/engine.py:405 | `replace(p, rep, 1)` changes only the first occurrence and keeps everything around it |
| `PyStr.ReplaceFirstSelf` | app/services/engine.py:496 | replacing the first `p` with `p` changes nothing |
| `PyStr.ReplaceAllAbsent` | app/services/engine.py:399 | `replace(p, rep)` on a string without `p` changes nothing |
| `PyStr.ReplaceAllStep` | app/services/engine.py:491 | `replace(p, rep)` swaps the first occurrence and carries on after it |
| `PyStr.ReplaceAllExtendsFirst` | app/services/engine.py:399 | `replace(p, rep)` and `replace(p, rep, 1)` agree up to the end of the first swap |
| `PyStr.SplitOnRoundTrip` | app/api/v1/analyze.py:22 | `split(c)` gives one more piece than there are separators; no piece holds `c`; joining with `c` gives the string back |
| `PyStr.Lower` | app/services/engine.py:208 | same length, and every character is mapped on its own |
| `PyStr.LowerIdempotent` | app/services/engine.py:321 | lower-casing twice equals lower-casing once |
| `PyStr.Capitalize` | app/services/engine.py:312 | the first character is upper-cased and the rest lower-cased |
| `PyStr.LowerKeepsSpace` | app/services/engine.py:410 | lower-casing keeps the whitespace at each position |
| `PyStr.JoinWithAppend` | app/services/engine.py:436 | joining two non-empty lists back to back puts one separator between them |
| `Splitter.FirstBoundary` | app/services/engine.py:191 | the first place where whitespace follows `.`, `!` or `?`; `None` when there is none |
| `Splitter.Cuts` | app/services/engine.py:191 | `re.split` gives at least one piece |
| `Splitter.CutsRejoin` | app/services/engine.py:191 | pieces and separators put back together give the text |
| `Splitter.CutsWellCut` | app/services/engine.py:191 | every separator is whitespace and no piece holds a boundary; every piece but the last ends in a terminal with whitespace after it |
| `Splitter.SplitSentences` | app/services/engine.py:188-192 | every sentence is non-empty with no whitespace at either end |
| `Splitter.SplitSentencesKeepsText` | app/services/engine.py:188-192 | splitting loses no character other than whitespace |
| `Splitter.SplitSentencesEmptyIffBlank` | app/services/engine.py:188-192 | no sentence comes out exactly when the text is empty or all whitespace |
| `Splitter.SplitSentencesAtBoundaries` | app/services/engine.py:191 | no sentence holds a terminal followed by whitespace, and every sentence but the last ends in a terminal |
| `Techniques.SplitPoint` | app/services/engine.py:308-313 | the first index of `[mid-3, mid+3)` holding a connector; `None` exactly when there is none |
| `Techniques.FindSplitPoint` | app/services/engine.py:310-313 | the scan loop finds the split point `SplitPoint` describes |
| `Techniques.SplitStage` | app/services/engine.py:307 | the split step uses at most one draw |
| `Techniques.SplitLongSentence` | app/services/engine.py:307-313 | the method computes `SplitStage` |
| `Techniques.SwapClauseStep` | app/services/engine.py:318-321 | the method computes `SwapStage` |
| `Techniques.VarySentenceStructure` | app/services/engine.py:302-323 | the method computes `Vary`: the split step, then the swap step |
| `Techniques.Vary` | app/services/engine.py:302-323 | `_vary_sentence_structure` uses at most two draws |
| `Techniques.ShortSentenceNotSplit` | app/services/engine.py:307 | a sentence of at most 15 words is not split and uses no draw for the split |
| `Techniques.SplitLongDropsConnector` | app/services/engine.py:312 | the split gives the words before the connector, `". "`, and the capitalized words after it; the connector is dropped |
| `Techniques.NoConnectorNoSplit` | app/services/engine.py:310-313 | with no connector in the window the split step keeps the sentence |
| `Techniques.SwapClausesOneComma` | app/services/engine.py:318-321 | the swap fires exactly for one comma: `a,b` becomes `b.strip().capitalize() + ", " + a.strip().lower()`; any other sentence is kept |
| `Techniques.NoCommaNoSwap` | app/services/engine.py:318 | a sentence without a comma is kept and uses no draw |
| `Techniques.VaryAtZero` | app/services/engine.py:307-318 | at intensity 0 the sentence comes back unchanged |
| `Techniques.FillerStage` | app/services/engine.py:383-389 | the filler step uses at most three draws |
| `Techniques.FillerKeepsEnds` | app/services/engine.py:383-389 | a filler goes only into a sentence of more than 3 words, at a position in `[1, len-1]`, so the first and last words stay first and last; a sentence of 3 words or fewer is kept |
| `Techniques.ApplyContractions` | app/services/engine.py:398-399 | the loop applies the contraction table in its order, each entry replacing all occurrences |
| `Techniques.ApplyTableAbsent` | app/services/engine.py:398-399 | a table none of whose patterns occurs keeps the sentence |
| `Techniques.NoFormalPhraseNoContraction` | app/services/engine.py:392-399 | a sentence with none of the formal phrases goes through unchanged, using one draw |
| `Techniques.Imperfect` | app/services/engine.py:403-405 | the imperfection loop draws at most once per entry |
| `Techniques.ApplyImperfections` | app/services/engine.py:403-405 | the loop draws only for an entry that occurs, and replaces only its first occurrence |
| `Techniques.ImperfectAbsent` | app/services/engine.py:403-405 | a sentence with none of the patterns is kept and uses no draw |
| `Techniques.PersonalStage` | app/services/engine.py:408-410 | the result is the sentence, or one of the listed touches, a comma and the lower-cased sentence; at most two draws; at intensity 0 the sentence is kept after one draw |
| `Techniques.InsertFiller` | app/services/engine.py:383-389 | the method computes `FillerStage` |
| `Techniques.ContractStep` | app/services/engine.py:392-399 | the method computes `ContractionStage` |
| `Techniques.ImperfectStep` | app/services/engine.py:402-405 | the method computes `ImperfectionStage` |
| `Techniques.PersonalStep` | app/services/engine.py:408-410 | the method computes `PersonalStage`, so it keeps the sentence or puts one listed touch in front |
| `Techniques.AddHumanPatterns` | app/services/engine.py:379-412 | the method computes `HumanPatterns`: filler, contractions, imperfections and personal touch, in that order |
| `Techniques.HumanPatterns` | app/services/engine.py:379-412 | `_add_human_patterns` uses at most twelve draws |
| `Techniques.HumanPatternsAtZero` | app/services/engine.py:383-408 | at intensity 0 none of the four steps fires: the sentence is kept and exactly four draws are used |
| `Techniques.Emphasis` | app/services/engine.py:371-375 | at most one word, drawn in `[1, len-2]` and not a plain word, is wrapped in `*` |
| `Techniques.QuestionStage` | app/services/engine.py:361-368 | the sentence is kept, or one of the four questions is put in front |
| `Techniques.InjectStyle` | app/services/engine.py:355-377 | `_inject_style` uses at most five draws |
| `Techniques.InjectStyleWords` | app/services/engine.py:355-377 | the words of the result are those of the sentence, after an optional question, with at most one of them wrapped in emphasis |
| `Techniques.InjectStyleOpensOnZeroDraw` | app/services/engine.py:357 | at intensity 0 a draw of 0.0 still opens the style step |
| `Techniques.Synonyms` | app/services/engine.py:341-353 | non-empty exactly when the lower-cased word is in the table, and then its entry |
| `Techniques.SynonymsIgnoreCase` | app/services/engine.py:353 | the lookup ignores case |
| `Techniques.SynonymsAreWords` | app/services/engine.py:344-352 | every synonym is a single word |
| `Techniques.Paraphrase` | app/services/engine.py:266-300 | the result is the sentence itself or the paraphraser's output at temperature `0.7 + intensity * 0.5` with length bound twice the word count; one draw |
| `Techniques.ModulatePerplexity` | app/services/engine.py:325-339 | the token loop computes `Modulate`, raising `IndexError` just where the program does |
| `Techniques.ModulateSucceedsWhenAligned` | app/services/engine.py:337 | with no more tokens than words nothing is raised |
| `Techniques.ModulateFromKeepsWords` | app/services/engine.py:330-337 | the word count is kept, and each changed word is a synonym of some token's text |
| `Techniques.ModulateAtZero` | app/services/engine.py:330-339 | at intensity 0 the words come back joined by single spaces, using one draw per token |
| `Composer.Target` | app/services/engine.py:423 | the target lies in `[2, 5]` above intensity 0.5 and in `[3, 6]` otherwise; one draw |
| `Composer.JoinEach` | app/services/engine.py:427 | each paragraph joined with single spaces, one string per paragraph |
| `Composer.Compose` | app/services/engine.py:414-438 | one draw per sentence |
| `Composer.CreateParagraphVariation` | app/services/engine.py:414-438 | the loop computes `Compose` |
| `Composer.ParagraphsPartitionInput` | app/services/engine.py:419-432 | paragraphs are non-empty consecutive runs that, put together, give the input in order |
| `Composer.ParagraphSizeBounds` | app/services/engine.py:423-425 | no paragraph holds more than 5 sentences (6 at intensity 0.5 or below); all but the last hold at least 2 (3) |
| `Composer.TrailingFlushNeverFires` | app/services/engine.py:425-432 | the flush after the loop never adds a paragraph |
| `Composer.ComposeJoinsParagraphs` | app/services/engine.py:435-438 | both branches give the paragraphs joined with blank lines; empty input gives `""` |
| `Engine.ModelsFor` | app/services/engine.py:60-77 | "small" and "medium" pick their own models; any other size picks the large ones |
| `Engine.TransitionStage` | app/services/engine.py:207-208 | the sentence is kept, or (not for the first) a transition goes in front of its lower-cased form; the first sentence uses no draw |
| `Engine.FastStep` | app/services/engine.py:198-210 | one sentence of the fast loop uses at most 16 draws |
| `Engine.LoopFrom` | app/services/engine.py:198-210 | a sentence loop keeps the sentences already done and adds one output per remaining input |
| `Engine.LoopAt` | app/services/engine.py:198-210 | output `k` of a sentence loop is the step applied to input `k`, from a later point of the same random tape |
| `Engine.LoopIdentity` | app/services/engine.py:198-210 | a step that gives every sentence back makes the loop give the sentences back |
| `Engine.FastStepper` | app/services/engine.py:198-209 | the per-sentence step of the fast tier never replaces the random tape |
| `Engine.FastFrom` | app/services/engine.py:198-210 | the fast loop is the sentence loop over the fast step, and only moves along the random tape |
| `Engine.FastStepAtZero` | app/services/engine.py:198-209 | at intensity 0 one fast step gives the sentence back |
| `Engine.FastOnePerSentence` | app/services/engine.py:194-215 | the fast tier gives one sentence per input, in order; output `k` is input `k` through one fast step |
| `Engine.FastAtZero` | app/services/engine.py:194-215 | at intensity 0 the fast tier is the paragraph layout of the unchanged sentences |
| `Engine.Prepare` | app/services/engine.py:231-235 | paraphrase and structure variation only move along the random tape |
| `Engine.Finish` | app/services/engine.py:240-244 | style and human patterns only move along the random tape |
| `Engine.Mutate` | app/services/engine.py:231-244 | only the perplexity step can raise |
| `Engine.Gate` | app/services/engine.py:247-257 | the gate leaves the random tape unchanged |
| `Engine.GateRevertsToOriginal` | app/services/engine.py:254-257 | when the meaning drifted, the output is the original at half intensity, whatever the mutation; without preservation the mutation stays |
| `Engine.FullStep` | app/services/engine.py:228-259 | one sentence of the full loop; it cannot raise without the perplexity step |
| `Engine.TryLoopFrom` | app/services/engine.py:228-259 | a sentence loop that can raise, once it succeeds, keeps the sentences done and adds one output per remaining input |
| `Engine.TryLoopAt` | app/services/engine.py:228-259 | output `k` of a successful loop is a successful step on input `k`, from a later point of the same tape |
| `Engine.TryLoopSucceeds` | app/services/engine.py:228-259 | a step that never raises makes a loop that never raises |
| `Engine.FullStepper` | app/services/engine.py:228-257 | the per-sentence step of the full tier, when it succeeds, never replaces the random tape |
| `Engine.FullFrom` | app/services/engine.py:228-259 | the full loop is the raising sentence loop over the full step; on success it only moves along the tape |
| `Engine.FullStepGated` | app/services/engine.py:247-257 | a sentence the full step succeeded on is its mutation passed through the semantic gate |
| `Engine.FullOnePerSentence` | app/services/engine.py:217-264 | the full tier gives one sentence per input, in order; output `k` is the gated mutation of input `k` |
| `Engine.FullFromSucceeds` | app/services/engine.py:228-259 | without the perplexity step, or with a tagger aligned to the words, the loop cannot raise |
| `Engine.MutateSucceeds` | app/services/engine.py:231-244 | without the perplexity step, or with a tagger aligned to the words, the five techniques cannot raise |
| `Engine.HumanizeRaisesOnlyInModulation` | app/services/engine.py:154-186 | `humanize` raises only on the full tier, with the perplexity step, on a misaligned tagger |
| `Engine.HumanizeBlank` | app/services/engine.py:154-186 | empty or blank text becomes `""` on either tier |
| `Engine.HumanizerEngine.constructor` | app/services/engine.py:30-58 | the device is CUDA only when asked for and available; no list or an empty one gives the five default techniques; models named but not loaded |
| `Engine.HumanizerEngine.LoadModels` | app/services/engine.py:82-113 | afterwards the models are loaded; nothing else changes |
| `Engine.HumanizerEngine.FastSentence` | app/services/engine.py:198-210 | the method computes `FastStep` from the engine's techniques |
| `Engine.HumanizerEngine.FastHumanize` | app/services/engine.py:194-215 | the loop computes `FastHumanizeSpec` |
| `Engine.HumanizerEngine.PrepareSentence` | app/services/engine.py:231-235 | the method computes `Prepare` from the engine's techniques |
| `Engine.HumanizerEngine.FinishSentence` | app/services/engine.py:240-244 | the method computes `Finish` from the engine's techniques |
| `Engine.HumanizerEngine.FullSentence` | app/services/engine.py:228-259 | the method computes `FullStep` |
| `Engine.HumanizerEngine.FullHumanize` | app/services/engine.py:217-264 | the loop computes `FullHumanizeSpec`, stopping at the first error |
| `Engine.HumanizerEngine.Humanize` | app/services/engine.py:154-186 | the models are loaded first; then the splitter runs, then the chosen tier; nothing else changes |
| `Engine.FastHumanizer.constructor` | app/services/engine.py:446-451 | a fresh small-model engine with the two pattern techniques |
| `Engine.FastHumanizer.HumanizeBatch` | app/services/engine.py:467-472 | the loop computes `BatchFrom`; afterwards the engine's models are loaded exactly when they were before or some text was given, and its techniques, models, device and size are unchanged |
| `Engine.BatchFrom` | app/services/engine.py:469-472 | one result per text, the results so far kept in front; the loop only moves along the random tape |
| `Evasion.AddUnicodeVariations` | app/services/engine.py:480-485 | one draw |
| `Evasion.UnicodeVariationsInsertAtMostOne` | app/services/engine.py:483-484 | at most one zero-width space is added and nothing else changes; text without a space, or rate 0, is kept |
| `Evasion.VaryPunctuation` | app/services/engine.py:488-498 | one or two draws |
| `Evasion.ReplaceAllPointwise` | app/services/engine.py:491 | swapping in a replacement of the same length changes the text character by character, only inside occurrences of the pattern |
| `Evasion.VaryPunctuationOnlyDashes` | app/services/engine.py:488-498 | the length is kept; a changed character was a hyphen with a space on each side and is now an em or en dash; without `" - "` the text is kept |
| `Evasion.AddTypos` | app/services/engine.py:501-513 | the loop computes `TyposFrom`, stopping at the first typo |
| `Evasion.TyposFrom` | app/services/engine.py:508-511 | at most one draw per pattern |
| `Evasion.TyposAtMostOne` | app/services/engine.py:508-511 | the result is the text, or the text with the first occurrence of one contained pattern swapped; rate 0 changes nothing |
| `Evasion.NoPatternNoTypo` | app/services/engine.py:508-511 | a text holding no pattern is kept and uses no draw |
| `Evasion.PostProcessKeepsText` | app/api/v1/humanize.py:63-65 | the post-pass adds at most one zero-width space, and none at intensity 0.8 or below |
| `Service.Lookup` | app/services/humanizer_service.py:67-79 | success exactly for an initialized service and a known mode; `RuntimeError` before initialization; `ValueError` for an unknown mode |
| `Service.ModesSelectDistinctTiers` | app/services/humanizer_service.py:72-77 | fast, balanced and quality select the fast, standard and advanced engine, all different |
| `Service.TechniqueTiersNested` | app/services/humanizer_service.py:31-57 | balanced adds paraphrasing to fast; quality adds perplexity and style to balanced; quality is the engine default |
| `Service.HumanizerService.constructor` | app/services/humanizer_service.py:16-20 | no engine and not initialized |
| `Service.HumanizerService.Initialize` | app/services/humanizer_service.py:22-65 | a second call changes nothing; engines are built in order; the flag is set only when all three are built, and an error leaves the earlier engines assigned |
| `Service.HumanizerService.GetHumanizer` | app/services/humanizer_service.py:67-79 | the engine `Lookup` selects, or the error it gives |
| `Service.HumanizerService.IsInitialized` | app/services/humanizer_service.py:81-83 | exactly the flag |
| `Analyze.Lengths` | app/api/v1/analyze.py:23 | at most one length per piece |
| `Analyze.LengthsPositive` | app/api/v1/analyze.py:23 | every measured length is at least 1 |
| `Analyze.LengthsEmptyIffBlank` | app/api/v1/analyze.py:23 | no length is measured exactly when every piece strips to nothing |
| `Analyze.Variance` | app/api/v1/analyze.py:36-39 | the variance is never negative |
| `Analyze.EqualLengthsZeroVariance` | app/api/v1/analyze.py:38-39 | equal lengths give variance 0 |
| `Analyze.AnyOccursIff` | app/api/v1/analyze.py:44 | `any(...)` holds exactly when some listed substring occurs |
| `Analyze.KeepIsOrderedFilter` | app/api/v1/analyze.py:57 | the kept phrases are, in list order, exactly those that occur |
| `Analyze.AnalyzeText` | app/api/v1/analyze.py:20-77 | the method computes `Analyze`, and the score is one of 0, 25, 50, 75, 100 |
| `Analyze.AnalysisReports` | app/api/v1/analyze.py:22-76 | the sentence count is the number of periods plus one; the contraction flag holds iff none of the seven marks occurs; the phrases are the in-order filter; "High humanization needed" iff score > 50 |
| `Analyze.BlankPiecesStillScore` | app/api/v1/analyze.py:36-69 | with no non-blank piece the text is not flagged uniform, yet scores at least 25 |
| `Analyze.RStripChar` | app/api/v1/analyze.py:99 | `rstrip` never lengthens |
| `Analyze.DecimalDigits` | app/api/v1/analyze.py:75 | the decimal form is a non-empty string of digits whose value is the number |
| `Analyze.PercentRoundTrip` | app/api/v1/analyze.py:99 | reading back `f"{score}%"` gives the score |
| `Analyze.AutoSettings` | app/api/v1/analyze.py:99-108 | quality at 0.9 above 75, balanced at 0.7 above 50, fast at 0.5 otherwise; always a mode the service accepts |
| `Analyze.AutoSettingsMonotone` | app/api/v1/analyze.py:100-108 | a higher score never gets a lower intensity |
| `Analyze.DetectFollowsAnalysis` | app/api/v1/analyze.py:95-108 | the choice follows the analyzer's score; a tier above fast is picked exactly when high humanization is recommended |
| `Analyze.DetectRequestAsWritten` | app/api/v1/analyze.py:92-135 | the endpoint as written never builds its request |
| `Analyze.DetectAsWrittenAlwaysFails` | app/api/v1/analyze.py:90-116 | for every text the analysis and the choice succeed, then the unimported `HumanizeRequest` raises `NameError` |
| `Analyze.DetectRequest` | app/api/v1/analyze.py:111-116 | with the import, a built request carries the original text, meaning preservation, and a mode the service accepts |
| `Analyze.DetectRequestFollowsScore` | app/api/v1/analyze.py:95-116 | with the import, the request is always built, at the mode and intensity `AutoSettings` gives for the analyzer's score |

## Left out

- Model loading, generation, tagging and encoding (T5, GPT-2, spaCy, SentenceTransformer) are not modelled. They are foreign libraries; their outputs are the oracles in `Techniques.Providers`. `_load_models` just sets the loaded flag, and the spaCy download fallback is not modelled.
- Cosine similarity is floating-point arithmetic over embeddings. It becomes the oracle `drifted`, meaning "similarity below 0.7".
- Probability distributions of `random` are not modelled: draws are an arbitrary tape.
- `choice` and `randint` read the integer part of a draw modulo the range. How Python derives them from its generator is not modelled.
- Floating point is not modelled: intensities, draws and the analyzer's variance are exact reals. Comparisons at exactly representable edges may differ from the program.
- Case mapping covers ASCII letters only. Python's `lower`, `upper` and `capitalize` map all of Unicode.
- `_modulate_perplexity` takes the tagger's token index to be its position in the token sequence. Tokenisation that skips or merges text is not modelled.
- `FastHumanizer.humanize_async`, the batch endpoint's `asyncio.gather`, and the `main()` demo are left out. They are concurrency and demo code.
- The HTTP layer is left out: request validation, the Redis cache and its MD5 key, logging, settings loading and the other endpoints. It is I/O.
  - Of the humanize endpoint, only the post-pass (`Evasion.PostProcess`) is modelled.
  - CUDA availability and `settings.USE_GPU` are parameters.
- The endpoint's technique override (app/api/v1/humanize.py:52) writes into the shared engine. It is not modelled; the engines keep the technique lists the service gave them.
- `Service.HumanizerService.Initialize`: which engine construction raises, if any, is a parameter. The exception itself and its logging are not modelled.
- `Analyze.ParseScore`: only plain digit strings are read. Python's `int` also accepts a sign, surrounding whitespace and underscores. The analyzer never produces those.
- The `AnalyzeResponse` and `DetectResponse` schemas (app/models/schemas.py) are not part of this model. The response is the `Analyze.Analysis` datatype.
- `Engine.BatchFrom`: only the number of results, the results kept and the fast-tier call in its body are stated. That result `k` equals text `k`'s own fast-tier run is not stated as a separate lemma.
- The paragraph composer follows the code, which draws a new target length for every sentence.
- Of `detect_and_humanize`, only the analysis, the thresholds and the request it builds are modelled (app/api/v1/analyze.py:92-116). The call into `humanize_text` and the `DetectResponse` it returns are not part of this model; as written, no call reaches them.

## Findings

| source | as written | input that shows it | evidently intended | confidence | as-written member | corrected member |
|---|---|---|---|---|---|---|
| app/api/v1/analyze.py:111 | `HumanizeRequest(...)` is called, but the module imports only `AnalyzeRequest`, `AnalyzeResponse`, `DetectRequest`, `DetectResponse` (lines 6-8) and `humanize_text` (line 90); the `NameError` is caught at line 133 and becomes HTTP 500 | any text, e.g. `""`: the analysis succeeds, the score reads back, then the request cannot be built | import `HumanizeRequest` from the schemas, so the request for the chosen mode and intensity is built | high (not executed) | `Analyze.DetectAsWrittenAlwaysFails` | `Analyze.DetectRequestFollowsScore` |
