# Overflow policy and alignment of the Hugging Face sequence-classification scorer

This project models the part of langcheck's `AutoModelForSequenceClassificationScorer`
that decides which inputs get a score. It covers four things:

- how the scorer picks its maximum input length;
- how a batch is tokenized under the overflow strategy `'truncate'`, `'raise'` or `'nullify'`;
- how the scores of rejected inputs are replaced by `None`;
- how an encoded batch and its validity flags are cut into slices.

The tokenizer and the model are abstract. `Tokenizer.encodedLength` stands for
`len(tokenizer.encode(s))`. `Tokenizer.padTruncate` stands for the padded and
truncated batch call, whose result is a map from tensor name to rows. The model
and `_logits_to_scores` are one opaque reducer that maps a batch to a sequence
of scores of any type `T`.

Modules:

- `Options` (options.dfy): `Option`, which stands for Python's optional score.
- `Slices` (slices.dfy): Python's `s[start:end]`. A negative bound counts from
  the end, and a bound out of range is clamped. `_slice_tokens` accepts any
  integers, so the model keeps that meaning.
- `Overflow` (overflow.dfy): the strategy as a closed datatype, with an
  `Other(name)` case for unrecognised strings, and its parsing from the string
  the scorer stores.
- `HfModels` (hf_models.dfy): the scorer's state and its operations.
- `HfModelsProperties` (properties.dfy): lemmas that relate several calls.

Behaviour of the code that the model keeps on purpose:

- With Python assertions enabled: under `'raise'`, a batch in which every input fits gets past the `ValueError`
  check. It then reaches `assert self.overflow_strategy == 'nullify'` and fails.
  So `'raise'` never yields tokens. The model returns `AssertFail` here, and
  also for every unrecognised strategy string.
- `_score_tokens` writes `scores[i] = None` for every false flag. If a false
  flag has no matching score, Python raises `IndexError`. The model returns
  `IndexError` instead of requiring equal lengths. The lemmas show this cannot
  happen when the reducer returns one score per input.
- The scorer does not check the strategy when it is constructed. It stores
  the string and fails only when it tokenizes, at the assertion.

## Model

| member | source | states |
|---|---|---|
| HfModels.NewScorer | src/langcheck/metrics/scorer/hf_models.py:17-33 | the maximum input length is the caller's value when one is given and the model's `max_position_embeddings` otherwise; the strategy defaults to `'nullify'` and otherwise is the policy the caller's string selects, with an `Other` strategy never spelling a recognised name; the class weights are kept |
| Overflow.Parse | src/langcheck/metrics/scorer/hf_models.py:47-56 | the strategy is `Truncate`, `Raise` or `Nullify` exactly when the string is `'truncate'`, `'raise'` or `'nullify'`; any other string is kept as `Other` |
| Overflow.ParseNameRoundTrip | src/langcheck/metrics/scorer/hf_models.py:47-56 | reading a strategy string loses nothing: the string comes back from the strategy, and every canonical strategy comes back from its name |
| HfModels.ValidateInputs | src/langcheck/metrics/scorer/hf_models.py:62-75 | one flag per input in input order; flag i is true exactly when input i's full encoding is no longer than the maximum input length |
| HfModels.Tokenize | src/langcheck/metrics/scorer/hf_models.py:35-60 | tokens are returned exactly under `'truncate'` and `'nullify'`, always the same padded/truncated batch with one flag per input; `'truncate'` flags are all true; `'nullify'` flags are the validation results; `ValueError` exactly when `'raise'` meets an input that does not fit; the assertion fails exactly for other strings and for `'raise'` when every input fits |
| HfModels.NullifyInvalid | src/langcheck/metrics/scorer/hf_models.py:89-93 | the length of the scores is kept; position i becomes `None` exactly when flag i is false and is otherwise unchanged; `IndexError` exactly when a false flag lies past the last score |
| HfModels.ScoreTokens | src/langcheck/metrics/scorer/hf_models.py:77-93 | there is one result per reducer score, in order; a position is `None` exactly when its flag is false; every other position holds the reducer's score for that row; when the reducer gives a score for every flag, no `IndexError` occurs |
| HfModels.SliceTokens | src/langcheck/metrics/scorer/hf_models.py:95-106 | every key is kept; each tensor and the flag list are cut by the same `[start:end]` |
| HfModels.ScoreAll | src/langcheck/metrics/scorer/hf_models.py:35-93 | tokenizing and then scoring a batch fails with `ValueError` or with the assertion exactly when tokenizing does; on success there is one entry per reducer score |
| Slices.ClampIndex | src/langcheck/metrics/scorer/hf_models.py:103-106 | a slice bound in range is kept; a negative bound counts from the end; a bound out of range is clamped to 0 or to the length |
| Slices.Slice | src/langcheck/metrics/scorer/hf_models.py:103-106 | the slice's length depends only on the sequence's length and the bounds; its element j is the element at the clamped start plus j; with bounds in range it is the ordinary subsequence |
| Slices.SplitRejoins | src/langcheck/metrics/scorer/hf_models.py:103-106 | cutting a sequence at any index, even a negative or out-of-range one, and rejoining the two halves gives the sequence back |
| Slices.SliceOfSlice | src/langcheck/metrics/scorer/hf_models.py:103-106 | slicing a slice again, with bounds relative to it, is one slice of the original |
| HfModelsProperties.ConstructedStrategyTakesEffect | src/langcheck/metrics/scorer/hf_models.py:21-60 | a scorer built with `'truncate'` returns tokens with every flag true, one built with `'nullify'` (or with no strategy) returns the validation flags, and one built with `'raise'` never returns tokens |
| HfModelsProperties.TruncateIgnoresEncodedLengths | src/langcheck/metrics/scorer/hf_models.py:47-48 | under `'truncate'` validation never runs: two tokenizers that pad the same way but measure lengths differently give the same result |
| HfModelsProperties.RaiseRejectsWhatNullifyFlags | src/langcheck/metrics/scorer/hf_models.py:50-60 | `'raise'` never returns tokens, and it raises `ValueError` exactly when `'nullify'` would flag some input as too long |
| HfModelsProperties.TokenizeAligned | src/langcheck/metrics/scorer/hf_models.py:40-60 | if the tokenizer gives one row per input, the returned tokens have one row per input in every tensor and one flag per row |
| HfModelsProperties.ValidateInputsSlice | src/langcheck/metrics/scorer/hf_models.py:66-75 | the flags of a slice of the inputs equal the same slice of the flags, so flag i stays with input i |
| HfModelsProperties.SliceTokensAligned | src/langcheck/metrics/scorer/hf_models.py:99-106 | slicing keeps the tensors and the flag list the same length, and that length depends only on the old length and the bounds |
| HfModelsProperties.SliceTokensRejoin | src/langcheck/metrics/scorer/hf_models.py:99-106 | cutting an aligned batch at any index and rejoining the halves gives back every tensor and the flag list |
| HfModelsProperties.SliceTokensTwice | src/langcheck/metrics/scorer/hf_models.py:99-106 | slicing a chunk of a batch again, with in-range bounds relative to the chunk, is one slice of the original batch, for every tensor and the flag list |
| HfModelsProperties.ScoreSliceAligned | src/langcheck/metrics/scorer/hf_models.py:77-106 | with a row-wise reducer, scoring a slice of the tokens gives the same slice of the scores of the whole batch |
| HfModelsProperties.TruncateScoresEveryInput | src/langcheck/metrics/scorer/hf_models.py:47-48 | under `'truncate'`, every input gets its row's score, even an input that is too long |
| HfModelsProperties.NullifyWithholdsLongInputs | src/langcheck/metrics/scorer/hf_models.py:50-93 | under `'nullify'`, input i's score is `None` exactly when the input does not fit; otherwise it is its row's score |
| HfModelsProperties.RaiseNeverScores | src/langcheck/metrics/scorer/hf_models.py:50-56 | under `'raise'`, a batch with a long input fails with `ValueError`, and a batch where every input fits fails the assertion |
| HfModelsProperties.OtherStrategyFails | src/langcheck/metrics/scorer/hf_models.py:21-56 | a scorer built with an unrecognised strategy string fails the assertion on every batch |

## Left out

- Model inference and `_logits_to_scores` (hf_models.py:83-87, 108-118) involve softmax and a floating-point weighted sum over tensors. They are one opaque reducer here, returning a non-`None` score per row. The class weights are stored but never used.
- `manager.fetch_model` and `BaseSingleScorer` (hf_models.py:10, 24-25) are not part of this model. That includes the batching driver that calls `_slice_tokens`. The model config and tokenizer are parameters. `HfModels.ScoreAll` composes `_tokenize` and `_score_tokens` on the whole batch. `HfModelsProperties.ScoreSliceAligned` states what batching needs from them.
- `_handle_logging_level` (hf_models.py:71) only suppresses log messages.
- The model assumes Python assertions are enabled. Under `python -O` the assertion at hf_models.py:56 is removed. Then `'raise'` with every input fitting, and every unrecognised strategy string, returns the padded batch and the validation flags exactly as `'nullify'` does. `AssertFail`, `HfModelsProperties.RaiseNeverScores` and `HfModelsProperties.OtherStrategyFails` describe the behaviour with assertions enabled only.
- The tokenizer's own failures, for example a maximum length it rejects, are not modelled. The padded call is a total function.
- HfModels.ScoreAll: its own contract states only how its failures match tokenizing and the length of its result. The per-strategy guarantees are in the `HfModelsProperties` lemmas, which assume the reducer returns one score per input.
- The other files of the repository are out of scope: the reference-free text-quality metrics, kana conversion and package re-exports.
