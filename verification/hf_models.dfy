/**
 The overflow handling and index alignment of a scorer built on a Hugging Face
 sequence-classification model (`AutoModelForSequenceClassificationScorer`).

 The tokenizer and the model are not modelled; they enter as functions:
 - `Tokenizer.encodedLength(s)` is the number of token ids the tokenizer
   produces for `s` when asked for no padding and no truncation;
 - `Tokenizer.padTruncate(inputs, m)` is the padded and truncated batch the
   tokenizer produces for `inputs` at maximum length `m`, a map from tensor
   name to the rows of that tensor;
 - a reducer `batch -> seq<T>` stands for running the model and turning its
   logits into one score per row.
 */
module HfModels {
  import opened Options
  import opened Slices
  import opened Overflow

  datatype Tokenizer<K, R> = Tokenizer(
    encodedLength: string -> nat,
    padTruncate: (seq<string>, int) -> map<K, seq<R>>)

  /** The part of the model's configuration the scorer reads. */
  datatype ModelConfig = ModelConfig(maxPositionEmbeddings: int)

  datatype Scorer = Scorer(
    overflowStrategy: OverflowStrategy,
    classWeights: seq<real>,
    maxInputLength: int)

  /** An encoded batch and one validity flag per input. */
  datatype Tokens<K, R> = Tokens(batch: map<K, seq<R>>, flags: seq<bool>)

  /** What tokenizing a batch yields: the tokens, the `ValueError` raised under
      `'raise'`, or the failed assertion that every strategy other than
      `'truncate'` and `'nullify'` reaches. */
  datatype Tokenized<K, R> = Ok(tokens: Tokens<K, R>) | TooLong | AssertFail

  /** Scores with `None` where an input was rejected, or the `IndexError` of
      nullifying a position the reducer produced no score for. */
  datatype Scored<T> = Scores(values: seq<Option<T>>) | IndexError

  datatype Failure = InputTooLong | AssertionFailed | IndexOutOfRange

  /** The result of tokenizing and then scoring a whole batch. */
  datatype Outcome<T> = Success(scores: seq<Option<T>>) | Failed(failure: Failure)

  /** An input fits when its full encoding is no longer than the limit. */
  predicate Fits<K, R>(tok: Tokenizer<K, R>, maxInputLength: int, s: string)
  {
    tok.encodedLength(s) <= maxInputLength
  }

  /** Every tensor of the batch and the flag list have `n` rows. */
  predicate Aligned<K, R>(tokens: Tokens<K, R>, n: nat)
  {
    && |tokens.flags| == n
    && forall k :: k in tokens.batch ==> |tokens.batch[k]| == n
  }

  /** Constructing a scorer: the maximum input length is the caller's when
      given and otherwise the model's `max_position_embeddings`; the overflow
      strategy defaults to `'nullify'`. */
  function NewScorer(
    classWeights: seq<real>,
    overflowStrategy: Option<string>,
    maxInputLength: Option<int>,
    config: ModelConfig): (s: Scorer)
    ensures maxInputLength.Some? ==> s.maxInputLength == maxInputLength.value
    ensures maxInputLength.None? ==> s.maxInputLength == config.maxPositionEmbeddings
    ensures overflowStrategy.None? ==> s.overflowStrategy == Nullify
    ensures overflowStrategy.Some? ==> Name(s.overflowStrategy) == overflowStrategy.value
    ensures overflowStrategy.Some? ==> s.overflowStrategy == Parse(overflowStrategy.value)
    ensures Canonical(s.overflowStrategy)
    ensures s.classWeights == classWeights
  {
    var name := match overflowStrategy
      case Some(n) => n
      case None => DefaultName;
    var limit := match maxInputLength
      case Some(m) => m
      case None => config.maxPositionEmbeddings;
    Scorer(Parse(name), classWeights, limit)
  }

  /** One flag per input, in input order: whether that input fits. */
  function ValidateInputs<K, R>(tok: Tokenizer<K, R>, maxInputLength: int, inputs: seq<string>): (flags: seq<bool>)
    ensures |flags| == |inputs|
    ensures forall i :: 0 <= i < |inputs| ==> (flags[i] <==> Fits(tok, maxInputLength, inputs[i]))
    decreases |inputs|
  {
    if |inputs| == 0 then []
    else
      var last := |inputs| - 1;
      ValidateInputs(tok, maxInputLength, inputs[..last])
        + [tok.encodedLength(inputs[last]) <= maxInputLength]
  }

  /** Tokenize a batch under the scorer's overflow strategy. */
  function Tokenize<K, R>(s: Scorer, tok: Tokenizer<K, R>, inputs: seq<string>): (r: Tokenized<K, R>)
    ensures r.Ok? <==> s.overflowStrategy.Truncate? || s.overflowStrategy.Nullify?
    ensures r.TooLong? <==>
      s.overflowStrategy.Raise? && exists i :: 0 <= i < |inputs| && !Fits(tok, s.maxInputLength, inputs[i])
    ensures r.AssertFail? <==>
      || s.overflowStrategy.Other?
      || (s.overflowStrategy.Raise? && forall i :: 0 <= i < |inputs| ==> Fits(tok, s.maxInputLength, inputs[i]))
    ensures r.Ok? ==> r.tokens.batch == tok.padTruncate(inputs, s.maxInputLength)
    ensures r.Ok? ==> |r.tokens.flags| == |inputs|
    ensures s.overflowStrategy.Truncate? ==> forall i :: 0 <= i < |r.tokens.flags| ==> r.tokens.flags[i]
    ensures s.overflowStrategy.Nullify? ==>
      forall i :: 0 <= i < |inputs| ==> (r.tokens.flags[i] <==> Fits(tok, s.maxInputLength, inputs[i]))
  {
    var truncated := tok.padTruncate(inputs, s.maxInputLength);
    if s.overflowStrategy.Truncate? then
      Ok(Tokens(truncated, seq(|inputs|, _ => true)))
    else
      var results := ValidateInputs(tok, s.maxInputLength, inputs);
      if s.overflowStrategy.Raise? && false in results then TooLong
      else if !s.overflowStrategy.Nullify? then AssertFail
      else Ok(Tokens(truncated, results))
  }

  /** The loop of the scoring step: for each flag in order, a false flag sets
      that position to `None`, and a false flag past the end of the scores is
      an `IndexError`. */
  function NullifyInvalid<T>(scores: seq<Option<T>>, flags: seq<bool>): (r: Scored<T>)
    ensures r.IndexError? <==> exists i :: 0 <= i < |flags| && !flags[i] && |scores| <= i
    ensures r.Scores? ==> |r.values| == |scores|
    ensures r.Scores? ==>
      forall i :: 0 <= i < |scores| ==>
        r.values[i] == if i < |flags| && !flags[i] then None else scores[i]
    decreases |flags|
  {
    if |flags| == 0 then Scores(scores)
    else
      var i := |flags| - 1;
      match NullifyInvalid(scores, flags[..i])
      case IndexError => IndexError
      case Scores(prev) =>
        if flags[i] then Scores(prev)
        else if i < |prev| then Scores(prev[i := None])
        else IndexError
  }

  /** Score the tokens with `reduce` and withhold the score of every position
      whose flag is false. */
  function ScoreTokens<K, R, T>(reduce: map<K, seq<R>> -> seq<T>, tokens: Tokens<K, R>): (r: Scored<T>)
    ensures |tokens.flags| <= |reduce(tokens.batch)| ==> r.Scores?
    ensures r.Scores? ==> |r.values| == |reduce(tokens.batch)|
    ensures r.Scores? ==>
      forall i :: 0 <= i < |r.values| ==>
        (r.values[i].None? <==> i < |tokens.flags| && !tokens.flags[i])
    ensures r.Scores? ==>
      forall i :: 0 <= i < |r.values| && r.values[i].Some? ==>
        r.values[i].value == reduce(tokens.batch)[i]
  {
    var raw := reduce(tokens.batch);
    NullifyInvalid(seq(|raw|, i requires 0 <= i < |raw| => Some(raw[i])), tokens.flags)
  }

  /** Cut every tensor and the flag list by the same `[start:end]`. */
  function SliceTokens<K, R>(tokens: Tokens<K, R>, start: int, end: int): (r: Tokens<K, R>)
    ensures r.batch.Keys == tokens.batch.Keys
    ensures forall k :: k in r.batch ==> r.batch[k] == Slice(tokens.batch[k], start, end)
    ensures r.flags == Slice(tokens.flags, start, end)
  {
    Tokens(map k | k in tokens.batch :: Slice(tokens.batch[k], start, end),
           Slice(tokens.flags, start, end))
  }

  /** Tokenize a batch and score it in one piece. */
  function ScoreAll<K, R, T>(
    s: Scorer, tok: Tokenizer<K, R>, reduce: map<K, seq<R>> -> seq<T>, inputs: seq<string>): (r: Outcome<T>)
    ensures r == Failed(InputTooLong) <==> Tokenize(s, tok, inputs).TooLong?
    ensures r == Failed(AssertionFailed) <==> Tokenize(s, tok, inputs).AssertFail?
    ensures r.Success? ==> |r.scores| == |reduce(tok.padTruncate(inputs, s.maxInputLength))|
  {
    match Tokenize(s, tok, inputs)
    case TooLong => Failed(InputTooLong)
    case AssertFail => Failed(AssertionFailed)
    case Ok(tokens) =>
      match ScoreTokens(reduce, tokens)
      case IndexError => Failed(IndexOutOfRange)
      case Scores(v) => Success(v)
  }
}
