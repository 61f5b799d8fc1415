/**
 Properties that relate several calls of the scorer's operations: what the
 overflow strategies have in common and where they differ, and why cutting a
 batch into slices keeps every flag next to its input and its score.
 */
module HfModelsProperties {
  import opened Options
  import opened Slices
  import opened Overflow
  import opened HfModels

  /** The strategy string given at construction is the policy tokenizing
      follows; with no string the scorer nullifies. */
  lemma ConstructedStrategyTakesEffect<K, R>(
    name: Option<string>, classWeights: seq<real>, maxInputLength: Option<int>, config: ModelConfig,
    tok: Tokenizer<K, R>, inputs: seq<string>)
    ensures name == Some("truncate") ==>
      var r := Tokenize(NewScorer(classWeights, name, maxInputLength, config), tok, inputs);
      r.Ok? && |r.tokens.flags| == |inputs| && forall i :: 0 <= i < |inputs| ==> r.tokens.flags[i]
    ensures name == Some("nullify") || name.None? ==>
      var s := NewScorer(classWeights, name, maxInputLength, config);
      var r := Tokenize(s, tok, inputs);
      r.Ok? && r.tokens.flags == ValidateInputs(tok, s.maxInputLength, inputs)
    ensures name == Some("raise") ==>
      !Tokenize(NewScorer(classWeights, name, maxInputLength, config), tok, inputs).Ok?
  {
  }

  /** Under `'truncate'` the inputs are never validated: tokenizers that pad
      alike but measure inputs differently give the same result. */
  lemma TruncateIgnoresEncodedLengths<K, R>(
    s: Scorer, lengthA: string -> nat, lengthB: string -> nat,
    padTruncate: (seq<string>, int) -> map<K, seq<R>>, inputs: seq<string>)
    requires s.overflowStrategy.Truncate?
    ensures Tokenize(s, Tokenizer(lengthA, padTruncate), inputs)
         == Tokenize(s, Tokenizer(lengthB, padTruncate), inputs)
  {
  }

  /** `'raise'` rejects a batch exactly when `'nullify'` would flag one of its
      inputs, and it never hands back tokens. */
  lemma RaiseRejectsWhatNullifyFlags<K, R>(s: Scorer, tok: Tokenizer<K, R>, inputs: seq<string>)
    requires s.overflowStrategy.Raise?
    ensures !Tokenize(s, tok, inputs).Ok?
    ensures Tokenize(s, tok, inputs).TooLong?
        <==> false in Tokenize(s.(overflowStrategy := Nullify), tok, inputs).tokens.flags
  {
  }

  /** When the tokenizer gives one row per input in every tensor, tokenizing
      yields one row per input and one flag per row. */
  lemma TokenizeAligned<K, R>(s: Scorer, tok: Tokenizer<K, R>, inputs: seq<string>)
    requires forall k :: k in tok.padTruncate(inputs, s.maxInputLength) ==>
               |tok.padTruncate(inputs, s.maxInputLength)[k]| == |inputs|
    ensures Tokenize(s, tok, inputs).Ok? ==> Aligned(Tokenize(s, tok, inputs).tokens, |inputs|)
  {
  }

  /** The flags of a slice of the inputs are the same slice of the flags. */
  lemma ValidateInputsSlice<K, R>(tok: Tokenizer<K, R>, maxInputLength: int, inputs: seq<string>, start: int, end: int)
    ensures Slice(ValidateInputs(tok, maxInputLength, inputs), start, end)
         == ValidateInputs(tok, maxInputLength, Slice(inputs, start, end))
  {
  }

  /** Slicing keeps a batch aligned, and its new row count depends only on the
      old one and the bounds. */
  lemma SliceTokensAligned<K, R>(tokens: Tokens<K, R>, n: nat, start: int, end: int)
    requires Aligned(tokens, n)
    ensures Aligned(SliceTokens(tokens, start, end), SliceLength(n, start, end))
  {
  }

  /** Cutting an aligned batch at any index and rejoining the two halves gives
      every tensor and the flag list back. */
  lemma SliceTokensRejoin<K, R>(tokens: Tokens<K, R>, n: nat, cut: int)
    requires Aligned(tokens, n)
    ensures SliceTokens(tokens, 0, cut).batch.Keys == SliceTokens(tokens, cut, n).batch.Keys == tokens.batch.Keys
    ensures forall k :: k in tokens.batch ==>
      SliceTokens(tokens, 0, cut).batch[k] + SliceTokens(tokens, cut, n).batch[k] == tokens.batch[k]
    ensures SliceTokens(tokens, 0, cut).flags + SliceTokens(tokens, cut, n).flags == tokens.flags
  {
  }

  /** Slicing a chunk again, with bounds relative to the chunk, is one slice
      of the whole batch. */
  lemma SliceTokensTwice<K, R>(tokens: Tokens<K, R>, n: nat, a: int, b: int, c: int, d: int)
    requires Aligned(tokens, n)
    requires 0 <= a <= b <= n
    requires 0 <= c <= d <= b - a
    ensures SliceTokens(SliceTokens(tokens, a, b), c, d) == SliceTokens(tokens, a + c, a + d)
  {
    var twice := SliceTokens(SliceTokens(tokens, a, b), c, d);
    var once := SliceTokens(tokens, a + c, a + d);
    forall k | k in tokens.batch
      ensures twice.batch[k] == once.batch[k]
    {
      SliceOfSlice(tokens.batch[k], a, b, c, d);
    }
    SliceOfSlice(tokens.flags, a, b, c, d);
  }

  /** A reducer that scores a slice of a batch as the same slice of the
      batch's scores. */
  ghost predicate RowWise<K, R, T>(reduce: map<K, seq<R>> -> seq<T>, tokens: Tokens<K, R>, start: int, end: int)
  {
    reduce(SliceTokens(tokens, start, end).batch) == Slice(reduce(tokens.batch), start, end)
  }

  /** Scoring a slice of the tokens gives the same slice of the scores of the
      whole batch: nullification keeps positions aligned. */
  lemma ScoreSliceAligned<K, R, T>(
    reduce: map<K, seq<R>> -> seq<T>, tokens: Tokens<K, R>, start: int, end: int)
    requires |reduce(tokens.batch)| == |tokens.flags|
    requires RowWise(reduce, tokens, start, end)
    ensures ScoreTokens(reduce, tokens).Scores?
    ensures ScoreTokens(reduce, SliceTokens(tokens, start, end))
         == Scores(Slice(ScoreTokens(reduce, tokens).values, start, end))
  {
  }

  /** Under `'truncate'` every input gets a score, even one that is too long. */
  lemma TruncateScoresEveryInput<K, R, T>(
    s: Scorer, tok: Tokenizer<K, R>, reduce: map<K, seq<R>> -> seq<T>, inputs: seq<string>)
    requires s.overflowStrategy.Truncate?
    requires |reduce(tok.padTruncate(inputs, s.maxInputLength))| == |inputs|
    ensures ScoreAll(s, tok, reduce, inputs).Success?
    ensures |ScoreAll(s, tok, reduce, inputs).scores| == |inputs|
    ensures forall i :: 0 <= i < |inputs| ==>
      ScoreAll(s, tok, reduce, inputs).scores[i] == Some(reduce(tok.padTruncate(inputs, s.maxInputLength))[i])
  {
  }

  /** Under `'nullify'` exactly the inputs that do not fit lose their score;
      the others keep the reducer's score for their row. */
  lemma NullifyWithholdsLongInputs<K, R, T>(
    s: Scorer, tok: Tokenizer<K, R>, reduce: map<K, seq<R>> -> seq<T>, inputs: seq<string>)
    requires s.overflowStrategy.Nullify?
    requires |reduce(tok.padTruncate(inputs, s.maxInputLength))| == |inputs|
    ensures ScoreAll(s, tok, reduce, inputs).Success?
    ensures |ScoreAll(s, tok, reduce, inputs).scores| == |inputs|
    ensures forall i :: 0 <= i < |inputs| ==>
      (ScoreAll(s, tok, reduce, inputs).scores[i].None? <==> !Fits(tok, s.maxInputLength, inputs[i]))
    ensures forall i :: 0 <= i < |inputs| && Fits(tok, s.maxInputLength, inputs[i]) ==>
      ScoreAll(s, tok, reduce, inputs).scores[i] == Some(reduce(tok.padTruncate(inputs, s.maxInputLength))[i])
  {
  }

  /** Under `'raise'` no batch is ever scored: one input too long is a
      `ValueError`, and a batch that fits reaches the failed assertion. */
  lemma RaiseNeverScores<K, R, T>(
    s: Scorer, tok: Tokenizer<K, R>, reduce: map<K, seq<R>> -> seq<T>, inputs: seq<string>)
    requires s.overflowStrategy.Raise?
    ensures (exists i :: 0 <= i < |inputs| && !Fits(tok, s.maxInputLength, inputs[i]))
        ==> ScoreAll(s, tok, reduce, inputs) == Failed(InputTooLong)
    ensures (forall i :: 0 <= i < |inputs| ==> Fits(tok, s.maxInputLength, inputs[i]))
        ==> ScoreAll(s, tok, reduce, inputs) == Failed(AssertionFailed)
  {
  }

  /** An unrecognised strategy string always ends in the failed assertion. */
  lemma OtherStrategyFails<K, R, T>(
    name: string, classWeights: seq<real>, maxInputLength: Option<int>, config: ModelConfig,
    tok: Tokenizer<K, R>, reduce: map<K, seq<R>> -> seq<T>, inputs: seq<string>)
    requires name != "truncate" && name != "raise" && name != "nullify"
    ensures ScoreAll(NewScorer(classWeights, Some(name), maxInputLength, config), tok, reduce, inputs)
         == Failed(AssertionFailed)
  {
  }
}
