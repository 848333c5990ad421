/**
 * The pass/fail rule every page applies to a prediction: the predicted label
 * must equal the expected word AND the confidence must reach a threshold.
 * The threshold's scale depends on the endpoint: `/predict` of the learning
 * backend answers a probability in [0, 1], the finger-spelling backend a
 * percentage in [0, 100].
 */
module Grading {
  import opened Common
  import LearnBackend

  /** The popup a graded answer raises: affirmative (green) or corrective (orange). */
  datatype Feedback = Correct | TryAgain

  /** Threshold for the `/predict` endpoint, whose `prob` lies in [0, 1]. */
  const UnitThreshold: real := 0.9

  /** Threshold for the `/predict_jiha` endpoint, whose `confidence` lies in [0, 100]. */
  const PercentThreshold: real := 90.0

  /** The pass rule: a pass needs both the right label and enough confidence. */
  predicate Passes(predicted: string, expected: string, confidence: real, threshold: real)
    ensures predicted != expected ==> !Passes(predicted, expected, confidence, threshold)
    ensures confidence < threshold ==> !Passes(predicted, expected, confidence, threshold)
  {
    predicted == expected && confidence >= threshold
  }

  /**
   * The two scales agree: a probability passes the unit threshold exactly
   * when 100 times it passes the percentage threshold. This is what makes
   * the finger-spelling backend's `prob * 100` and its `>= 90.0` test the
   * same decision as the other pages' `>= 0.9`.
   */
  lemma ScalesAgree(predicted: string, expected: string, prob: real)
    ensures Passes(predicted, expected, prob, UnitThreshold)
        <==> Passes(predicted, expected, prob * 100.0, PercentThreshold)
  {
  }

  /** A higher confidence never turns a pass into a fail. */
  lemma PassIsMonotone(predicted: string, expected: string, c: real, c': real, threshold: real)
    requires Passes(predicted, expected, c, threshold) && c <= c'
    ensures Passes(predicted, expected, c', threshold)
  {
  }

  /** The three worked cases of the pass rule (a match, a wrong sign, a low score). */
  lemma Examples()
    ensures Passes("가", "가", 0.95, UnitThreshold)
    ensures !Passes("가", "나", 0.99, UnitThreshold)
    ensures !Passes("가", "가", 0.5, UnitThreshold)
    ensures Passes("ㄱ", "ㄱ", 90.0, PercentThreshold)
    ensures !Passes("ㄱ", "ㄱ", 0.95, PercentThreshold)
  {
  }

  /** `x === currentWord` for a JSON value `x` and a page's word (a string or null). */
  predicate SameWord(x: Json, word: Option<string>)
    ensures SameWord(x, word) && word.Some? ==> x == JStr(word.value)
    ensures SameWord(x, word) && word.None? ==> x == JNull
    ensures !x.JStr? && !x.JNull? ==> !SameWord(x, word)
  {
    (x.JStr? && word == Some(x.s)) || (x.JNull? && word.None?)
  }

  /**
   * `result.label === currentWord && result.prob >= 0.9` for a parsed
   * `/predict` answer that is not null. A missing field is `undefined`,
   * which equals no word and compares false with 0.9; a value that is not
   * an object has no fields at all.
   */
  predicate ProbReplyPasses(result: Json, word: Option<string>)
    ensures ProbReplyPasses(result, word) ==>
              && result.JObj? && "label" in result.fields && "prob" in result.fields
              && SameWord(result.fields["label"], word)
              && result.fields["prob"].JNum? && result.fields["prob"].n >= UnitThreshold
    ensures !result.JObj? ==> !ProbReplyPasses(result, word)
  {
    && Member(result, "label").Some? && SameWord(Member(result, "label").value, word)
    && Member(result, "prob").Some? && Member(result, "prob").value.JNum?
    && Member(result, "prob").value.n >= UnitThreshold
  }

  /**
   * Grading a `/predict` answer `{label, prob}` against a selected word is
   * the pass rule with the 0.9 threshold; an `{error}` answer never passes.
   */
  lemma ProbReplyIsPassRule(word: string, name: string, prob: real, message: string)
    ensures ProbReplyPasses(LearnBackend.PredictionBody(name, prob), Some(word))
            <==> Passes(name, word, prob, UnitThreshold)
    ensures !ProbReplyPasses(Single("error", JStr(message)), Some(word))
  {
    var body := LearnBackend.PredictionBody(name, prob);
    assert Member(body, "label") == Some(JStr(name));
    assert Member(body, "prob") == Some(JNum(prob));
  }
}
