/**
 * The finger-spelling quiz page (OpenSign_quiz_Con_Vowel/frontend/
 * jiha_quiz.js): a random consonant or vowel is asked; two seconds after
 * the start button one still is given to MediaPipe Hands, the first hand's
 * landmarks are flattened to (x, y) pairs and posted to `/predict_jiha`
 * with the asked letter, and the answer is graded on the page. Each popup
 * is followed, two seconds later, by a new question.
 *
 * `Math.random()` is the parameter `r`; the hands MediaPipe reports and the
 * server's reply are inputs.
 */
module JamoQuiz {
  import opened Common
  import opened Grading
  import JamoBackend

  /** The 31 letters the quiz asks: 14 consonants, then 17 vowels. */
  const ConsonantsVowels: seq<string> := [
    "ㄱ", "ㄴ", "ㄷ", "ㄹ", "ㅁ", "ㅂ", "ㅅ", "ㅇ", "ㅈ", "ㅊ",
    "ㅋ", "ㅌ", "ㅍ", "ㅎ", "ㅏ", "ㅑ", "ㅓ", "ㅕ", "ㅗ", "ㅛ",
    "ㅜ", "ㅠ", "ㅡ", "ㅣ", "ㅐ", "ㅔ", "ㅚ", "ㅟ", "ㅒ", "ㅖ", "ㅢ"
  ]

  /** Number of hand landmarks MediaPipe Hands reports per hand. */
  const HandLandmarks: nat := 21

  lemma TableHasDistinctLetters()
    ensures |ConsonantsVowels| == 31
    ensures forall i, j :: 0 <= i < j < |ConsonantsVowels| ==> ConsonantsVowels[i] != ConsonantsVowels[j]
  {
  }

  /** One landmark's image coordinates (its depth is not sent). */
  datatype Point = Point(x: real, y: real)

  /** `hand.flatMap(p => [p.x, p.y])`. */
  function Flatten(hand: seq<Point>): (v: seq<real>)
    ensures |v| == 2 * |hand|
    ensures forall i :: 0 <= i < |hand| ==> v[2 * i] == hand[i].x && v[2 * i + 1] == hand[i].y
  {
    if hand == [] then [] else [hand[0].x, hand[0].y] + Flatten(hand[1..])
  }

  /** Reads a flat vector back as consecutive (x, y) pairs. */
  function Unflatten(v: seq<real>): (hand: seq<Point>)
    requires |v| % 2 == 0
    ensures |hand| == |v| / 2
  {
    if v == [] then [] else [Point(v[0], v[1])] + Unflatten(v[2..])
  }

  lemma {:induction false} UnflattenFlatten(hand: seq<Point>)
    ensures Unflatten(Flatten(hand)) == hand
  {
    if hand != [] {
      var v := Flatten(hand);
      assert v[2..] == Flatten(hand[1..]);
      UnflattenFlatten(hand[1..]);
      assert [hand[0]] + hand[1..] == hand;
    }
  }

  lemma {:induction false} FlattenUnflatten(v: seq<real>)
    requires |v| % 2 == 0
    ensures Flatten(Unflatten(v)) == v
  {
    if v != [] {
      FlattenUnflatten(v[2..]);
      assert Unflatten(v)[1..] == Unflatten(v[2..]);
      assert [v[0], v[1]] + v[2..] == v;
    }
  }

  /** A whole MediaPipe hand flattens to exactly the length the backend accepts. */
  lemma HandFitsBackend(hand: seq<Point>)
    requires |hand| == HandLandmarks
    ensures |Flatten(hand)| == JamoBackend.LandmarkCount
  {
  }

  /** `predicted === currentWord && confidence >= 90.0` on a non-null reply body. */
  predicate JamoReplyPasses(data: Json, word: Option<string>)
    ensures JamoReplyPasses(data, word) ==>
              && data.JObj? && "prediction" in data.fields && "confidence" in data.fields
              && SameWord(data.fields["prediction"], word)
              && data.fields["confidence"].JNum? && data.fields["confidence"].n >= PercentThreshold
    ensures !data.JObj? ==> !JamoReplyPasses(data, word)
  {
    && Member(data, "prediction").Some? && SameWord(Member(data, "prediction").value, word)
    && Member(data, "confidence").Some? && Member(data, "confidence").value.JNum?
    && Member(data, "confidence").value.n >= PercentThreshold
  }

  /** What the status text says. */
  datatype Status = Ready | Holding | Sending | Retry | Done | ServerFailed

  /** The popup: correct, wrong with the reported confidence, or no hand found. */
  datatype JamoPopup = Right | Wrong(confidence: real) | NoHand

  class JamoQuiz {
    var currentWord: Option<string>
    var status: Status
    var popup: Option<JamoPopup>

    constructor ()
      ensures currentWord.None? && status == Ready && popup.None?
    {
      currentWord, status, popup := None, Ready, None;
    }

    /** `generateQuestion`: draw a letter uniformly from the table. */
    method GenerateQuestion(r: real)
      requires 0.0 <= r < 1.0
      modifies this`currentWord, this`status
      ensures currentWord == Some(ConsonantsVowels[RandomIndex(r, |ConsonantsVowels|)])
      ensures currentWord.value in ConsonantsVowels
      ensures status == Ready
    {
      currentWord := Some(ConsonantsVowels[RandomIndex(r, |ConsonantsVowels|)]);
      status := Ready;
    }

    /** `startQuiz`: ask the user to hold the hand shape. */
    method StartQuiz()
      modifies this`status
      ensures status == Holding
    {
      status := Holding;
    }

    /** The two-second timer of `startQuiz`: the still is being sent. */
    method CaptureTimerFires()
      modifies this`status
      ensures status == Sending
    {
      status := Sending;
    }

    /**
     * The `onResults` handler: no hand raises the warning popup and asks
     * for a retry, sending nothing; otherwise the first hand is sent with
     * the asked letter.
     */
    method OnHandResults(hands: seq<seq<Point>>) returns (request: Option<JamoBackend.LandmarkData>)
      modifies this`popup, this`status
      ensures hands == [] ==> request.None? && popup == Some(NoHand) && status == Retry
      ensures hands != [] ==>
                && request == Some(JamoBackend.LandmarkData(Flatten(hands[0]), currentWord))
                && popup == old(popup) && status == old(status)
    {
      if |hands| == 0 {
        popup := Some(NoHand);
        status := Retry;
        return None;
      }
      request := Some(JamoBackend.LandmarkData(Flatten(hands[0]), currentWord));
    }

    /**
     * The reply handling of `onResults`. A failed request, a `null` body,
     * and a wrong answer whose `confidence` is not a number (its `toFixed`
     * throws) end in the failure text with no popup; otherwise the popup
     * says right exactly when the answer passes, and the text says done.
     */
    method OnServerReply(reply: HttpReply)
      modifies this`popup, this`status
      ensures reply.Failed? || reply == Body(JNull) ==> status == ServerFailed && popup == old(popup)
      ensures reply.Body? && JamoReplyPasses(reply.json, currentWord) ==> popup == Some(Right) && status == Done
      ensures reply.Body? && !reply.json.JNull? && !JamoReplyPasses(reply.json, currentWord) ==>
                if Member(reply.json, "confidence").Some? && Member(reply.json, "confidence").value.JNum?
                then popup == Some(Wrong(Member(reply.json, "confidence").value.n)) && status == Done
                else status == ServerFailed && popup == old(popup)
    {
      if reply.Failed? || reply.json.JNull? {
        status := ServerFailed;
        return;
      }
      var data := reply.json;
      if JamoReplyPasses(data, currentWord) {
        popup := Some(Right);
      } else {
        var confidence := Member(data, "confidence");
        if confidence.None? || !confidence.value.JNum? {
          status := ServerFailed;
          return;
        }
        popup := Some(Wrong(confidence.value.n));
      }
      status := Done;
    }

    /** Two seconds after any popup: hide it and ask a new question. */
    method PopupTimerFires(r: real)
      requires 0.0 <= r < 1.0
      modifies this`popup, this`currentWord, this`status
      ensures popup.None? && status == Ready
      ensures currentWord == Some(ConsonantsVowels[RandomIndex(r, |ConsonantsVowels|)])
    {
      popup := None;
      GenerateQuestion(r);
    }
  }

  /**
   * The page's verdict agrees with the backend's `is_correct` for the
   * letter it sent: both are "predicted equals asked and confidence at
   * least 90".
   */
  lemma PageAgreesWithBackend(hand: seq<Point>, word: string, infer: seq<real> -> seq<real>, classes: seq<string>)
    requires JamoBackend.PredictCore(Flatten(hand), infer, classes).Prediction?
    ensures var reply := JamoBackend.Response(JamoBackend.LandmarkData(Flatten(hand), Some(word)), infer, classes);
            reply.Body? && reply.json.fields["is_correct"] == JBool(JamoReplyPasses(reply.json, Some(word)))
  {
  }

  /** The backend's length error has neither a prediction nor a confidence. */
  lemma LengthErrorHasNoAnswer(word: string)
    ensures !JamoReplyPasses(Single("error", JStr(JamoBackend.LengthError)), Some(word))
    ensures Member(Single("error", JStr(JamoBackend.LengthError)), "confidence").None?
  {
    var body := Single("error", JStr(JamoBackend.LengthError));
    assert "prediction" !in body.fields && "confidence" !in body.fields;
  }

  /**
   * A hand of the wrong size gets the backend's error body, which the page
   * neither passes nor can show as a wrong answer: it reports a failure.
   */
  lemma WrongSizeIsServerFailure(hand: seq<Point>, word: string, infer: seq<real> -> seq<real>, classes: seq<string>)
    requires |hand| != HandLandmarks
    ensures var reply := JamoBackend.Response(JamoBackend.LandmarkData(Flatten(hand), Some(word)), infer, classes);
            reply.Body? && !JamoReplyPasses(reply.json, Some(word))
            && Member(reply.json, "confidence").None?
  {
    assert |Flatten(hand)| != JamoBackend.LandmarkCount;
    LengthErrorHasNoAnswer(word);
  }
}
