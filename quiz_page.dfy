/**
 * The sign-quiz page (OpenSign_quiz/frontend/sign_quiz.js): a random word
 * of the selected category is drawn from `/labels`; the capture button
 * samples 90 frames while a progress bar fills, sends them to `/predict`,
 * and grades the answer against the drawn word.
 *
 * `Math.random()` is the parameter `r`; server replies and the frames the
 * camera yields are inputs.
 */
module QuizPage {
  import opened Common
  import opened Grading
  import Capture

  /** What the word element shows. */
  datatype WordDisplay = Blank | NoWords | LoadFailed | Showing(word: string)

  /** What the progress text says. */
  datatype Progress = Waiting | Analysing

  class QuizPage {
    var currentWord: Option<string>
    var display: WordDisplay
    /** Width of the progress bar, in percent. */
    var barPercent: real
    var progress: Progress
    var popup: Option<Feedback>

    constructor ()
      ensures currentWord.None? && display == Blank
      ensures barPercent == 0.0 && progress == Waiting && popup.None?
    {
      currentWord, display := None, Blank;
      barPercent, progress, popup := 0.0, Waiting, None;
    }

    /**
     * `generateQuestion`: a failed request or unparsable body only reports
     * the failure, keeping the previous word; a body that is not an array,
     * or an empty one, clears the word; otherwise a uniformly drawn label
     * becomes the question.
     */
    method GenerateQuestion(reply: LabelsReply, r: real)
      requires 0.0 <= r < 1.0
      modifies this`currentWord, this`display
      ensures reply.FetchFailed? ==> currentWord == old(currentWord) && display == LoadFailed
      ensures reply.NotArray? || reply == WordArray([]) ==> currentWord.None? && display == NoWords
      ensures reply.WordArray? && reply.words != [] ==>
                && currentWord == Some(reply.words[RandomIndex(r, |reply.words|)])
                && currentWord.value in reply.words
                && display == Showing(currentWord.value)
    {
      if reply.FetchFailed? {
        display := LoadFailed;
        return;
      }
      if reply.NotArray? || |reply.words| == 0 {
        display := NoWords;
        currentWord := None;
        return;
      }
      var word := reply.words[RandomIndex(r, |reply.words|)];
      currentWord := Some(word);
      display := Showing(word);
    }

    /**
     * `startQuizCollection`: one capture session; `percents` lists every
     * width the progress bar is given, which rise strictly to 100.
     */
    method StartQuizCollection(grab: nat -> string) returns (batch: seq<string>, percents: seq<real>)
      modifies this`barPercent, this`progress
      ensures |batch| == Capture.FrameTarget
      ensures forall i :: 0 <= i < |batch| ==> batch[i] == grab(i)
      ensures |percents| == Capture.FrameTarget
      ensures forall i :: 0 <= i < |percents| ==> percents[i] == Capture.Percent(i + 1)
      ensures forall i, j :: 0 <= i < j < |percents| ==> percents[i] < percents[j]
      ensures percents[|percents| - 1] == 100.0
      ensures barPercent == 100.0 && progress == Analysing
    {
      var submitted, shown := Capture.CaptureSession(grab);
      batch := submitted[0];
      percents := seq(|shown|, i requires 0 <= i < |shown| => Capture.Percent(shown[i]));
      forall i, j | 0 <= i < j < |percents|
        ensures percents[i] < percents[j]
      {
        Capture.PercentIncreasing(i + 1, j + 1);
      }
      barPercent := percents[|percents| - 1];
      progress := Analysing;
    }

    /**
     * The reply handling of `sendFramesToBackend`. A failed request, and a
     * `null` body (reading `result.label` throws), are caught and change
     * nothing; any other body raises the popup, affirmative exactly when
     * it passes against the current word.
     */
    method ShowFeedback(reply: HttpReply)
      modifies this`popup
      ensures reply.Failed? || reply == Body(JNull) ==> popup == old(popup)
      ensures reply.Body? && !reply.json.JNull? ==>
                popup == Some(if ProbReplyPasses(reply.json, currentWord) then Correct else TryAgain)
    {
      if reply.Failed? || reply.json.JNull? {
        return;
      }
      if ProbReplyPasses(reply.json, currentWord) {
        popup := Some(Correct);
      } else {
        popup := Some(TryAgain);
      }
    }

    /** Two seconds after the popup: hide it, empty the bar, reset the text. */
    method PopupTimerFires()
      modifies this`popup, this`barPercent, this`progress
      ensures popup.None? && barPercent == 0.0 && progress == Waiting
    {
      popup := None;
      barPercent := 0.0;
      progress := Waiting;
    }
  }
}
