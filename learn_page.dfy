/**
 * The learning page (OpenSign_learn/frontend/sign_learn.js): choosing a
 * category loads its labels and selects the first word; selecting a word
 * starts the expert video; the capture button samples 90 frames and sends
 * them to `/predict`, whose answer is graded against the selected word.
 *
 * The page's module-level variables are the fields of LearnPage. Server
 * replies, the browser's `canPlayType('video/mp4')` answer,
 * `encodeURIComponent` and the frames the camera yields are inputs.
 */
module LearnPage {
  import opened Common
  import opened Grading
  import Capture
  import opened ExpertMedia

  /** What the progress text says. */
  datatype Progress = Waiting | Analysing | RequestFailed

  /** `Array.isArray(words) ? words : []`, with a failed request also giving `[]`. */
  function AcceptedWords(reply: LabelsReply): (words: seq<string>)
    ensures words != [] ==> reply.WordArray? && words == reply.words
  {
    if reply.WordArray? then reply.words else []
  }

  /** `encodeURIComponent` is applied to `currentCategory`, which is "null" before any category. */
  function CategoryText(category: Option<string>): (text: string)
    ensures category.None? ==> text == "null"
    ensures category.Some? ==> text == category.value
  {
    if category.Some? then category.value else "null"
  }

  class LearnPage {
    var currentCategory: Option<string>
    var currentWord: Option<string>
    var wordList: seq<string>
    var progress: Progress
    var popup: Option<Feedback>
    const video: ExpertVideo

    ghost predicate Valid()
      reads this, video
    {
      video.Valid()
    }

    constructor ()
      ensures Valid() && fresh(video)
      ensures currentCategory.None? && currentWord.None? && wordList == []
      ensures progress == Waiting && popup.None?
    {
      currentCategory, currentWord, wordList := None, None, [];
      progress, popup := Waiting, None;
      video := new ExpertVideo();
    }

    /** `loadLabels`: a malformed reply or a failed request leaves the list empty. */
    method LoadLabels(reply: LabelsReply)
      modifies this`wordList
      ensures wordList == AcceptedWords(reply)
      ensures reply.WordArray? ==> wordList == reply.words
      ensures !reply.WordArray? ==> wordList == []
    {
      if reply.WordArray? {
        wordList := reply.words;
      } else {
        wordList := [];
      }
    }

    /** `selectWord`: remember the word and try its expert video candidates in order. */
    method SelectWord(word: string, canMp4: bool, encode: string -> string)
      requires Valid()
      modifies this`currentWord, video
      ensures Valid()
      ensures currentWord == Some(word)
      ensures |video.candidates| == if canMp4 then 3 else 2
      ensures CandidateShape(video.candidates, ExpertBasePath(CategoryText(currentCategory), word, encode))
      ensures video.State() == Attempt(|video.candidates|, 0)
    {
      currentWord := Some(word);
      var basePath := ExpertBasePath(CategoryText(currentCategory), word, encode);
      var candidates := BuildCandidates(basePath, canMp4);
      video.Start(candidates);
    }

    /**
     * `onCategoryChange`: load the category's labels; with a non-empty list
     * the first word becomes the current one, otherwise there is no word,
     * the video source is removed and the fallback link hidden.
     */
    method OnCategoryChange(category: string, reply: LabelsReply, canMp4: bool, encode: string -> string)
      requires Valid()
      modifies this, video
      ensures Valid()
      ensures currentCategory == Some(category)
      ensures wordList == AcceptedWords(reply)
      ensures wordList != [] ==> currentWord == Some(wordList[0])
      ensures wordList != [] ==>
                CandidateShape(video.candidates, ExpertBasePath(category, wordList[0], encode))
                && video.State() == Attempt(|video.candidates|, 0)
      ensures wordList == [] ==> currentWord.None? && video.phase == Idle && video.src.None?
      ensures wordList == [] ==> !video.fallbackVisible
      ensures progress == old(progress) && popup == old(popup)
    {
      currentCategory := Some(category);
      LoadLabels(reply);
      if |wordList| > 0 {
        SelectWord(wordList[0], canMp4, encode);
      } else {
        currentWord := None;
        video.Clear();
      }
    }

    /**
     * `startLearnCollection`: refuses, capturing nothing, unless both a
     * category and a word are selected (null and "" count as missing);
     * otherwise runs one capture session. `shown` is every count the
     * progress text displays, starting from the initial "0 / 90".
     */
    method StartLearnCollection(grab: nat -> string) returns (batch: Option<seq<string>>, shown: seq<nat>)
      modifies this`progress
      ensures !(Truthy(currentCategory) && Truthy(currentWord)) ==>
                batch.None? && shown == [] && progress == old(progress)
      ensures Truthy(currentCategory) && Truthy(currentWord) ==>
                && batch.Some? && |batch.value| == Capture.FrameTarget
                && (forall i :: 0 <= i < Capture.FrameTarget ==> batch.value[i] == grab(i))
                && progress == Analysing
      ensures Truthy(currentCategory) && Truthy(currentWord) ==> |shown| == Capture.FrameTarget + 1
      ensures forall i :: 0 <= i < |shown| ==> shown[i] == i
    {
      if !Truthy(currentCategory) || !Truthy(currentWord) {
        return None, [];
      }
      var submitted, counts := Capture.CaptureSession(grab);
      batch := Some(submitted[0]);
      shown := [0] + counts;
      progress := Analysing;
    }

    /**
     * The reply handling of `sendFramesToBackend`: a failed request shows
     * the failure text; any parsed answer raises the popup, affirmative
     * exactly when it passes against the word selected at that moment
     * (`result && ...` adds nothing: a falsy answer has no fields).
     */
    method ShowFeedback(reply: HttpReply)
      modifies this`progress, this`popup
      ensures reply.Failed? ==> progress == RequestFailed && popup == old(popup)
      ensures reply.Body? ==> progress == old(progress)
      ensures reply.Body? ==> popup == Some(if ProbReplyPasses(reply.json, currentWord) then Correct else TryAgain)
    {
      if reply.Failed? {
        progress := RequestFailed;
        return;
      }
      if ProbReplyPasses(reply.json, currentWord) {
        popup := Some(Correct);
      } else {
        popup := Some(TryAgain);
      }
    }

    /** Two seconds after the popup: hide it and return the text to waiting. */
    method PopupTimerFires()
      modifies this`progress, this`popup
      ensures popup.None? && progress == Waiting
    {
      popup := None;
      progress := Waiting;
    }
  }
}
