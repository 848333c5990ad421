# OpenSign core, modelled in Dafny

OpenSign teaches Korean Sign Language in the browser. It has three pages and two
prediction backends:

- the **learning page** (`sign_learn.js`) lists a category's words and plays an
  expert reference video for the selected word, with a fallback from mp4 to avi.
  It captures 90 webcam frames and asks the learning backend whether the sign
  matches the word;
- the **sign quiz** (`sign_quiz.js`) draws a random word, captures 90 frames while
  a progress bar fills, and grades the backend's answer;
- the **finger-spelling quiz** (`jiha_quiz.js`) draws one of 31 consonants and
  vowels. It sends one frame's hand landmarks, flattened to 42 numbers, and
  grades the answer;
- the **learning backend** (`main.py`) lists a category's labels in class-index
  order. For `/predict` it checks the request, decodes the data-URL frames and
  answers the most probable label;
- the **finger-spelling backend** (`sign_quiz_backend.py`) checks the landmark
  count, takes the arg-max class, scales it to a percentage and, when the request
  names a target, adds `is_correct`.

The model treats the outside world as inputs. Server replies are a JSON datatype
or a failed request. Media signals are a sequence of events. The random draw is
the real `r` in [0, 1) that `Math.random()` returned. Each event handler,
timer firing and whole capture session is one method call that runs to its
end before the next begins. The frames the camera yields, the feature extractor and the
neural networks are functions passed in.

Layout:

| file | module | models |
|---|---|---|
| `common.dfy` | `Common` | optional values, JSON, field lookup, the random index, arg-max |
| `grading.dfy` | `Grading` | the pass rule, its two threshold scales, grading of `/predict` answers |
| `capture.dfy` | `Capture` | the 90-tick capture loop shared by the learning page and the sign quiz |
| `learn_backend.dfy` | `LearnBackend` | `get_labels` and `predict` of the learning backend |
| `expert_media.dfy` | `ExpertMedia` | the candidate list and the sequential loader with its fallback link |
| `learn_page.dfy` | `LearnPage` | the learning page's state and handlers |
| `quiz_page.dfy` | `QuizPage` | the sign quiz page's state and handlers |
| `jamo_backend.dfy` | `JamoBackend` | `_predict_core`, `predict` and `predict_jiha` of the finger-spelling backend |
| `jamo_quiz.dfy` | `JamoQuiz` | the finger-spelling quiz page, landmark flattening and the letter table |

## Model

| member | source | states |
|---|---|---|
| Common.Truthy | OpenSign_learn/frontend/sign_learn.js:155 | a missing value and the empty string are both falsy; a truthy value is a non-empty string |
| Common.RandomIndex | OpenSign_quiz/frontend/sign_quiz.js:25 | `Math.floor(Math.random() * n)` is always a valid index below `n`, and it is the floor of the scaled draw |
| Common.RandomIndexReaches | OpenSign_quiz/frontend/sign_quiz.js:25 | every index `i < n` is drawn by some admissible draw, so every word of the list can be asked |
| Common.FirstArgMax | OpenSign_quiz_Con_Vowel/backend/sign_quiz_backend.py:59 | the arg-max is in range, no entry exceeds it, and every earlier entry is strictly smaller (the first maximum, as numpy and torch choose) |
| Common.FirstArgMaxUnique | OpenSign_learn/backend/main.py:158 | those two properties determine the arg-max: any index that has both is it |
| Grading.Passes | OpenSign_quiz_Con_Vowel/backend/sign_quiz_backend.py:81 | a wrong label never passes, and neither does a confidence below the threshold |
| Grading.SameWord | OpenSign_learn/frontend/sign_learn.js:198 | strict equality with the selected word: with a word selected only that string matches; with none, only `null` matches; no number, boolean, array or object matches |
| Grading.ProbReplyPasses | OpenSign_quiz/frontend/sign_quiz.js:82 | an answer passes only if it is an object whose `label` matches the word and whose `prob` is a number of at least 0.9; nothing but an object passes |
| Grading.ScalesAgree | OpenSign_quiz_Con_Vowel/backend/sign_quiz_backend.py:60-81 | a probability passes at 0.9 exactly when 100 times it passes at 90.0, so both scales make the same decision |
| Grading.PassIsMonotone | OpenSign_learn/frontend/sign_learn.js:198 | raising the confidence never turns a pass into a fail |
| Grading.Examples | OpenSign_quiz/frontend/sign_quiz.js:82 | the pass rule on worked cases: a match passes, a wrong word or a low score fails, and a probability is not a percentage |
| Grading.ProbReplyIsPassRule | OpenSign_quiz/frontend/sign_quiz.js:82 | grading the backend's `{label, prob}` answer against a selected word is exactly "label equals word and prob at least 0.9"; an `{error}` answer never passes |
| Capture.CaptureSession | OpenSign_learn/frontend/sign_learn.js:160-181 | one session submits exactly one batch of exactly 90 frames, in capture order, and the counter shown rises 1, 2, …, 90 |
| Capture.Percent | OpenSign_quiz/frontend/sign_quiz.js:51 | the bar stays within 0–100 % while at most 90 frames are collected, and reads 100 % exactly at the 90th frame |
| Capture.PercentIncreasing | OpenSign_quiz/frontend/sign_quiz.js:50-52 | more frames collected means a strictly wider bar |
| LearnBackend.Dict | OpenSign_learn/backend/main.py:74 | the loaded dictionary's keys are exactly the map's labels |
| LearnBackend.DictLookup | OpenSign_learn/backend/main.py:74 | in a map without repeated keys, each key looks up its own index |
| LearnBackend.InsertByIndex | OpenSign_learn/backend/main.py:75 | inserting an item makes the list one longer and puts either the item or the old head first |
| LearnBackend.InsertSorted | OpenSign_learn/backend/main.py:75 | inserting into a list sorted by index keeps it sorted |
| LearnBackend.InsertPermutes | OpenSign_learn/backend/main.py:75 | insertion adds exactly the new item and loses none |
| LearnBackend.SortByIndex | OpenSign_learn/backend/main.py:75 | `sorted(label_map.items(), key=index)` is as long as the map |
| LearnBackend.SortSorted | OpenSign_learn/backend/main.py:75 | the sorted items are in ascending index order |
| LearnBackend.SortPermutes | OpenSign_learn/backend/main.py:75 | the sorted items are a permutation of the map's items |
| LearnBackend.SortPermutesLabels | OpenSign_learn/backend/main.py:75 | the sorted labels are a permutation of the map's labels |
| LearnBackend.GetLabels | OpenSign_learn/backend/main.py:75 | `get_labels` returns exactly the map's keys, each once (a permutation) |
| LearnBackend.GetLabelsAscending | OpenSign_learn/backend/main.py:75 | every returned label is a key, and their indices never decrease along the list |
| LearnBackend.LabelsEndpoint | OpenSign_learn/backend/main.py:70-76 | a category with a label map answers a permutation of its labels; one without it fails (the open raises) |
| LearnBackend.Invert | OpenSign_learn/backend/main.py:139 | the inverse map is defined on exactly the map's indices and yields only the map's labels |
| LearnBackend.InvertLastWins | OpenSign_learn/backend/main.py:139 | an index maps back to the key of the last item that carries it |
| LearnBackend.InvertRoundTrip | OpenSign_learn/backend/main.py:139 | with distinct indices, `idx_to_label[label_map[k]] == k` for every key |
| LearnBackend.SplitOn | OpenSign_learn/backend/main.py:148 | `split` gives at least one part, no part contains the separator, and a single part exactly when the separator is absent |
| LearnBackend.SplitJoin | OpenSign_learn/backend/main.py:148 | joining the parts with the separator gives back the string |
| LearnBackend.DataUrlPayload | OpenSign_learn/backend/main.py:148 | `split(',')[1]` exists exactly when the frame has a comma, and it holds no comma |
| LearnBackend.DataUrlRoundTrip | OpenSign_learn/backend/main.py:148 | for `header,payload` with no other comma, the payload taken is exactly the text after the comma |
| LearnBackend.FramePixels | OpenSign_learn/backend/main.py:147-149 | a frame yields pixels exactly when `split(',')[1]` exists and decoding it succeeds; a frame without a comma never does |
| LearnBackend.Decodable | OpenSign_learn/backend/main.py:146-149 | a request whose every frame decodes consists of data URLs only |
| LearnBackend.Features | OpenSign_learn/backend/main.py:146-152 | the feature sequence has one entry per frame |
| LearnBackend.BuildSequence | OpenSign_learn/backend/main.py:146-152 | the loop succeeds exactly when every frame has a comma and its payload decodes to an image (a frame without a comma always fails it); it then holds one feature vector per frame, in frame order |
| LearnBackend.PredictionBody | OpenSign_learn/backend/main.py:161 | the answer has exactly the keys `label` and `prob`, bound to the label and the probability |
| LearnBackend.Predict | OpenSign_learn/backend/main.py:126-161 | a wrong frame count answers only the count error; a missing model or label map answers only the artifact error; a frame without a comma or whose payload does not decode, or an unknown class, fails the request; otherwise the answer is the first most probable class's label with its probability, and that label is always a key of the category's map |
| LearnBackend.PredictionIsMostProbable | OpenSign_learn/backend/main.py:158-161 | the answered class has the highest probability and its label belongs to the map |
| ExpertMedia.ExpertBasePath | OpenSign_learn/frontend/sign_learn.js:87 | every expert path lies under the backend's `/static/experts/` and ends with `/` and the encoded word |
| ExpertMedia.BuildCandidates | OpenSign_learn/frontend/sign_learn.js:89-93 | 3 candidates when mp4 is playable, 2 otherwise; all but the last are the mp4 file, the last is the avi file |
| ExpertMedia.OnlyLastIsAvi | OpenSign_learn/frontend/sign_learn.js:93 | in such a list exactly the last source ends in `.avi` |
| ExpertMedia.Attempt | OpenSign_learn/frontend/sign_learn.js:98-106 | an attempt at index `i` is exhausted exactly when `i` reaches the list length, and trying otherwise |
| ExpertMedia.Next | OpenSign_learn/frontend/sign_learn.js:109-116 | an error at index `i` attempts exactly `i + 1`; loaded data marks the current candidate loaded; with nothing installed no signal changes anything |
| ExpertMedia.ErrorsAdvanceInOrder | OpenSign_learn/frontend/sign_learn.js:109-111 | `k` errors from attempt `i` lead to attempt `i + k`, capped at exhaustion: candidates are tried strictly in list order |
| ExpertMedia.ExhaustedIsFinal | OpenSign_learn/frontend/sign_learn.js:100-105 | once exhausted, loading has stopped: no signal changes the state |
| ExpertMedia.FirstSuccessStops | OpenSign_learn/frontend/sign_learn.js:113-116 | after `k` errors, loaded data leaves candidate `k` as the one playing |
| ExpertMedia.IndexMonotone | OpenSign_learn/frontend/sign_learn.js:98-124 | the candidate index never moves backwards and never passes the list's end |
| ExpertMedia.FallbackShown | OpenSign_learn/frontend/sign_learn.js:99-123 | the link is hidden with nothing installed and once a candidate plays; after exhaustion it shows exactly when the list is non-empty; while trying it shows only for an avi source |
| ExpertMedia.FallbackOnlyAtTheEnd | OpenSign_learn/frontend/sign_learn.js:99-123 | for the lists `selectWord` builds, the link is visible exactly on the final (avi) attempt and after exhaustion |
| ExpertMedia.ExpertVideo.TryLoad | OpenSign_learn/frontend/sign_learn.js:98-124 | the fallback is hidden first; past the end the link shows the last candidate (if any); otherwise candidate `i` becomes the source and the link shows only for an avi source |
| ExpertMedia.ExpertVideo.Start | OpenSign_learn/frontend/sign_learn.js:95 | installing a list attempts its first candidate |
| ExpertMedia.ExpertVideo.OnLoadError | OpenSign_learn/frontend/sign_learn.js:98-112 | the error handler moves the element exactly as the state machine's error step; with nothing installed or after exhaustion it changes neither the source nor the link; once exhausted the element keeps the last candidate as its source |
| ExpertMedia.ExpertVideo.OnLoadedData | OpenSign_learn/frontend/sign_learn.js:113-116 | the loaded handler hides the link and keeps the source |
| ExpertMedia.ExpertVideo.Clear | OpenSign_learn/frontend/sign_learn.js:38-41 | removing the source leaves no source and no link |
| ExpertMedia.ExpertVideo.Drive | OpenSign_learn/frontend/sign_learn.js:98-116 | a sequence of signals leaves the element in the state the machine's run predicts; from idle or exhausted nothing changes, the source included; when exhausted the source is the last candidate |
| LearnPage.CategoryText | OpenSign_learn/frontend/sign_learn.js:87 | before any category the path segment is the text `null`; afterwards it is the category |
| LearnPage.AcceptedWords | OpenSign_learn/frontend/sign_learn.js:50-54 | a non-empty word list comes only from an array reply, and is that array |
| LearnPage.LearnPage.LoadLabels | OpenSign_learn/frontend/sign_learn.js:46-57 | an array reply becomes the word list; a non-array reply or a failed request leaves it empty |
| LearnPage.LearnPage.SelectWord | OpenSign_learn/frontend/sign_learn.js:82-96 | the word becomes current and the video attempts the first of the 2 or 3 candidates for that category and word |
| LearnPage.LearnPage.OnCategoryChange | OpenSign_learn/frontend/sign_learn.js:30-43 | with a non-empty list the first word is current and its video is being tried; with an empty list there is no word, no source and no link |
| LearnPage.LearnPage.StartLearnCollection | OpenSign_learn/frontend/sign_learn.js:148-182 | with a category or a word missing (null or empty) nothing is captured; otherwise exactly 90 frames are submitted in capture order, and the counter shown runs 0, 1, …, 90 |
| LearnPage.LearnPage.ShowFeedback | OpenSign_learn/frontend/sign_learn.js:194-216 | a failed request shows the failure text and no graded popup (the orange failure toast is UI, left out); any parsed answer raises the affirmative popup exactly when it passes against the current word |
| LearnPage.LearnPage.PopupTimerFires | OpenSign_learn/frontend/sign_learn.js:208-211 | the popup is hidden and the text returns to waiting |
| QuizPage.QuizPage.GenerateQuestion | OpenSign_quiz/frontend/sign_quiz.js:10-32 | a failed request keeps the previous word and shows the failure; a non-array or empty reply clears the word; otherwise the word is an element of the list, at the drawn index |
| QuizPage.QuizPage.StartQuizCollection | OpenSign_quiz/frontend/sign_quiz.js:35-64 | with no guard, exactly 90 frames are submitted in capture order, and the bar widths shown rise strictly to 100 % |
| QuizPage.QuizPage.ShowFeedback | OpenSign_quiz/frontend/sign_quiz.js:77-101 | a failed request or a null answer is caught and changes nothing; any other answer raises the affirmative popup exactly when it passes against the current word |
| QuizPage.QuizPage.PopupTimerFires | OpenSign_quiz/frontend/sign_quiz.js:92-97 | the popup is hidden, the bar returns to 0 % and the text to waiting |
| JamoBackend.PredictCore | OpenSign_quiz_Con_Vowel/backend/sign_quiz_backend.py:48-63 | the error comes exactly when the length is not 42; a prediction is the class at the first maximum of the probabilities (no class scores more, every earlier class scores less), with 100 times its probability as the percentage; it faults exactly on an empty vector or an unknown class |
| JamoBackend.ConfidenceIsPercent | OpenSign_quiz_Con_Vowel/backend/sign_quiz_backend.py:60 | probabilities in [0, 1] give a confidence in [0, 100] |
| JamoBackend.Response | OpenSign_quiz_Con_Vowel/backend/sign_quiz_backend.py:67-82 | the length error is passed through unchanged; a prediction answers `prediction` and `confidence`, plus `target_label` and `is_correct` exactly when a label was sent; `target_label` is the sent label and `is_correct` is the pass rule at 90.0 |
| JamoBackend.Predict | OpenSign_quiz_Con_Vowel/backend/sign_quiz_backend.py:66-82 | the dictionary built in place is that response |
| JamoBackend.PredictJiha | OpenSign_quiz_Con_Vowel/backend/sign_quiz_backend.py:85-88 | the alias answers exactly what `predict` answers |
| JamoBackend.IsCorrectOnUnitScale | OpenSign_quiz_Con_Vowel/backend/sign_quiz_backend.py:81 | `is_correct` is the same decision as the 0.9 rule applied to the winning probability |
| JamoQuiz.TableHasDistinctLetters | OpenSign_quiz_Con_Vowel/frontend/jiha_quiz.js:10-14 | the table has exactly 31 letters, no two alike |
| JamoQuiz.Flatten | OpenSign_quiz_Con_Vowel/frontend/jiha_quiz.js:50 | `n` points flatten to `2n` values, with element `2i` the x and `2i + 1` the y of point `i` |
| JamoQuiz.Unflatten | OpenSign_quiz_Con_Vowel/frontend/jiha_quiz.js:50 | a flat vector of even length reads back as half as many points |
| JamoQuiz.UnflattenFlatten | OpenSign_quiz_Con_Vowel/frontend/jiha_quiz.js:50 | flattening loses no point: reading back gives the hand |
| JamoQuiz.FlattenUnflatten | OpenSign_quiz_Con_Vowel/frontend/jiha_quiz.js:50 | every even-length vector is the flattening of some hand |
| JamoQuiz.HandFitsBackend | OpenSign_quiz_Con_Vowel/frontend/jiha_quiz.js:49-50 | a 21-landmark hand flattens to exactly the 42 values the backend accepts |
| JamoQuiz.JamoReplyPasses | OpenSign_quiz_Con_Vowel/frontend/jiha_quiz.js:65 | an answer passes only if it is an object whose `prediction` matches the asked letter and whose `confidence` is a number of at least 90; nothing but an object passes |
| JamoQuiz.JamoQuiz.GenerateQuestion | OpenSign_quiz_Con_Vowel/frontend/jiha_quiz.js:17-22 | the asked letter is always a member of the table, at the drawn index, and the text says ready |
| JamoQuiz.JamoQuiz.StartQuiz | OpenSign_quiz_Con_Vowel/frontend/jiha_quiz.js:25-27 | the text asks to hold the hand shape |
| JamoQuiz.JamoQuiz.CaptureTimerFires | OpenSign_quiz_Con_Vowel/frontend/jiha_quiz.js:29-30 | two seconds later the text says the still is being sent |
| JamoQuiz.JamoQuiz.OnHandResults | OpenSign_quiz_Con_Vowel/frontend/jiha_quiz.js:42-59 | no hand sends nothing and raises the no-hand popup with a retry text; otherwise the request carries the first hand's flattened landmarks and the asked letter as its label |
| JamoQuiz.JamoQuiz.OnServerReply | OpenSign_quiz_Con_Vowel/frontend/jiha_quiz.js:61-75 | the right popup comes exactly when prediction equals the asked letter and confidence is at least 90; a wrong answer with a numeric confidence raises the wrong popup; a failed request, a null body or a wrong answer without a numeric confidence shows the failure text and no popup |
| JamoQuiz.JamoQuiz.PopupTimerFires | OpenSign_quiz_Con_Vowel/frontend/jiha_quiz.js:94-98 | after a popup closes the popup is gone and a new letter from the table is asked |
| JamoQuiz.PageAgreesWithBackend | OpenSign_quiz_Con_Vowel/frontend/jiha_quiz.js:65 | for a hand the backend can classify, the page's verdict equals the backend's `is_correct` for the letter it sent |
| JamoQuiz.LengthErrorHasNoAnswer | OpenSign_quiz_Con_Vowel/frontend/jiha_quiz.js:62-68 | the backend's length error has no prediction and no confidence, so it never passes and reaches the `toFixed` call with `undefined` |
| JamoQuiz.WrongSizeIsServerFailure | OpenSign_quiz_Con_Vowel/frontend/jiha_quiz.js:65-74 | a hand that is not 21 points gets the length error, which never passes and has no confidence, so the page reports a server failure |

## Left out

- Webcam access, canvas drawing and `toDataURL`: a frame is an opaque string, and the still taken at tick `i` is `grab(i)`.
- `fetch`, HTTP, CORS, uvicorn and static-file serving: a reply is an input (a JSON body, or a failed request when the request or `res.json()` throws).
- Pickle, `.pth` and `.h5` loading: the label maps and model files present are inputs.
- Timer cadence and durations (33 ms, 1600 ms, 2000 ms): each timer firing is a method call, in order.
- DOM text, colours, `alert`, toasts (among them the orange failure toast that `sign_learn.js:137-142` shows for 1.6 s in the popup element), console logging and `renderWordNav`: UI with no state the model needs. Progress text and popups are kept as datatypes.
- MediaPipe Holistic and Hands, `KeypointGRUModelV2`, the Keras model and softmax: foreign libraries, passed in as the functions `extract`, `classify` and `infer`.
- The feature extraction of `main.py` (angles, norms, numpy maths), base64 and image decoding: floating-point numerics and image I/O. Decoding is the partial function `decode` (None where `b64decode` or `Image.open` raises) and extraction the total function `extract`.
- `utils.preprocess` of the finger-spelling backend is not part of this model; it is folded into `infer`.
- The landmarks' depth coordinate: `flatMap` drops it, and the model's points carry only x and y.
- `home/home.js`: navigation links only.
- The page start-up handlers (`window.onload`) only chain calls the model already has. The two quiz pages call `generateQuestion()` first and request the camera afterwards, without waiting for it (`sign_quiz.js:105-110`, `jiha_quiz.js:102-107`). The learning page awaits the camera first, showing a toast if that fails, and then calls `onCategoryChange` (`sign_learn.js:222-238`).
- LearnBackend.Predict: does not model `round(confidence, 4)`; the answered probability is unrounded.
- JamoQuiz.JamoQuiz.OnServerReply: does not model the `toFixed(1)` text, and treats a confidence that is not a JSON number as non-numeric. JavaScript's `>= 90.0` would coerce it instead: a numeric string such as `"95"`, `true` (as 1) and a one-element array such as `[95]` compare as numbers.
- JamoQuiz.JamoReplyPasses: the same coercions are left out; a `confidence` that is not a JSON number never passes.
- Grading.ProbReplyPasses: a `prob` that is not a JSON number fails. JavaScript's `>= 0.9` would coerce it: a numeric string such as `"0.95"`, `true` (as 1, so it passes) and a one-element array such as `[0.95]` compare as numbers.
- Interleaving of asynchronous handlers: every handler, every `await` and each whole 90-tick capture session is modelled as atomic. Three interleavings the browser allows are not modelled. (1) A category change during a learning capture: `/predict` is then sent the new `currentCategory` (`sign_learn.js:192`) and graded against the new `currentWord` (`sign_learn.js:198`). (2) A capture started while `loadLabels` is pending: `currentCategory` is already the new category (`sign_learn.js:31`) while `currentWord` is still the old word. (3) A second capture started while one is running: two `setTimeout` chains then each fill their own `frames` array, their progress texts interleave, and both send.
- LearnBackend.GetLabels: does not state that labels with equal indices keep their dictionary order (Python's sort is stable); the permutation and the ascending order are stated.
- LearnPage.LearnPage.StartLearnCollection: does not model the `alert` shown on refusal, nor the intermediate progress texts between counts.
- Label lists whose elements are not strings: the word list is modelled as strings.
