/**
 * The finger-spelling backend (OpenSign_quiz_Con_Vowel/backend/
 * sign_quiz_backend.py): `/predict` takes one frame's hand landmarks,
 * 21 points flattened to 42 numbers, classifies them into one of the
 * consonant/vowel classes and answers the label with a percentage
 * confidence; when the request names a target label it also answers
 * whether the prediction counts as correct. `/predict_jiha` is an alias.
 *
 * The preprocessing and the Keras model together are the function
 * `infer`, from landmarks to class probabilities; the label encoder's
 * classes, in class-index order, are `classes`.
 */
module JamoBackend {
  import opened Common
  import opened Grading

  /** Landmark values one request must carry: 21 points times (x, y). */
  const LandmarkCount: nat := 42

  const LengthError: string := "Expected 42 values for 21 (x,y) landmarks"

  /** The request body: `landmarks`, and the optional `label` (`None` when absent or null). */
  datatype LandmarkData = LandmarkData(landmarks: seq<real>, target: Option<string>)

  /**
   * What `_predict_core` produces: the error dictionary, a label with its
   * confidence, or an exception (argmax of an empty vector, or a class
   * index the encoder does not know), which FastAPI turns into a plain-text
   * server error.
   */
  datatype CoreResult = CoreError(body: Json) | Prediction(name: string, confidence: real) | Fault

  /** `_predict_core`: length check, then arg-max of the probabilities, scaled to percent. */
  function PredictCore(landmarks: seq<real>, infer: seq<real> -> seq<real>, classes: seq<string>): (r: CoreResult)
    ensures r.CoreError? <==> |landmarks| != LandmarkCount
    ensures r.CoreError? ==> r.body == Single("error", JStr(LengthError))
    ensures r.Fault? <==>
              |landmarks| == LandmarkCount
              && (|infer(landmarks)| == 0 || FirstArgMax(infer(landmarks)) >= |classes|)
    ensures r.Prediction? ==>
              var probs := infer(landmarks);
              && |probs| > 0
              && (exists k :: 0 <= k < |probs| && k < |classes| && r.name == classes[k]
                                                && r.confidence == probs[k] * 100.0)
              && (forall j :: 0 <= j < |probs| ==> probs[j] * 100.0 <= r.confidence)
    ensures r.Prediction? ==>
              var probs := infer(landmarks);
              && |probs| > 0 && FirstArgMax(probs) < |classes|
              && r.name == classes[FirstArgMax(probs)]
              && r.confidence == probs[FirstArgMax(probs)] * 100.0
  {
    if |landmarks| != LandmarkCount then CoreError(Single("error", JStr(LengthError)))
    else
      var probs := infer(landmarks);
      if |probs| == 0 then Fault
      else
        var k := FirstArgMax(probs);
        if k >= |classes| then Fault
        else Prediction(classes[k], probs[k] * 100.0)
  }

  /** Probabilities in [0, 1] give a confidence in [0, 100]. */
  lemma ConfidenceIsPercent(landmarks: seq<real>, infer: seq<real> -> seq<real>, classes: seq<string>)
    requires forall j :: 0 <= j < |infer(landmarks)| ==> 0.0 <= infer(landmarks)[j] <= 1.0
    ensures PredictCore(landmarks, infer, classes).Prediction? ==>
              0.0 <= PredictCore(landmarks, infer, classes).confidence <= 100.0
  {
  }

  /**
   * The answer of `predict`: the error dictionary is answered as it is; a
   * prediction answers `prediction` and `confidence`, and when a target
   * label was sent, also `target_label` and `is_correct`; a fault is a
   * failed request.
   */
  function Response(data: LandmarkData, infer: seq<real> -> seq<real>, classes: seq<string>): (reply: HttpReply)
    ensures |data.landmarks| != LandmarkCount ==> reply == Body(Single("error", JStr(LengthError)))
    ensures reply.Failed? <==> PredictCore(data.landmarks, infer, classes).Fault?
    ensures PredictCore(data.landmarks, infer, classes).Prediction? ==>
              var core := PredictCore(data.landmarks, infer, classes);
              && reply.Body? && reply.json.JObj?
              && reply.json.fields.Keys == (if data.target.Some? then {"prediction", "confidence", "target_label", "is_correct"}
                                            else {"prediction", "confidence"})
              && reply.json.fields["prediction"] == JStr(core.name)
              && reply.json.fields["confidence"] == JNum(core.confidence)
              && (data.target.Some? ==>
                    && reply.json.fields["target_label"] == JStr(data.target.value)
                    && reply.json.fields["is_correct"] == JBool(Passes(core.name, data.target.value, core.confidence, PercentThreshold)))
  {
    match PredictCore(data.landmarks, infer, classes)
    case CoreError(body) => Body(body)
    case Fault => Failed
    case Prediction(name, confidence) =>
      var resp := map["prediction" := JStr(name), "confidence" := JNum(confidence)];
      if data.target.Some? then
        Body(JObj(resp["target_label" := JStr(data.target.value)]
                      ["is_correct" := JBool(name == data.target.value && confidence >= 90.0)]))
      else Body(JObj(resp))
  }

  /** `predict`: builds the response dictionary, then adds the target fields in place. */
  method Predict(data: LandmarkData, infer: seq<real> -> seq<real>, classes: seq<string>) returns (reply: HttpReply)
    ensures reply == Response(data, infer, classes)
  {
    var result := PredictCore(data.landmarks, infer, classes);
    if result.CoreError? {
      return Body(result.body);
    }
    if result.Fault? {
      return Failed;
    }
    var resp: map<string, Json> := map[];
    resp := resp["prediction" := JStr(result.name)];
    resp := resp["confidence" := JNum(result.confidence)];
    if data.target.Some? {
      resp := resp["target_label" := JStr(data.target.value)];
      resp := resp["is_correct" := JBool(result.name == data.target.value && result.confidence >= 90.0)];
    }
    reply := Body(JObj(resp));
  }

  /** `predict_jiha`: the same logic under a second path. */
  method PredictJiha(data: LandmarkData, infer: seq<real> -> seq<real>, classes: seq<string>) returns (reply: HttpReply)
    ensures reply == Response(data, infer, classes)
  {
    reply := Predict(data, infer, classes);
  }

  /**
   * `is_correct` on the percentage scale is the same decision as the other
   * pages' 0.9 threshold applied to the winning probability.
   */
  lemma IsCorrectOnUnitScale(landmarks: seq<real>, infer: seq<real> -> seq<real>, classes: seq<string>, target: string)
    requires PredictCore(landmarks, infer, classes).Prediction?
    ensures var probs := infer(landmarks);
            var k := FirstArgMax(probs);
            var core := PredictCore(landmarks, infer, classes);
            Passes(core.name, target, core.confidence, PercentThreshold)
            <==> Passes(classes[k], target, probs[k], UnitThreshold)
  {
    var probs := infer(landmarks);
    var k := FirstArgMax(probs);
    ScalesAgree(classes[k], target, probs[k]);
  }
}
