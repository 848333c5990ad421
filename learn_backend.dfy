/**
 * The learning backend (OpenSign_learn/backend/main.py): the `/labels`
 * endpoint, which lists a category's labels in class-index order, and the
 * `/predict` endpoint, which checks a 90-frame request, inverts the label
 * map, turns every data-URL frame into a feature vector and answers the
 * most probable label.
 *
 * The file system is two inputs: `models`, the categories whose
 * `{category}_model.pth` exists, and `labelMaps`, the unpickled
 * `{category}_label_map.pkl` of every category that has one. Feature
 * Decoding a frame (base64, PIL) is the partial function `decode`; feature
 * extraction (MediaPipe Holistic and the vector maths after it) is the
 * function `extract`; the GRU forward pass and softmax are `classify`.
 * An exception that escapes a handler becomes an HTTP 500 whose body is not
 * JSON, which the pages see as `Failed`.
 */
module LearnBackend {
  import opened Common
  import Capture

  /** One item `(key, index)` of a pickled label map. */
  datatype LabelEntry = LabelEntry(key: string, index: int)

  /** A label map `{key: index}` as its items in insertion order. */
  type LabelMap = seq<LabelEntry>

  const FrameCountError: string := "프레임 수가 90이 아닙니다."
  const ArtifactError: string := "모델/라벨맵 파일 없음"

  /** A Python dict never holds a key twice. */
  predicate IsDict(m: LabelMap)
  {
    forall i, j :: 0 <= i < j < |m| ==> m[i].key != m[j].key
  }

  /** No two labels share a class index (the map is a bijection onto its indices). */
  predicate DistinctIndices(m: LabelMap)
  {
    forall i, j :: 0 <= i < j < |m| ==> m[i].index != m[j].index
  }

  /** The keys of a label map, in item order. */
  function Labels(m: LabelMap): (r: seq<string>)
    ensures |r| == |m|
    ensures forall i :: 0 <= i < |m| ==> r[i] == m[i].key
  {
    if m == [] then [] else [m[0].key] + Labels(m[1..])
  }

  /** The keys of all items but the last, then the last item's key. */
  lemma {:induction false} LabelsSnoc(m: LabelMap)
    requires m != []
    ensures Labels(m) == Labels(m[..|m| - 1]) + [m[|m| - 1].key]
  {
    var front := Labels(m[..|m| - 1]) + [m[|m| - 1].key];
    assert |front| == |m|;
    forall i | 0 <= i < |m|
      ensures front[i] == Labels(m)[i]
    {
    }
  }

  /** The class indices of a label map, in item order. */
  function Indices(m: LabelMap): (r: seq<int>)
    ensures |r| == |m|
  {
    seq(|m|, i requires 0 <= i < |m| => m[i].index)
  }

  /** The indices of all items but the last, then the last item's index. */
  lemma {:induction false} IndicesSnoc(m: LabelMap)
    requires m != []
    ensures Indices(m) == Indices(m[..|m| - 1]) + [m[|m| - 1].index]
  {
  }

  /** `label_map` as a dictionary: building it item by item, a later item wins. */
  function Dict(m: LabelMap): (d: map<string, int>)
    ensures forall k :: k in d <==> k in Labels(m)
  {
    if m == [] then map[]
    else
      LabelsSnoc(m);
      Dict(m[..|m| - 1])[m[|m| - 1].key := m[|m| - 1].index]
  }

  /** Looking up a key of a dict gives the index stored with it. */
  lemma {:induction false} DictLookup(m: LabelMap, i: nat)
    requires IsDict(m) && i < |m|
    ensures m[i].key in Dict(m) && Dict(m)[m[i].key] == m[i].index
  {
    if i < |m| - 1 {
      DictLookup(m[..|m| - 1], i);
    }
  }

  // ---------------------------------------------------------------
  // get_labels: `[k for k, _ in sorted(label_map.items(), key=lambda x: x[1])]`
  // ---------------------------------------------------------------

  predicate SortedByIndex(s: LabelMap)
  {
    forall i, j :: 0 <= i < j < |s| ==> s[i].index <= s[j].index
  }

  /**
   * Inserts `e` before the first item whose index is not below its own.
   * Its contract keeps to lengths; ordering and contents are the lemmas
   * InsertSorted and InsertPermutes.
   */
  function InsertByIndex(e: LabelEntry, s: LabelMap): (r: LabelMap)
    ensures |r| == |s| + 1
    ensures r[0] == e || (s != [] && r[0] == s[0])
  {
    if s == [] || e.index <= s[0].index then [e] + s
    else [s[0]] + InsertByIndex(e, s[1..])
  }

  /** Inserting into a list sorted by index keeps it sorted. */
  lemma {:induction false} InsertSorted(e: LabelEntry, s: LabelMap)
    requires SortedByIndex(s)
    ensures SortedByIndex(InsertByIndex(e, s))
  {
    if s != [] && e.index > s[0].index {
      var rest := InsertByIndex(e, s[1..]);
      InsertSorted(e, s[1..]);
      assert s[0].index <= rest[0].index;
      assert InsertByIndex(e, s) == [s[0]] + rest;
    }
  }

  /** Insertion adds exactly `e` to the items. */
  lemma {:induction false} InsertPermutes(e: LabelEntry, s: LabelMap)
    ensures multiset(InsertByIndex(e, s)) == multiset(s) + multiset{e}
  {
    if s != [] && e.index > s[0].index {
      var rest := InsertByIndex(e, s[1..]);
      InsertPermutes(e, s[1..]);
      assert InsertByIndex(e, s) == [s[0]] + rest;
      assert s == [s[0]] + s[1..];
      calc {
        multiset(InsertByIndex(e, s));
        multiset([s[0]]) + multiset(rest);
        multiset([s[0]]) + multiset(s[1..]) + multiset{e};
        multiset(s) + multiset{e};
      }
    }
  }

  /** Insertion adds exactly the key of `e` to the labels. */
  lemma {:induction false} InsertPermutesLabels(e: LabelEntry, s: LabelMap)
    ensures multiset(Labels(InsertByIndex(e, s))) == multiset(Labels(s)) + multiset{e.key}
  {
    var r := InsertByIndex(e, s);
    if s == [] || e.index <= s[0].index {
      assert r == [e] + s;
      assert Labels(r) == [e.key] + Labels(s);
    } else {
      var rest := InsertByIndex(e, s[1..]);
      InsertPermutesLabels(e, s[1..]);
      assert r == [s[0]] + rest;
      assert Labels(r) == [s[0].key] + Labels(rest);
      assert Labels(s) == [s[0].key] + Labels(s[1..]);
    }
  }

  /** The items of a label map sorted by index (insertion sort). */
  function SortByIndex(m: LabelMap): (r: LabelMap)
    ensures |r| == |m|
  {
    if m == [] then [] else InsertByIndex(m[0], SortByIndex(m[1..]))
  }

  /** The sorted items are in ascending index order. */
  lemma {:induction false} SortSorted(m: LabelMap)
    ensures SortedByIndex(SortByIndex(m))
  {
    if m != [] {
      SortSorted(m[1..]);
      InsertSorted(m[0], SortByIndex(m[1..]));
    }
  }

  /** Sorting only reorders: the items are a permutation of the input's. */
  lemma {:induction false} SortPermutes(m: LabelMap)
    ensures multiset(SortByIndex(m)) == multiset(m)
  {
    if m != [] {
      var tail := SortByIndex(m[1..]);
      SortPermutes(m[1..]);
      InsertPermutes(m[0], tail);
      assert m == [m[0]] + m[1..];
    }
  }

  /** Sorting only reorders the labels. */
  lemma {:induction false} SortPermutesLabels(m: LabelMap)
    ensures multiset(Labels(SortByIndex(m))) == multiset(Labels(m))
  {
    if m != [] {
      SortPermutesLabels(m[1..]);
      InsertPermutesLabels(m[0], SortByIndex(m[1..]));
      assert Labels(m) == [m[0].key] + Labels(m[1..]);
    }
  }

  /** `get_labels` once the label map is loaded. */
  function GetLabels(m: LabelMap): (r: seq<string>)
    ensures |r| == |m|
    ensures multiset(r) == multiset(Labels(m))
  {
    SortPermutesLabels(m);
    Labels(SortByIndex(m))
  }

  /** `get_labels` lists the keys in ascending order of their class index. */
  lemma GetLabelsAscending(m: LabelMap)
    requires IsDict(m)
    ensures forall i :: 0 <= i < |GetLabels(m)| ==> GetLabels(m)[i] in Dict(m)
    ensures forall i, j :: 0 <= i < j < |GetLabels(m)| ==> Dict(m)[GetLabels(m)[i]] <= Dict(m)[GetLabels(m)[j]]
  {
    var s := SortByIndex(m);
    SortPermutes(m);
    SortSorted(m);
    forall i | 0 <= i < |s|
      ensures s[i].key in Dict(m) && Dict(m)[s[i].key] == s[i].index
    {
      assert s[i] in multiset(m);
      var k :| 0 <= k < |m| && m[k] == s[i];
      DictLookup(m, k);
    }
  }

  /**
   * The `/labels?category=...` endpoint: opening a missing label-map file
   * raises, which the page sees as a failed request.
   */
  function LabelsEndpoint(category: string, labelMaps: map<string, LabelMap>): (r: LabelsReply)
    ensures r.WordArray? <==> category in labelMaps
    ensures r.WordArray? ==> multiset(r.words) == multiset(Labels(labelMaps[category]))
    ensures !r.WordArray? ==> r == FetchFailed
  {
    if category in labelMaps then WordArray(GetLabels(labelMaps[category])) else FetchFailed
  }

  // ---------------------------------------------------------------
  // idx_to_label = {v: k for k, v in label_map.items()}
  // ---------------------------------------------------------------

  /** The inverse label map: built item by item, a later item wins an index. */
  function Invert(m: LabelMap): (inv: map<int, string>)
    ensures forall v :: v in inv <==> v in Indices(m)
    ensures forall v :: v in inv ==> inv[v] in Labels(m)
  {
    if m == [] then map[]
    else
      LabelsSnoc(m);
      IndicesSnoc(m);
      Invert(m[..|m| - 1])[m[|m| - 1].index := m[|m| - 1].key]
  }

  /** An index maps back to the label of the last item that carries it. */
  lemma {:induction false} InvertLastWins(m: LabelMap, i: nat)
    requires i < |m|
    requires forall j :: i < j < |m| ==> m[j].index != m[i].index
    ensures m[i].index in Invert(m) && Invert(m)[m[i].index] == m[i].key
  {
    if i < |m| - 1 {
      InvertLastWins(m[..|m| - 1], i);
    }
  }

  /** With distinct indices, `idx_to_label[label_map[k]] == k` for every key `k`. */
  lemma InvertRoundTrip(m: LabelMap, k: string)
    requires IsDict(m) && DistinctIndices(m)
    requires k in Dict(m)
    ensures Dict(m)[k] in Invert(m) && Invert(m)[Dict(m)[k]] == k
  {
    var i :| 0 <= i < |m| && Labels(m)[i] == k;
    DictLookup(m, i);
    InvertLastWins(m, i);
  }

  // ---------------------------------------------------------------
  // frame_base64.split(',')[1]
  // ---------------------------------------------------------------

  /** Python's `s.split(sep)` for a one-character separator. */
  function SplitOn(s: string, sep: char): (parts: seq<string>)
    ensures |parts| >= 1
    ensures forall i :: 0 <= i < |parts| ==> sep !in parts[i]
    ensures |parts| == 1 <==> sep !in s
  {
    if s == [] then [""]
    else
      var rest := SplitOn(s[1..], sep);
      if s[0] == sep then [""] + rest
      else [[s[0]] + rest[0]] + rest[1..]
  }

  /** `sep.join(parts)`, the inverse of SplitOn. */
  function JoinWith(parts: seq<string>, sep: char): string
    requires |parts| >= 1
  {
    if |parts| == 1 then parts[0] else parts[0] + [sep] + JoinWith(parts[1..], sep)
  }

  /** Joining the pieces of a split gives the text back. */
  lemma {:induction false} SplitJoin(s: string, sep: char)
    ensures JoinWith(SplitOn(s, sep), sep) == s
  {
    if s != [] {
      SplitJoin(s[1..], sep);
      var rest := SplitOn(s[1..], sep);
      if s[0] != sep && |rest| > 1 {
        assert SplitOn(s, sep)[1..] == rest[1..];
      }
    }
  }

  /** Text before the first separator is the first piece; the rest is split on its own. */
  lemma {:induction false} SplitAtFirst(a: string, b: string, sep: char)
    requires sep !in a
    ensures SplitOn(a + [sep] + b, sep) == [a] + SplitOn(b, sep)
  {
    if a != [] {
      assert (a + [sep] + b)[1..] == a[1..] + [sep] + b;
      SplitAtFirst(a[1..], b, sep);
      assert [a[0]] + a[1..] == a;
    } else {
      assert a + [sep] + b == [sep] + b;
    }
  }

  /** `frame_base64.split(',')[1]`, or None where Python raises IndexError. */
  function DataUrlPayload(url: string): (r: Option<string>)
    ensures r.Some? <==> ',' in url
    ensures r.Some? ==> ',' !in r.value
  {
    var parts := SplitOn(url, ',');
    if |parts| >= 2 then Some(parts[1]) else None
  }

  /** The payload of a data URL `header,payload` with one comma is the text after it. */
  lemma DataUrlRoundTrip(header: string, payload: string)
    requires ',' !in header && ',' !in payload
    ensures DataUrlPayload(header + "," + payload) == Some(payload)
  {
    SplitAtFirst(header, payload, ',');
    SplitJoin(payload, ',');
  }

  // ---------------------------------------------------------------
  // predict
  // ---------------------------------------------------------------

  predicate AllDataUrls(frames: seq<string>)
  {
    forall i :: 0 <= i < |frames| ==> ',' in frames[i]
  }

  /**
   * The pixels of one frame: `split(',')[1]`, then `b64decode`, `Image.open`
   * and `convert("RGB")`, the last three being `decode`. None where any of
   * them raises: no comma (IndexError), bad base64 or bytes that are not
   * an image.
   */
  function FramePixels(frame: string, decode: string -> Option<seq<int>>): (px: Option<seq<int>>)
    ensures px.Some? <==> DataUrlPayload(frame).Some? && decode(DataUrlPayload(frame).value).Some?
    ensures ',' !in frame ==> px.None?
  {
    match DataUrlPayload(frame)
    case None => None
    case Some(payload) => decode(payload)
  }

  /** Every frame of the request decodes to an image. */
  predicate Decodable(frames: seq<string>, decode: string -> Option<seq<int>>)
    ensures Decodable(frames, decode) ==> AllDataUrls(frames)
  {
    forall i :: 0 <= i < |frames| ==> FramePixels(frames[i], decode).Some?
  }

  /** The feature sequence of a request: one vector per frame, in frame order. */
  function Features(frames: seq<string>, decode: string -> Option<seq<int>>, extract: seq<int> -> seq<real>): (fs: seq<seq<real>>)
    requires Decodable(frames, decode)
    ensures |fs| == |frames|
  {
    seq(|frames|, i requires 0 <= i < |frames| && Decodable(frames, decode) =>
                    extract(FramePixels(frames[i], decode).value))
  }

  /**
   * The loop that builds `sequence`: decodes each frame and appends its
   * feature vector. The first frame that does not decode raises, which
   * ends the request (None).
   */
  method BuildSequence(frames: seq<string>, decode: string -> Option<seq<int>>, extract: seq<int> -> seq<real>)
    returns (sequence: Option<seq<seq<real>>>)
    ensures sequence.Some? <==> Decodable(frames, decode)
    ensures !AllDataUrls(frames) ==> sequence.None?
    ensures sequence.Some? ==> |sequence.value| == |frames|
    ensures sequence.Some? ==> forall i :: 0 <= i < |frames| ==>
              sequence.value[i] == extract(FramePixels(frames[i], decode).value)
  {
    var acc: seq<seq<real>> := [];
    for i := 0 to |frames|
      invariant |acc| == i
      invariant forall j :: 0 <= j < i ==> FramePixels(frames[j], decode).Some?
      invariant forall j :: 0 <= j < i ==> acc[j] == extract(FramePixels(frames[j], decode).value)
    {
      var payload := DataUrlPayload(frames[i]);
      if payload.None? {
        return None;
      }
      var image := decode(payload.value);
      if image.None? {
        return None;
      }
      acc := acc + [extract(image.value)];
    }
    return Some(acc);
  }

  /** The body `{"label": label, "prob": prob}` of a successful prediction. */
  function PredictionBody(name: string, prob: real): (body: Json)
    ensures body.JObj? && body.fields.Keys == {"label", "prob"}
    ensures Member(body, "label") == Some(JStr(name)) && Member(body, "prob") == Some(JNum(prob))
  {
    JObj(map["label" := JStr(name), "prob" := JNum(prob)])
  }

  /**
   * The `/predict` endpoint. The frame count is checked first, then the
   * two model files; only then are the frames decoded and classified.
   */
  method Predict(category: string, frames: seq<string>,
                 models: set<string>, labelMaps: map<string, LabelMap>,
                 decode: string -> Option<seq<int>>, extract: seq<int> -> seq<real>,
                 classify: seq<seq<real>> -> seq<real>)
    returns (reply: HttpReply)
    ensures |frames| != Capture.FrameTarget ==> reply == Body(Single("error", JStr(FrameCountError)))
    ensures (|frames| == Capture.FrameTarget && (category !in models || category !in labelMaps))
              ==> reply == Body(Single("error", JStr(ArtifactError)))
    ensures (|frames| == Capture.FrameTarget && category in models && category in labelMaps
              && !Decodable(frames, decode)) ==> reply == Failed
    ensures (|frames| == Capture.FrameTarget && category in models && category in labelMaps
              && Decodable(frames, decode)) ==>
              var probs := classify(Features(frames, decode, extract));
              var inv := Invert(labelMaps[category]);
              if |probs| == 0 || FirstArgMax(probs) !in inv then reply == Failed
              else reply == Body(PredictionBody(inv[FirstArgMax(probs)], probs[FirstArgMax(probs)]))
    ensures forall name, prob :: reply == Body(PredictionBody(name, prob)) ==>
              category in labelMaps && name in Labels(labelMaps[category])
  {
    if |frames| != Capture.FrameTarget {
      return Body(Single("error", JStr(FrameCountError)));
    }
    if category !in models || category !in labelMaps {
      return Body(Single("error", JStr(ArtifactError)));
    }
    var labelMap := labelMaps[category];
    var idxToLabel := Invert(labelMap);

    var sequence := BuildSequence(frames, decode, extract);
    if sequence.None? {
      return Failed;
    }
    assert sequence.value == Features(frames, decode, extract);
    var prob := classify(sequence.value);
    if |prob| == 0 {
      return Failed;
    }
    var pred := FirstArgMax(prob);
    if pred !in idxToLabel {
      return Failed;
    }
    reply := Body(PredictionBody(idxToLabel[pred], prob[pred]));
    assert PredictionBody(idxToLabel[pred], prob[pred]).fields["label"] == JStr(idxToLabel[pred]);
  }

  /** A successful prediction answers the most probable class: no class scores higher. */
  lemma PredictionIsMostProbable(probs: seq<real>, m: LabelMap)
    requires |probs| > 0 && FirstArgMax(probs) in Invert(m)
    ensures forall j :: 0 <= j < |probs| ==> probs[j] <= probs[FirstArgMax(probs)]
    ensures Invert(m)[FirstArgMax(probs)] in Labels(m)
  {
  }
}
