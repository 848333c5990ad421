/**
 * The expert reference video of the learning page
 * (OpenSign_learn/frontend/sign_learn.js, `selectWord` and
 * `tryLoadSequential`): an ordered list of candidate sources is tried one
 * after the other; a load error moves to the next candidate, loaded data
 * stops the search, and when the list runs out the last candidate is
 * offered as an "open in a new tab" link.
 *
 * The media element's `error` and `loadeddata` signals are the events of a
 * small state machine: Idle, Trying(idx), Loaded(idx) and Exhausted. The
 * pure functions Next and Run define it; the class ExpertVideo holds the
 * element's state (current candidate, `src`, and the fallback link's
 * visibility and `href`) and steps it event by event.
 */
module ExpertMedia {
  import opened Common

  const BackendOrigin: string := "http://localhost:8000"
  const Mp4Type: string := "video/mp4"
  const AviType: string := "video/x-msvideo"

  /** One `{ src, type }` entry of the candidate list. */
  datatype Candidate = Candidate(src: string, mime: string)

  /**
   * `${BACKEND_ORIGIN}/static/experts/${enc(category)}/${enc(word)}`, where
   * `encode` stands for `encodeURIComponent`.
   */
  function ExpertBasePath(category: string, word: string, encode: string -> string): (p: string)
    ensures BackendOrigin + "/static/experts/" <= p
    ensures EndsWith(p, "/" + encode(word))
  {
    BackendOrigin + "/static/experts/" + encode(category) + "/" + encode(word)
  }

  predicate EndsWith(s: string, suffix: string)
  {
    |suffix| <= |s| && s[|s| - |suffix|..] == suffix
  }

  /**
   * The shape `selectWord` gives the list: every entry but the last is the
   * mp4 file, the last is the avi file.
   */
  predicate CandidateShape(list: seq<Candidate>, basePath: string)
  {
    && |list| >= 1
    && (forall i :: 0 <= i < |list| - 1 ==> list[i] == Candidate(basePath + ".mp4", Mp4Type))
    && list[|list| - 1] == Candidate(basePath + ".avi", AviType)
  }

  /**
   * The candidate list of `selectWord`: the mp4 file once more when the
   * browser reports it can play mp4 (a retry after a 404), then the mp4
   * file, then the avi file as the final fallback.
   */
  method BuildCandidates(basePath: string, canMp4: bool) returns (list: seq<Candidate>)
    ensures |list| == if canMp4 then 3 else 2
    ensures CandidateShape(list, basePath)
  {
    list := [];
    if canMp4 {
      list := list + [Candidate(basePath + ".mp4", Mp4Type)];
    }
    list := list + [Candidate(basePath + ".mp4", Mp4Type)];
    list := list + [Candidate(basePath + ".avi", AviType)];
  }

  /** In a list of that shape exactly the last source ends in `.avi`. */
  lemma OnlyLastIsAvi(list: seq<Candidate>, basePath: string, i: nat)
    requires CandidateShape(list, basePath) && i < |list|
    ensures EndsWith(list[i].src, ".avi") <==> i == |list| - 1
  {
    var mp4 := basePath + ".mp4";
    var avi := basePath + ".avi";
    assert mp4[|mp4| - 4..] == ".mp4";
    assert avi[|avi| - 4..] == ".avi";
  }

  // ---------------------------------------------------------------
  // The loading state machine, as pure functions
  // ---------------------------------------------------------------

  datatype Phase = Idle | Trying | Loaded | Exhausted

  /** The signals the media element raises for the source being loaded. */
  datatype Event = LoadError | LoadedData

  /** The phase and the candidate index bound in the installed handlers. */
  datatype LoaderState = LoaderState(phase: Phase, idx: nat)

  /** `tryLoadSequential(video, list, i)` for a list of `n` candidates. */
  function Attempt(n: nat, i: nat): (s: LoaderState)
    ensures s.idx == i
    ensures s.phase == Exhausted <==> i >= n
    ensures s.phase == Trying <==> i < n
  {
    if i >= n then LoaderState(Exhausted, i) else LoaderState(Trying, i)
  }

  /**
   * One signal. While a candidate is installed (Trying or Loaded) an error
   * tries the next one and loaded data marks it Loaded. When Idle, no source
   * is set. When Exhausted, the last handlers are still attached, but the
   * element's final source has already failed and no new source is loaded,
   * so it raises neither signal again. In both cases the state stays.
   */
  function Next(n: nat, s: LoaderState, ev: Event): (t: LoaderState)
    ensures s.phase == Idle || s.phase == Exhausted ==> t == s
    ensures (s.phase == Trying || s.phase == Loaded) && ev == LoadError ==> t == Attempt(n, s.idx + 1)
    ensures (s.phase == Trying || s.phase == Loaded) && ev == LoadedData ==> t == LoaderState(Loaded, s.idx)
  {
    if s.phase == Trying || s.phase == Loaded then
      match ev
      case LoadError => Attempt(n, s.idx + 1)
      case LoadedData => LoaderState(Loaded, s.idx)
    else s
  }

  /** A sequence of signals, in order. */
  function Run(n: nat, s: LoaderState, evs: seq<Event>): LoaderState
    decreases |evs|
  {
    if evs == [] then s else Run(n, Next(n, s, evs[0]), evs[1..])
  }

  /** `k` load errors in a row. */
  function Errors(k: nat): (evs: seq<Event>)
    ensures |evs| == k && forall i :: 0 <= i < k ==> evs[i] == LoadError
  {
    if k == 0 then [] else [LoadError] + Errors(k - 1)
  }

  function Min(a: nat, b: nat): nat
  {
    if a <= b then a else b
  }

  /** Running two signal sequences one after the other is running their concatenation. */
  lemma {:induction false} RunAppend(n: nat, s: LoaderState, a: seq<Event>, b: seq<Event>)
    ensures Run(n, s, a + b) == Run(n, Run(n, s, a), b)
    decreases |a|
  {
    if a != [] {
      assert (a + b)[0] == a[0];
      assert (a + b)[1..] == a[1..] + b;
      RunAppend(n, Next(n, s, a[0]), a[1..], b);
    } else {
      assert a + b == b;
    }
  }

  /**
   * Errors walk the list strictly in order: from attempt `i`, `k` errors
   * lead to attempt `i + k`, and once the list is exhausted to Exhausted
   * at index `n`.
   */
  lemma {:induction false} ErrorsAdvanceInOrder(n: nat, i: nat, k: nat)
    requires i <= n
    ensures Run(n, Attempt(n, i), Errors(k)) == Attempt(n, Min(i + k, n))
    decreases k
  {
    if k > 0 {
      assert Errors(k)[1..] == Errors(k - 1);
      if i < n {
        ErrorsAdvanceInOrder(n, i + 1, k - 1);
      } else {
        ExhaustedIsFinal(n, i, Errors(k - 1));
      }
    }
  }

  /**
   * Exhausted is terminal: no signal changes it. Exhaustion loads no new
   * source, and the source that failed last raises nothing more.
   */
  lemma {:induction false} ExhaustedIsFinal(n: nat, i: nat, evs: seq<Event>)
    ensures Run(n, LoaderState(Exhausted, i), evs) == LoaderState(Exhausted, i)
    decreases |evs|
  {
    if evs != [] {
      ExhaustedIsFinal(n, i, evs[1..]);
    }
  }

  /**
   * The first success stops the search: after `k < n` errors, loaded data
   * leaves candidate `k` Loaded.
   */
  lemma FirstSuccessStops(n: nat, k: nat)
    requires k < n
    ensures Run(n, Attempt(n, 0), Errors(k) + [LoadedData]) == LoaderState(Loaded, k)
  {
    RunAppend(n, Attempt(n, 0), Errors(k), [LoadedData]);
    ErrorsAdvanceInOrder(n, 0, k);
  }

  /** A state some run of `tryLoadSequential` over `n` candidates can be in. */
  predicate Reachable(n: nat, s: LoaderState)
  {
    s.idx <= n && (s.phase == Trying || s.phase == Loaded ==> s.idx < n)
  }

  /** The index never moves backwards, and never past the end of the list. */
  lemma {:induction false} IndexMonotone(n: nat, s: LoaderState, evs: seq<Event>)
    requires Reachable(n, s)
    ensures Reachable(n, Run(n, s, evs))
    ensures s.idx <= Run(n, s, evs).idx
    decreases |evs|
  {
    if evs != [] {
      IndexMonotone(n, Next(n, s, evs[0]), evs[1..]);
    }
  }

  /** Whether the "open in a new tab" link is visible in a state. */
  function FallbackShown(list: seq<Candidate>, s: LoaderState): (shown: bool)
    ensures s.phase == Idle || s.phase == Loaded ==> !shown
    ensures s.phase == Exhausted ==> (shown <==> |list| > 0)
    ensures shown && s.phase == Trying ==> s.idx < |list| && EndsWith(list[s.idx].src, ".avi")
  {
    match s.phase
    case Idle => false
    case Trying => s.idx < |list| && EndsWith(list[s.idx].src, ".avi")
    case Loaded => false
    case Exhausted => |list| > 0
  }

  /** For the lists selectWord builds, the link shows on the final attempt and after exhaustion only. */
  lemma FallbackOnlyAtTheEnd(list: seq<Candidate>, basePath: string, s: LoaderState)
    requires CandidateShape(list, basePath)
    requires s.phase != Idle ==> s.idx <= |list|
    requires s.phase == Trying ==> s.idx < |list|
    ensures FallbackShown(list, s) <==>
              (s.phase == Trying && s.idx == |list| - 1) || s.phase == Exhausted
  {
    if s.phase == Trying {
      OnlyLastIsAvi(list, basePath, s.idx);
    }
  }

  /** The sources of a list of candidates, in order. */
  function Srcs(list: seq<Candidate>): (r: seq<string>)
    ensures |r| == |list|
    ensures forall i :: 0 <= i < |list| ==> r[i] == list[i].src
  {
    if list == [] then [] else [list[0].src] + Srcs(list[1..])
  }

  // ---------------------------------------------------------------
  // The video element and its fallback link
  // ---------------------------------------------------------------

  class ExpertVideo {
    var candidates: seq<Candidate>
    var phase: Phase
    var idx: nat
    /** `video.src`; None once the attribute is removed. */
    var src: Option<string>
    /** The fallback wrapper is shown (its `hidden` class removed). */
    var fallbackVisible: bool
    /** `expertOpenLink.href`. */
    var fallbackHref: string
    /** Every source assigned to `video.src` since the list was installed, in order. */
    ghost var attempted: seq<string>

    function State(): LoaderState
      reads this
    {
      LoaderState(phase, idx)
    }

    ghost predicate Valid()
      reads this
    {
      && (phase == Idle ==> src.None? && attempted == [])
      && (phase == Trying || phase == Loaded ==>
            idx < |candidates| && src == Some(candidates[idx].src)
            && attempted == Srcs(candidates[..idx + 1]))
      && (phase == Exhausted ==> idx == |candidates| && attempted == Srcs(candidates))
      && (phase == Exhausted && |candidates| > 0 ==> src == Some(candidates[|candidates| - 1].src))
      && fallbackVisible == FallbackShown(candidates, State())
      && (fallbackVisible && phase == Trying ==> fallbackHref == candidates[idx].src)
      && (fallbackVisible && phase == Exhausted ==> fallbackHref == candidates[|candidates| - 1].src)
    }

    constructor ()
      ensures Valid() && phase == Idle && candidates == [] && !fallbackVisible
    {
      candidates, phase, idx := [], Idle, 0;
      src, fallbackVisible, fallbackHref := None, false, "";
      attempted := [];
    }

    /**
     * `tryLoadSequential(video, candidates, i)`: hide the link; past the end,
     * expose the last candidate; otherwise load candidate `i`, offering the
     * link at once when it is an avi file. It is only ever called with the
     * next index, which is what keeps the attempts in list order.
     */
    method TryLoad(i: nat)
      requires i <= |candidates| && attempted == Srcs(candidates[..i])
      requires 0 < i ==> src == Some(candidates[i - 1].src)
      modifies this
      ensures Valid()
      ensures State() == Attempt(|candidates|, i)
      ensures candidates == old(candidates)
      ensures i < |candidates| ==> src == Some(candidates[i].src)
      ensures i < |candidates| ==> fallbackVisible == EndsWith(candidates[i].src, ".avi")
      ensures i >= |candidates| ==> src == old(src)
      ensures i >= |candidates| ==> fallbackVisible == (|candidates| > 0)
    {
      if i >= |candidates| {
        assert candidates[..i] == candidates;
        phase, idx := Exhausted, i;
        if |candidates| > 0 {
          fallbackHref, fallbackVisible := candidates[|candidates| - 1].src, true;
        } else {
          fallbackVisible := false;
        }
        assert State() == Attempt(|candidates|, i);
        assert fallbackVisible == FallbackShown(candidates, State());
        return;
      }
      var s := candidates[i].src;
      assert candidates[..i + 1] == candidates[..i] + [candidates[i]];
      assert Srcs(candidates[..i + 1]) == attempted + [s];
      phase, idx, src, attempted := Trying, i, Some(s), attempted + [s];
      fallbackVisible := EndsWith(s, ".avi");
      if fallbackVisible {
        fallbackHref := s;
      }
      assert State() == Attempt(|candidates|, i);
      assert fallbackVisible == FallbackShown(candidates, State());
    }

    /** `tryLoadSequential(video, list, 0)`: install a new list and try its first entry. */
    method Start(list: seq<Candidate>)
      modifies this
      ensures Valid()
      ensures candidates == list
      ensures State() == Attempt(|list|, 0)
    {
      candidates := list;
      attempted := [];
      assert list[..0] == [];
      TryLoad(0);
    }

    /** The `error` handler of the installed candidate: try the next one. */
    method OnLoadError()
      requires Valid()
      modifies this
      ensures Valid()
      ensures candidates == old(candidates)
      ensures State() == Next(|candidates|, old(State()), LoadError)
      ensures old(phase) == Idle || old(phase) == Exhausted ==>
                src == old(src) && fallbackVisible == old(fallbackVisible)
      ensures phase == Exhausted ==> src == old(src)
      ensures phase == Exhausted && |candidates| > 0 ==> src == Some(candidates[|candidates| - 1].src)
    {
      if phase == Trying || phase == Loaded {
        assert candidates[..idx + 1] == candidates[..idx] + [candidates[idx]];
        TryLoad(idx + 1);
      }
    }

    /** The `loadeddata` handler: the candidate plays, so hide the link. */
    method OnLoadedData()
      requires Valid()
      modifies this
      ensures Valid()
      ensures candidates == old(candidates) && src == old(src)
      ensures State() == Next(|candidates|, old(State()), LoadedData)
    {
      if phase == Trying || phase == Loaded {
        fallbackVisible := false;
        phase := Loaded;
      }
    }

    /** `removeAttribute('src')`, `load()` and `hideFallback()` when a category has no words. */
    method Clear()
      modifies this
      ensures Valid()
      ensures phase == Idle && src.None? && !fallbackVisible
      ensures candidates == old(candidates)
    {
      src := None;
      phase := Idle;
      fallbackVisible := false;
      attempted := [];
    }

    /** Delivers a sequence of media signals in order. */
    method Drive(events: seq<Event>)
      requires Valid()
      modifies this
      ensures Valid()
      ensures candidates == old(candidates)
      ensures State() == Run(|candidates|, old(State()), events)
      ensures old(phase) == Idle || old(phase) == Exhausted ==> State() == old(State()) && src == old(src)
      ensures phase == Exhausted && |candidates| > 0 ==> src == Some(candidates[|candidates| - 1].src)
    {
      ghost var start := State();
      for k := 0 to |events|
        invariant Valid()
        invariant candidates == old(candidates)
        invariant start.phase == Idle || start.phase == Exhausted ==> State() == start && src == old(src)
        invariant Run(|candidates|, start, events) == Run(|candidates|, State(), events[k..])
      {
        assert events[k..][0] == events[k] && events[k..][1..] == events[k + 1..];
        if events[k] == LoadError {
          OnLoadError();
        } else {
          OnLoadedData();
        }
      }
      assert events[|events|..] == [];
    }
  }
}
