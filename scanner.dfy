/** The scanning pipeline: recognizer, then line validator, then parser, and in
    live mode the rectangle classification and the frequency tracker. */
module Scanner {
  import opened Wrappers
  import opened Geometry
  import opened Validator
  import opened ScanningResults

  /** `TextRecognizer.Result`: the ranked candidate strings (at most ten) of one
      detected text line, and its bounding box in normalized coordinates. */
  datatype Observation = Observation(results: seq<string>, boundingRect: Rect)

  datatype RecognitionLevel = Accurate | Fast

  /** `TextRecognizer.Configuration`. */
  datatype Configuration = Configuration(
    orientation: ImageOrientation,
    regionOfInterest: Option<Rect>,
    minimumTextHeight: Option<real>,
    recognitionLevel: RecognitionLevel)

  /** An error thrown by the text recognizer; the pipeline passes it on as it is. */
  datatype EngineError = EngineError(description: string)

  /** What a scan throws: the recognizer's error, or a `ScanningResultError`. */
  datatype ScanError = RecognitionFailed(engineError: EngineError) | NotScanned(error: ScanningResultError)

  /** `recognizerResults.map(\.results)` */
  function Candidates(observations: seq<Observation>): seq<seq<string>> {
    seq(|observations|, i requires 0 <= i < |observations| => observations[i].results)
  }

  /** `results.map(\.boundingRect)` */
  function BoundingRects(observations: seq<Observation>): seq<Rect> {
    seq(|observations|, i requires 0 <= i < |observations| => observations[i].boundingRect)
  }

  /** `validatedResults.map(\.result)`: what the parser is given. */
  function Lines(validated: seq<ValidatedLine>): seq<string> {
    seq(|validated|, i requires 0 <= i < |validated| => validated[i].result)
  }

  /** `Set(validLines.map(\.index))` */
  function IndexSet(validated: seq<ValidatedLine>): set<int> {
    set v | v in validated :: v.index
  }

  // ----- Bounding-rectangle classification -----

  /** The positions below `n` that are in `indexes` (when `member`) or not in
      it (when `!member`), in increasing order. */
  function Positions(n: nat, indexes: set<int>, member: bool): (p: seq<nat>)
    ensures forall k :: 0 <= k < |p| ==> p[k] < n
  {
    if n == 0 then []
    else Positions(n - 1, indexes, member) + (if (n - 1 in indexes) == member then [n - 1] else [])
  }

  /** `Positions` selects only positions whose membership in `indexes` is
      `member`, each once, in increasing order. */
  lemma {:induction false} PositionsSelect(n: nat, indexes: set<int>, member: bool, p: seq<nat>)
    requires p == Positions(n, indexes, member)
    ensures forall k :: 0 <= k < |p| ==> (p[k] in indexes <==> member)
    ensures forall j, k :: 0 <= j < k < |p| ==> p[j] < p[k]
  {
    if n > 0 {
      var before := Positions(n - 1, indexes, member);
      PositionsSelect(n - 1, indexes, member, before);
      assert p == before + (if (n - 1 in indexes) == member then [n - 1] else []);
    }
  }

  /** `Positions` misses no position below `n` whose membership in `indexes`
      is `member`. */
  lemma {:induction false} PositionsComplete(n: nat, indexes: set<int>, member: bool)
    ensures forall i :: 0 <= i < n && (i in indexes <==> member) ==> i in Positions(n, indexes, member)
  {
    if n > 0 {
      PositionsComplete(n - 1, indexes, member);
      var before := Positions(n - 1, indexes, member);
      assert Positions(n, indexes, member)
        == before + (if (n - 1 in indexes) == member then [n - 1] else []);
    }
  }

  /** The rectangles at `positions`, in that order. */
  function Gather(rects: seq<Rect>, positions: seq<nat>): seq<Rect>
    requires forall k :: 0 <= k < |positions| ==> positions[k] < |rects|
  {
    seq(|positions|, k requires 0 <= k < |positions| => rects[positions[k]])
  }

  /** The classification of a frame: the rectangle at position `i` is valid
      exactly when some validated line has index `i`; each group keeps
      detection order. */
  function Classified(observations: seq<Observation>, validated: seq<ValidatedLine>): (r: ScannedBoundingRects)
    ensures |r.valid| + |r.invalid| == |observations|
  {
    var rects := BoundingRects(observations);
    var indexes := IndexSet(validated);
    PositionsSplit(|rects|, indexes);
    ScannedBoundingRects(
      Gather(rects, Positions(|rects|, indexes, true)),
      Gather(rects, Positions(|rects|, indexes, false)))
  }

  lemma {:induction false} PositionsSplit(n: nat, indexes: set<int>)
    ensures |Positions(n, indexes, true)| + |Positions(n, indexes, false)| == n
  {
    if n > 0 {
      PositionsSplit(n - 1, indexes);
    }
  }

  lemma {:induction false} PositionsAll(n: nat)
    ensures Positions(n, {}, false) == seq(n, i => i)
  {
    if n > 0 {
      PositionsAll(n - 1);
      assert seq(n, i => i) == seq(n - 1, i => i) + [n - 1];
    }
  }

  /** The classification is a total partition of the frame's rectangles; with
      no validated lines every rectangle is invalid, in detection order. */
  lemma ClassificationPartition(observations: seq<Observation>, validated: seq<ValidatedLine>)
    ensures var c := Classified(observations, validated);
      && |c.valid| + |c.invalid| == |observations|
      && |c.valid| == |set i | 0 <= i < |observations| && i in IndexSet(validated)|
      && (validated == [] ==> c.valid == [] && c.invalid == BoundingRects(observations))
  {
    var n := |observations|;
    var indexes := IndexSet(validated);
    PositionsSplit(n, indexes);
    var p := Positions(n, indexes, true);
    SortedPositionsCount(p, n, indexes);
    if validated == [] {
      assert indexes == {};
      PositionsAll(n);
    }
  }

  /** A strictly increasing list of all positions below `n` in `indexes` has as
      many elements as that set. */
  lemma SortedPositionsCount(p: seq<nat>, n: nat, indexes: set<int>)
    requires p == Positions(n, indexes, true)
    ensures |p| == |set i | 0 <= i < n && i in indexes|
  {
    PositionsSelect(n, indexes, true, p);
    PositionsComplete(n, indexes, true);
    var s := set i | 0 <= i < n && i in indexes;
    var q := set k | 0 <= k < |p| :: p[k];
    assert q == s;
    DistinctCard(p);
  }

  /** A strictly increasing sequence has as many distinct elements as entries. */
  lemma {:induction false} DistinctCard(p: seq<nat>)
    requires forall j, k :: 0 <= j < k < |p| ==> p[j] < p[k]
    ensures |set k | 0 <= k < |p| :: p[k]| == |p|
  {
    if p != [] {
      var last := |p| - 1;
      DistinctCard(p[..last]);
      var front := set k | 0 <= k < last :: p[..last][k];
      assert (set k | 0 <= k < |p| :: p[k]) == front + {p[last]};
      assert p[last] !in front;
    }
  }

  /** One more position: the group of `member` gains the rectangle at
      `offset` exactly when `offset`'s membership in `indexes` is `member`. */
  lemma GatherStep(rects: seq<Rect>, indexes: set<int>, member: bool, offset: nat)
    requires offset < |rects|
    ensures (offset in indexes) == member ==>
      Gather(rects, Positions(offset + 1, indexes, member))
        == Gather(rects, Positions(offset, indexes, member)) + [rects[offset]]
    ensures (offset in indexes) != member ==>
      Gather(rects, Positions(offset + 1, indexes, member)) == Gather(rects, Positions(offset, indexes, member))
  {
    var before := Positions(offset, indexes, member);
    if (offset in indexes) == member {
      assert Positions(offset + 1, indexes, member) == before + [offset];
    } else {
      assert Positions(offset + 1, indexes, member) == before;
    }
  }

  /** `getScannedBoundingRects`: walk the rectangles in detection order and
      append each to `valid` or `invalid` by whether its position is a
      validated line's index. */
  method GetScannedBoundingRects(results: seq<Observation>, validLines: seq<ValidatedLine>)
    returns (r: ScannedBoundingRects)
    ensures r == Classified(results, validLines)
    ensures |r.valid| + |r.invalid| == |results|
  {
    var allBoundingRects := BoundingRects(results);
    var validRectIndexes := IndexSet(validLines);
    var validScannedBoundingRects: seq<Rect> := [];
    var invalidScannedBoundingRects: seq<Rect> := [];
    for offset := 0 to |allBoundingRects|
      invariant validScannedBoundingRects
        == Gather(allBoundingRects, Positions(offset, validRectIndexes, true))
      invariant invalidScannedBoundingRects
        == Gather(allBoundingRects, Positions(offset, validRectIndexes, false))
    {
      GatherStep(allBoundingRects, validRectIndexes, true, offset);
      GatherStep(allBoundingRects, validRectIndexes, false, offset);
      if offset in validRectIndexes {
        validScannedBoundingRects := validScannedBoundingRects + [allBoundingRects[offset]];
      } else {
        invalidScannedBoundingRects := invalidScannedBoundingRects + [allBoundingRects[offset]];
      }
    }
    r := ScannedBoundingRects(validScannedBoundingRects, invalidScannedBoundingRects);
    ClassificationPartition(results, validLines);
  }

  // ----- The frequency tracker -----

  /** `MRZFrequencyTracker`, kept abstract: its counting rule is not part of
      this model. Whatever the rule, the verdict can only depend on the
      configured frequency and on the records the tracker has been shown, so the
      tracker is modelled by that history and by `rule`, the verdict on it. */
  class FrequencyTracker<Record> {
    const frequency: int
    const rule: (int, seq<Record>) -> bool
    var history: seq<Record>

    constructor (frequency: int, rule: (int, seq<Record>) -> bool)
      ensures this.frequency == frequency && this.rule == rule && history == []
    {
      this.frequency := frequency;
      this.rule := rule;
      history := [];
    }

    /** `isResultStable(_:)`: record `result` and give the verdict. */
    method IsResultStable(result: Record) returns (stable: bool)
      modifies this
      ensures history == old(history) + [result]
      ensures stable == rule(frequency, history)
    {
      history := history + [result];
      stable := rule(frequency, history);
    }
  }

  // ----- The scanner -----

  /** `MRZScanner` as `makeDefault` builds it: the recognizer, the validator's
      format catalog, the parser, and the frequency tracker that the live
      closure captures and that lives as long as the scanner. */
  class MRZScanner<Image, Record> {
    const recognize: (Image, Configuration) -> Result<seq<Observation>, EngineError>
    const parse: seq<string> -> Option<Record>
    const catalog: seq<Format>
    const frequencyTracker: FrequencyTracker<Record>

    /** `makeDefault`: a tracker of frequency 2 that has seen nothing yet. */
    constructor MakeDefault(
      recognize: (Image, Configuration) -> Result<seq<Observation>, EngineError>,
      parse: seq<string> -> Option<Record>,
      catalog: seq<Format>,
      stabilityRule: (int, seq<Record>) -> bool)
      ensures this.recognize == recognize && this.parse == parse && this.catalog == catalog
      ensures fresh(frequencyTracker)
      ensures frequencyTracker.frequency == 2 && frequencyTracker.rule == stabilityRule
      ensures frequencyTracker.history == []
    {
      this.recognize := recognize;
      this.parse := parse;
      this.catalog := catalog;
      frequencyTracker := new FrequencyTracker(2, stabilityRule);
    }

    /** The `scanSingle` closure: accurate recognition, validation, parsing.
        The parser gets exactly the validated lines, in the validator's order;
        a parse failure throws an error without rectangles. The tracker is not
        touched (this method modifies nothing). */
    method ScanSingle(
      image: Image, orientation: ImageOrientation,
      regionOfInterest: Option<Rect>, minimumTextHeight: Option<real>)
      returns (r: Result<Record, ScanError>)
      ensures match recognize(image, Configuration(orientation, regionOfInterest, minimumTextHeight, Accurate))
        case Failure(e) => r == Failure(RecognitionFailed(e))
        case Success(observations) =>
          var parsed := parse(Lines(Validated(catalog, Candidates(observations))));
          && (r.Success? <==> parsed.Some?)
          && (r.Success? ==> r.value == parsed.value)
          && (r.Failure? ==> r.error == NotScanned(ScanningResultError()))
    {
      var configuration := Configuration(orientation, regionOfInterest, minimumTextHeight, Accurate);
      var recognizerResults := recognize(image, configuration);
      if recognizerResults.Failure? {
        return Failure(RecognitionFailed(recognizerResults.error));
      }
      var validatedResults := GetValidatedResults(catalog, Candidates(recognizerResults.value));
      var parsedResult := parse(Lines(validatedResults));
      if parsedResult.Some? {
        r := Success(parsedResult.value);
      } else {
        r := Failure(NotScanned(ScanningResultError()));
      }
    }

    /** One live frame as a function of the tracker's history before it: the
        outcome, and the history after it. */
    function LiveStep(
      image: Image, orientation: ImageOrientation,
      regionOfInterest: Option<Rect>, minimumTextHeight: Option<real>,
      history: seq<Record>): (Result<ScanningResult<Record>, ScanError>, seq<Record>)
    {
      match recognize(image, Configuration(orientation, regionOfInterest, minimumTextHeight, Fast))
      case Failure(e) => (Failure(RecognitionFailed(e)), history)
      case Success(observations) =>
        var validated := Validated(catalog, Candidates(observations));
        var boundingRects := Classified(observations, validated);
        match parse(Lines(validated))
        case None => (Failure(NotScanned(ScanningResultError(Some(boundingRects)))), history)
        case Some(parsed) =>
          var after := history + [parsed];
          if frequencyTracker.rule(frequencyTracker.frequency, after)
          then (Success(ScanningResult(parsed, boundingRects)), after)
          else (Failure(NotScanned(ScanningResultError(Some(boundingRects)))), after)
    }

    /** What a live frame promises: the tracker is consulted, once, only when
        parsing succeeds; success needs a parsed record and a stable verdict and
        carries the frame's classification, as does every error other than the
        recognizer's. */
    lemma LiveStepContract(
      image: Image, orientation: ImageOrientation,
      regionOfInterest: Option<Rect>, minimumTextHeight: Option<real>,
      history: seq<Record>)
      ensures var (r, after) := LiveStep(image, orientation, regionOfInterest, minimumTextHeight, history);
        match recognize(image, Configuration(orientation, regionOfInterest, minimumTextHeight, Fast))
        case Failure(e) => r == Failure(RecognitionFailed(e)) && after == history
        case Success(observations) =>
          var validated := Validated(catalog, Candidates(observations));
          var boundingRects := Classified(observations, validated);
          var parsed := parse(Lines(validated));
          && (parsed.None? ==> after == history)
          && (parsed.Some? ==> after == history + [parsed.value])
          && (r.Success? <==> parsed.Some? && frequencyTracker.rule(frequencyTracker.frequency, after))
          && (r.Success? ==> r.value == ScanningResult(parsed.value, boundingRects))
          && (r.Failure? ==> r.error == NotScanned(ScanningResultError(Some(boundingRects))))
          && |boundingRects.valid| + |boundingRects.invalid| == |observations|
    {
      match recognize(image, Configuration(orientation, regionOfInterest, minimumTextHeight, Fast))
      case Failure(e) =>
      case Success(observations) =>
        ClassificationPartition(observations, Validated(catalog, Candidates(observations)));
    }

    /** The `scanLive` closure: fast recognition, validation, classification,
        parsing, and, only for a parsed record, the frequency tracker. */
    method ScanLive(
      image: Image, orientation: ImageOrientation,
      regionOfInterest: Option<Rect>, minimumTextHeight: Option<real>)
      returns (r: Result<ScanningResult<Record>, ScanError>)
      modifies frequencyTracker
      ensures (r, frequencyTracker.history)
        == LiveStep(image, orientation, regionOfInterest, minimumTextHeight, old(frequencyTracker.history))
    {
      var configuration := Configuration(orientation, regionOfInterest, minimumTextHeight, Fast);
      var recognizerResults := recognize(image, configuration);
      if recognizerResults.Failure? {
        return Failure(RecognitionFailed(recognizerResults.error));
      }
      var validatedResults := GetValidatedResults(catalog, Candidates(recognizerResults.value));
      var lines := Lines(validatedResults);
      var boundingRects := GetScannedBoundingRects(recognizerResults.value, validatedResults);
      var parsedResult := parse(lines);
      var stable := false;
      if parsedResult.Some? {
        stable := frequencyTracker.IsResultStable(parsedResult.value);
      }
      if parsedResult.Some? && stable {
        r := Success(ScanningResult(parsedResult.value, boundingRects));
      } else {
        r := Failure(NotScanned(ScanningResultError(Some(boundingRects))));
      }
    }
  }
}
