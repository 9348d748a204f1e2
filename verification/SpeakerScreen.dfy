/**
 * Ranked selection of a narration speaker from one blinded scorecard.
 *
 * Per speaker and dimension the applicable scores are averaged; a speaker is eligible when its means
 * and defects meet the thresholds; the selected speaker is the first of the eligible ones under a
 * lexicographic ranking that ends with the speaker order.
 */
module SpeakerScreen {
  import opened Basics
  import opened Wrappers

  datatype Dimension =
    | Intelligibility | SpanishPronunciation | PunctuationDialogue | NumericExpressions
    | Naturalness | AudiobookSuitability | ArtifactFreedom

  const DIMENSIONS: seq<Dimension> := [
    Intelligibility, SpanishPronunciation, PunctuationDialogue, NumericExpressions,
    Naturalness, AudiobookSuitability, ArtifactFreedom]

  datatype Sample = Sample(sampleId: string, speakerId: string, caseId: string)

  /** One accepted entry of the scorecard. */
  datatype Rating = Rating(scores: map<Dimension, int>, defect: bool)

  datatype Eligibility = Eligibility(
    minimumOverallMean: real, minimumIntelligibilityMean: real, minimumSpanishPronunciationMean: real,
    minimumEveryDimensionMean: real, maximumMeaningChangingDefects: int)

  datatype Screen = Screen(
    ratings: map<string, Rating>, samples: seq<Sample>, applicability: map<Dimension, set<string>>,
    speakerOrder: seq<string>, eligibility: Eligibility)

  /** Wrong sample metadata, or a score that the ratings do not hold. */
  datatype ScreenError = Metadata | MissingScore

  datatype SpeakerResult = SpeakerResult(
    speakerId: string, eligible: bool, overallMean: real, dimensions: seq<real>, defects: nat)

  // ---------------------------------------------------------------- means of one speaker

  function SamplesOf(samples: seq<Sample>, speaker: string): (own: seq<Sample>)
    ensures forall s :: s in own ==> s in samples && s.speakerId == speaker
  {
    if samples == [] then []
    else (if samples[0].speakerId == speaker then [samples[0]] else []) + SamplesOf(samples[1..], speaker)
  }

  /** Every sample of the speaker is taken, as often as it is listed, and no other. */
  lemma {:induction false} SamplesOfAreAll(samples: seq<Sample>, speaker: string)
    ensures forall s ::
      multiset(SamplesOf(samples, speaker))[s] == if s.speakerId == speaker then multiset(samples)[s] else 0
  {
    if samples != [] {
      SamplesOfAreAll(samples[1..], speaker);
      assert samples == [samples[0]] + samples[1..];
    }
  }

  predicate Applies(screen: Screen, d: Dimension, sample: Sample) {
    d in screen.applicability && sample.caseId in screen.applicability[d]
  }

  predicate Scored(screen: Screen, sample: Sample, d: Dimension) {
    sample.sampleId in screen.ratings && d in screen.ratings[sample.sampleId].scores
  }

  function ScoreOf(screen: Screen, sample: Sample, d: Dimension): int {
    if Scored(screen, sample, d) then screen.ratings[sample.sampleId].scores[d] else 0
  }

  function ApplicableCount(screen: Screen, own: seq<Sample>, d: Dimension): nat {
    if own == [] then 0 else (if Applies(screen, d, own[0]) then 1 else 0) + ApplicableCount(screen, own[1..], d)
  }

  function ScoreSum(screen: Screen, own: seq<Sample>, d: Dimension): int {
    if own == [] then 0
    else (if Applies(screen, d, own[0]) then ScoreOf(screen, own[0], d) else 0) + ScoreSum(screen, own[1..], d)
  }

  predicate AllScored(screen: Screen, own: seq<Sample>, d: Dimension) {
    own == [] || ((Applies(screen, d, own[0]) ==> Scored(screen, own[0], d)) && AllScored(screen, own[1..], d))
  }

  function MeanError(screen: Screen, own: seq<Sample>, d: Dimension): Option<ScreenError> {
    if ApplicableCount(screen, own, d) == 0 then Some(Metadata)
    else if !AllScored(screen, own, d) then Some(MissingScore)
    else None
  }

  function Mean(screen: Screen, own: seq<Sample>, d: Dimension): real {
    var count := ApplicableCount(screen, own, d);
    if count == 0 then 0.0 else ScoreSum(screen, own, d) as real / count as real
  }

  /** The first dimension, from `i` on, whose mean cannot be taken. */
  function MeansError(screen: Screen, own: seq<Sample>, i: nat): Option<ScreenError>
    requires i <= |DIMENSIONS|
    decreases |DIMENSIONS| - i
  {
    if i == |DIMENSIONS| then None
    else
      var error := MeanError(screen, own, DIMENSIONS[i]);
      if error.Some? then error else MeansError(screen, own, i + 1)
  }

  /** The means in the order of the dimensions. */
  function Means(screen: Screen, own: seq<Sample>): (means: seq<real>)
    ensures |means| == 7
  {
    seq(7, i requires 0 <= i < 7 => Mean(screen, own, DIMENSIONS[i]))
  }

  predicate EveryAtLeast(means: seq<real>, minimum: real) {
    forall i :: 0 <= i < |means| ==> means[i] >= minimum
  }

  function DefectCount(screen: Screen, own: seq<Sample>): nat {
    if own == [] then 0
    else
      var id := own[0].sampleId;
      (if id in screen.ratings && screen.ratings[id].defect then 1 else 0) + DefectCount(screen, own[1..])
  }

  predicate AllRated(screen: Screen, own: seq<Sample>) {
    forall i :: 0 <= i < |own| ==> own[i].sampleId in screen.ratings
  }

  predicate Eligible(e: Eligibility, means: seq<real>, overall: real, defects: nat)
    requires |means| == 7
  {
    && overall >= e.minimumOverallMean
    && means[0] >= e.minimumIntelligibilityMean
    && means[1] >= e.minimumSpanishPronunciationMean
    && EveryAtLeast(means, e.minimumEveryDimensionMean)
    && defects <= e.maximumMeaningChangingDefects
  }

  function SpeakerError(screen: Screen, speaker: string): Option<ScreenError> {
    var own := SamplesOf(screen.samples, speaker);
    if |own| != 3 then Some(Metadata)
    else if MeansError(screen, own, 0).Some? then MeansError(screen, own, 0)
    else if !AllRated(screen, own) then Some(MissingScore)
    else None
  }

  function ResultOf(screen: Screen, speaker: string): SpeakerResult {
    var own := SamplesOf(screen.samples, speaker);
    var means := Means(screen, own);
    var overall := Sum(means) / 7.0;
    var defects := DefectCount(screen, own);
    SpeakerResult(speaker, Eligible(screen.eligibility, means, overall, defects), overall, means, defects)
  }

  /** The first speaker, from `i` on, that cannot be scored. */
  function OrderError(screen: Screen, i: nat): Option<ScreenError>
    requires i <= |screen.speakerOrder|
    decreases |screen.speakerOrder| - i
  {
    if i == |screen.speakerOrder| then None
    else
      var error := SpeakerError(screen, screen.speakerOrder[i]);
      if error.Some? then error else OrderError(screen, i + 1)
  }

  function Results(screen: Screen): seq<SpeakerResult> {
    seq(|screen.speakerOrder|, i requires 0 <= i < |screen.speakerOrder| => ResultOf(screen, screen.speakerOrder[i]))
  }

  // ---------------------------------------------------------------- the ranking

  /** The position of a speaker; a repeated speaker keeps its last position. */
  function OrderIndex(order: seq<string>, speaker: string): (index: nat)
    ensures speaker in order ==> index < |order| && order[index] == speaker
  {
    if order == [] then 0
    else if order[|order| - 1] == speaker then |order| - 1
    else OrderIndex(order[..|order| - 1], speaker)
  }

  /** Smaller keys rank first: means in ranking order, negated, then the position. */
  function KeyOf(order: seq<string>, r: SpeakerResult): (key: seq<real>)
    requires |r.dimensions| == 7
    ensures |key| == 9
  {
    [-r.overallMean, -r.dimensions[1], -r.dimensions[5], -r.dimensions[4], -r.dimensions[6],
     -r.dimensions[0], -r.dimensions[2], -r.dimensions[3], OrderIndex(order, r.speakerId) as real]
  }

  predicate LexLess(a: seq<real>, b: seq<real>)
    requires |a| == |b|
  {
    a != [] && (a[0] < b[0] || (a[0] == b[0] && LexLess(a[1..], b[1..])))
  }

  predicate RanksBefore(order: seq<string>, r: SpeakerResult, q: SpeakerResult)
    requires |r.dimensions| == 7 && |q.dimensions| == 7
  {
    LexLess(KeyOf(order, r), KeyOf(order, q))
  }

  ghost predicate Shaped(results: seq<SpeakerResult>) {
    forall i :: 0 <= i < |results| ==> |results[i].dimensions| == 7
  }

  /** A speaker that is listed twice has the same result twice. */
  ghost predicate Consistent(results: seq<SpeakerResult>) {
    forall i, j :: 0 <= i < |results| && 0 <= j < |results| && results[i].speakerId == results[j].speakerId ==>
      results[i] == results[j]
  }

  /** Result `i` is eligible, and every eligible result of another speaker ranks after it. */
  ghost predicate IsSelected(order: seq<string>, results: seq<SpeakerResult>, i: nat) {
    && Shaped(results) && i < |results| && results[i].eligible
    && forall j :: 0 <= j < |results| && results[j].eligible && results[j].speakerId != results[i].speakerId ==>
         RanksBefore(order, results[i], results[j])
  }

  lemma {:induction false} LexTransitive(a: seq<real>, b: seq<real>, c: seq<real>)
    requires |a| == |b| == |c| && LexLess(a, b) && LexLess(b, c)
    ensures LexLess(a, c)
  {
    if a[0] == b[0] == c[0] {
      LexTransitive(a[1..], b[1..], c[1..]);
    }
  }

  lemma {:induction false} LexSum(a: seq<real>, b: seq<real>)
    requires |a| == |b|
    ensures LexLess(a, b) || LexLess(b, a) || a == b
    ensures !(LexLess(a, b) && LexLess(b, a))
  {
    if a != [] {
      LexSum(a[1..], b[1..]);
      if a[0] == b[0] && a[1..] == b[1..] {
        assert a == [a[0]] + a[1..] && b == [b[0]] + b[1..];
      }
    }
  }

  lemma {:induction false} LexImproves(better: seq<real>, a: seq<real>, b: seq<real>)
    requires |better| == |a| == |b| && LexLess(a, b)
    requires forall i :: 0 <= i < |a| ==> better[i] <= a[i]
    ensures LexLess(better, b)
  {
    if better[0] == a[0] == b[0] {
      LexImproves(better[1..], a[1..], b[1..]);
    }
  }

  /** Results of different speakers never tie: the position decides. */
  lemma {:induction false} DifferentSpeakersRank(order: seq<string>, r: SpeakerResult, q: SpeakerResult)
    requires |r.dimensions| == 7 && |q.dimensions| == 7
    requires r.speakerId in order && q.speakerId in order && r.speakerId != q.speakerId
    ensures RanksBefore(order, r, q) || RanksBefore(order, q, r)
    ensures !(RanksBefore(order, r, q) && RanksBefore(order, q, r))
  {
    LexSum(KeyOf(order, r), KeyOf(order, q));
    assert KeyOf(order, r)[8] != KeyOf(order, q)[8];
  }

  /** There is at most one selected speaker. */
  lemma {:induction false} SelectionIsUnique(order: seq<string>, results: seq<SpeakerResult>, i: nat, j: nat)
    requires IsSelected(order, results, i) && IsSelected(order, results, j)
    requires results[i].speakerId in order && results[j].speakerId in order
    ensures results[i].speakerId == results[j].speakerId
  {
    if results[i].speakerId != results[j].speakerId {
      DifferentSpeakersRank(order, results[i], results[j]);
    }
  }

  // ---------------------------------------------------------------- the selection

  /** The means of one speaker, dimension by dimension. */
  method ScoreSpeaker(screen: Screen, speaker: string) returns (r: Result<SpeakerResult, ScreenError>)
    ensures match SpeakerError(screen, speaker)
      case Some(error) => r == Failure(error)
      case None => r == Success(ResultOf(screen, speaker))
  {
    var own := SamplesOf(screen.samples, speaker);
    if |own| != 3 {
      return Failure(Metadata);
    }
    var dimensions: seq<real> := [];
    for i := 0 to |DIMENSIONS|
      invariant MeansError(screen, own, 0) == MeansError(screen, own, i)
      invariant dimensions == Means(screen, own)[..i]
    {
      var error := MeanError(screen, own, DIMENSIONS[i]);
      if error.Some? {
        return Failure(error.value);
      }
      dimensions := dimensions + [Mean(screen, own, DIMENSIONS[i])];
    }
    if !AllRated(screen, own) {
      return Failure(MissingScore);
    }
    assert dimensions == Means(screen, own);
    var overall := Sum(dimensions) / 7.0;
    var defects := DefectCount(screen, own);
    r := Success(SpeakerResult(
      speaker, Eligible(screen.eligibility, dimensions, overall, defects), overall, dimensions, defects));
  }

  /** Every speaker is scored in order. */
  method ScoreSpeakers(screen: Screen) returns (r: Result<seq<SpeakerResult>, ScreenError>)
    ensures match OrderError(screen, 0)
      case Some(error) => r == Failure(error)
      case None => r == Success(Results(screen))
  {
    var results: seq<SpeakerResult> := [];
    for i := 0 to |screen.speakerOrder|
      invariant OrderError(screen, 0) == OrderError(screen, i)
      invariant results == Results(screen)[..i]
    {
      var scored := ScoreSpeaker(screen, screen.speakerOrder[i]);
      if scored.Failure? {
        return Failure(scored.error);
      }
      assert Results(screen)[..i + 1] == Results(screen)[..i] + [Results(screen)[i]];
      results := results + [scored.value];
    }
    assert results == Results(screen);
    r := Success(results);
  }

  /**
   * The selected speaker is the head of the eligible results sorted by key. No speaker is selected
   * exactly when none is eligible.
   */
  method SubmitAndSelect(screen: Screen)
    returns (r: Result<(seq<SpeakerResult>, Option<string>), ScreenError>)
    ensures OrderError(screen, 0) == if r.Success? then None else Some(r.error)
    ensures r.Success? ==>
      && r.value.0 == Results(screen)
      && (r.value.1.None? <==> forall i :: 0 <= i < |Results(screen)| ==> !Results(screen)[i].eligible)
      && (r.value.1.Some? ==>
            exists i: nat :: IsSelected(screen.speakerOrder, Results(screen), i) &&
              Results(screen)[i].speakerId == r.value.1.value)
  {
    var scored := ScoreSpeakers(screen);
    if scored.Failure? {
      return Failure(scored.error);
    }
    var results := scored.value;
    var selected := HeadOfRanking(screen.speakerOrder, results);
    r := Success((results, if selected.None? then None else Some(results[selected.value].speakerId)));
  }

  /** The index of the first eligible result in ranking order. */
  method HeadOfRanking(order: seq<string>, results: seq<SpeakerResult>) returns (best: Option<nat>)
    requires Shaped(results) && Consistent(results)
    requires forall i :: 0 <= i < |results| ==> results[i].speakerId in order
    ensures best.None? <==> forall i :: 0 <= i < |results| ==> !results[i].eligible
    ensures best.Some? ==> IsSelected(order, results, best.value)
  {
    best := None;
    for i := 0 to |results|
      invariant best.None? <==> forall j :: 0 <= j < i ==> !results[j].eligible
      invariant best.Some? ==> best.value < i && IsSelected(order, results[..i], best.value)
    {
      assert results[..i + 1] == results[..i] + [results[i]];
      if results[i].eligible {
        if best.None? {
          best := Some(i);
        } else if RanksBefore(order, results[i], results[best.value]) {
          ChallengerWins(order, results[..i], best.value, results[i]);
          best := Some(i);
        } else {
          ChampionStays(order, results[..i], best.value, results[i]);
        }
      }
    }
    assert results[..|results|] == results;
  }

  lemma {:induction false} ChampionStays(
    order: seq<string>, results: seq<SpeakerResult>, i: nat, challenger: SpeakerResult)
    requires IsSelected(order, results, i) && |challenger.dimensions| == 7
    requires !RanksBefore(order, challenger, results[i])
    requires challenger.speakerId in order && results[i].speakerId in order
    ensures IsSelected(order, results + [challenger], i)
  {
    if challenger.speakerId != results[i].speakerId {
      DifferentSpeakersRank(order, results[i], challenger);
    }
  }

  lemma {:induction false} ChallengerWins(
    order: seq<string>, results: seq<SpeakerResult>, i: nat, challenger: SpeakerResult)
    requires IsSelected(order, results, i) && |challenger.dimensions| == 7 && challenger.eligible
    requires RanksBefore(order, challenger, results[i]) && Consistent(results)
    ensures IsSelected(order, results + [challenger], |results|)
  {
    var longer := results + [challenger];
    forall j | 0 <= j < |longer| && longer[j].eligible && longer[j].speakerId != challenger.speakerId
      ensures RanksBefore(order, challenger, longer[j])
    {
      if results[j].speakerId != results[i].speakerId {
        LexTransitive(KeyOf(order, challenger), KeyOf(order, results[i]), KeyOf(order, results[j]));
      }
    }
  }

  // ---------------------------------------------------------------- means, thresholds and ranking, written out

  /** The scores that count for a dimension, sample by sample. */
  function Applicable(screen: Screen, own: seq<Sample>, d: Dimension): seq<real> {
    if own == [] then []
    else
      (if d in screen.applicability && own[0].caseId in screen.applicability[d] then
         (if own[0].sampleId in screen.ratings && d in screen.ratings[own[0].sampleId].scores
          then [screen.ratings[own[0].sampleId].scores[d] as real] else [0.0])
       else []) +
      Applicable(screen, own[1..], d)
  }

  lemma {:induction false} SumOfApplicable(screen: Screen, own: seq<Sample>, d: Dimension)
    ensures |Applicable(screen, own, d)| == ApplicableCount(screen, own, d)
    ensures Sum(Applicable(screen, own, d)) == ScoreSum(screen, own, d) as real
  {
    if own != [] {
      SumOfApplicable(screen, own[1..], d);
      var first := if Applies(screen, d, own[0]) then [ScoreOf(screen, own[0], d) as real] else [];
      SumAppend(first, Applicable(screen, own[1..], d));
    }
  }

  /** The mean of a dimension times the number of its applicable scores is their sum. */
  lemma {:induction false} MeanIsAverage(screen: Screen, own: seq<Sample>, d: Dimension)
    requires ApplicableCount(screen, own, d) > 0
    ensures Mean(screen, own, d) * |Applicable(screen, own, d)| as real == Sum(Applicable(screen, own, d))
  {
    SumOfApplicable(screen, own, d);
    Quotient(ScoreSum(screen, own, d) as real, ApplicableCount(screen, own, d) as real);
  }

  /** Where a dimension stands in a result. */
  function PositionOf(d: Dimension): (i: nat)
    ensures i < 7 && DIMENSIONS[i] == d
  {
    match d
    case Intelligibility => 0
    case SpanishPronunciation => 1
    case PunctuationDialogue => 2
    case NumericExpressions => 3
    case Naturalness => 4
    case AudiobookSuitability => 5
    case ArtifactFreedom => 6
  }

  function MeanOf(r: SpeakerResult, d: Dimension): real
    requires |r.dimensions| == 7
  {
    r.dimensions[PositionOf(d)]
  }

  /** The samples of a speaker that were marked as changing the meaning. */
  function Defective(screen: Screen, own: seq<Sample>): seq<Sample> {
    if own == [] then []
    else
      (if own[0].sampleId in screen.ratings && screen.ratings[own[0].sampleId].defect then [own[0]] else []) +
      Defective(screen, own[1..])
  }

  lemma {:induction false} DefectsAreCounted(screen: Screen, own: seq<Sample>)
    ensures |Defective(screen, own)| == DefectCount(screen, own)
    ensures forall s :: s in Defective(screen, own) <==>
      s in own && s.sampleId in screen.ratings && screen.ratings[s.sampleId].defect
  {
    if own != [] {
      DefectsAreCounted(screen, own[1..]);
    }
  }

  /**
   * The result of a speaker: the mean of each dimension under its name, their average, the number of
   * defective samples, and eligibility by every threshold.
   */
  lemma {:induction false} ResultWrittenOut(screen: Screen, speaker: string)
    ensures var own, r, e := SamplesOf(screen.samples, speaker), ResultOf(screen, speaker), screen.eligibility;
      && r.speakerId == speaker
      && (forall d :: MeanOf(r, d) == Mean(screen, own, d))
      && r.overallMean * 7.0 ==
         MeanOf(r, Intelligibility) + MeanOf(r, SpanishPronunciation) + MeanOf(r, PunctuationDialogue) +
         MeanOf(r, NumericExpressions) + MeanOf(r, Naturalness) + MeanOf(r, AudiobookSuitability) +
         MeanOf(r, ArtifactFreedom)
      && r.defects == |Defective(screen, own)|
      && (r.eligible <==>
            && r.overallMean >= e.minimumOverallMean
            && MeanOf(r, Intelligibility) >= e.minimumIntelligibilityMean
            && MeanOf(r, SpanishPronunciation) >= e.minimumSpanishPronunciationMean
            && (forall d :: MeanOf(r, d) >= e.minimumEveryDimensionMean)
            && r.defects <= e.maximumMeaningChangingDefects)
  {
    var own, r := SamplesOf(screen.samples, speaker), ResultOf(screen, speaker);
    DefectsAreCounted(screen, own);
    SumOfSeven(r.dimensions);
    EveryAtLeastByName(r, screen.eligibility.minimumEveryDimensionMean);
  }

  lemma SumOfSeven(v: seq<real>)
    requires |v| == 7
    ensures Sum(v) == v[0] + v[1] + v[2] + v[3] + v[4] + v[5] + v[6]
  {
    assert v[0..] == v && v[7..] == [];
    SumTail(v, 0);
    SumTail(v, 1);
    SumTail(v, 2);
    SumTail(v, 3);
    SumTail(v, 4);
    SumTail(v, 5);
    SumTail(v, 6);
  }

  lemma SumTail(v: seq<real>, i: nat)
    requires i < |v|
    ensures Sum(v[i..]) == v[i] + Sum(v[i + 1..])
  {
    assert v[i..][1..] == v[i + 1..];
  }

  lemma {:induction false} EveryAtLeastByName(r: SpeakerResult, minimum: real)
    requires |r.dimensions| == 7
    ensures EveryAtLeast(r.dimensions, minimum) <==> forall d :: MeanOf(r, d) >= minimum
  {
    if forall d :: MeanOf(r, d) >= minimum {
      forall i | 0 <= i < 7
        ensures r.dimensions[i] >= minimum
      {
        assert MeanOf(r, DIMENSIONS[i]) >= minimum && PositionOf(DIMENSIONS[i]) == i;
      }
    }
  }

  /** The dimensions that decide between speakers of the same overall mean, in order. */
  ghost predicate Precedes(order: seq<string>, r: SpeakerResult, q: SpeakerResult)
    requires |r.dimensions| == 7 && |q.dimensions| == 7
  {
    if r.overallMean != q.overallMean then r.overallMean > q.overallMean
    else if MeanOf(r, SpanishPronunciation) != MeanOf(q, SpanishPronunciation) then
      MeanOf(r, SpanishPronunciation) > MeanOf(q, SpanishPronunciation)
    else if MeanOf(r, AudiobookSuitability) != MeanOf(q, AudiobookSuitability) then
      MeanOf(r, AudiobookSuitability) > MeanOf(q, AudiobookSuitability)
    else if MeanOf(r, Naturalness) != MeanOf(q, Naturalness) then MeanOf(r, Naturalness) > MeanOf(q, Naturalness)
    else if MeanOf(r, ArtifactFreedom) != MeanOf(q, ArtifactFreedom) then
      MeanOf(r, ArtifactFreedom) > MeanOf(q, ArtifactFreedom)
    else if MeanOf(r, Intelligibility) != MeanOf(q, Intelligibility) then
      MeanOf(r, Intelligibility) > MeanOf(q, Intelligibility)
    else if MeanOf(r, PunctuationDialogue) != MeanOf(q, PunctuationDialogue) then
      MeanOf(r, PunctuationDialogue) > MeanOf(q, PunctuationDialogue)
    else if MeanOf(r, NumericExpressions) != MeanOf(q, NumericExpressions) then
      MeanOf(r, NumericExpressions) > MeanOf(q, NumericExpressions)
    else OrderIndex(order, r.speakerId) < OrderIndex(order, q.speakerId)
  }

  lemma LexTail(a: seq<real>, b: seq<real>, i: nat)
    requires |a| == |b| && i < |a|
    ensures LexLess(a[i..], b[i..]) <==> a[i] < b[i] || (a[i] == b[i] && LexLess(a[i + 1..], b[i + 1..]))
  {
    assert a[i..][1..] == a[i + 1..] && b[i..][1..] == b[i + 1..];
  }

  /** Keys of nine entries are compared entry by entry. */
  lemma LexOfNine(a: seq<real>, b: seq<real>)
    requires |a| == |b| == 9
    ensures LexLess(a, b) <==>
      if a[0] != b[0] then a[0] < b[0]
      else if a[1] != b[1] then a[1] < b[1]
      else if a[2] != b[2] then a[2] < b[2]
      else if a[3] != b[3] then a[3] < b[3]
      else if a[4] != b[4] then a[4] < b[4]
      else if a[5] != b[5] then a[5] < b[5]
      else if a[6] != b[6] then a[6] < b[6]
      else if a[7] != b[7] then a[7] < b[7]
      else a[8] < b[8]
  {
    assert a[0..] == a && b[0..] == b && a[9..] == b[9..] == [];
    LexTail(a, b, 0);
    LexTail(a, b, 1);
    LexTail(a, b, 2);
    LexTail(a, b, 3);
    LexTail(a, b, 4);
    LexTail(a, b, 5);
    LexTail(a, b, 6);
    LexTail(a, b, 7);
    LexTail(a, b, 8);
  }

  /** The ranking: the overall mean first, then the dimensions in their order, then the speaker order. */
  lemma {:induction false} RankingWrittenOut(order: seq<string>, r: SpeakerResult, q: SpeakerResult)
    requires |r.dimensions| == 7 && |q.dimensions| == 7
    ensures RanksBefore(order, r, q) <==> Precedes(order, r, q)
  {
    LexOfNine(KeyOf(order, r), KeyOf(order, q));
  }

  /** The dimension applies to some sample, and every sample it applies to has a score for it. */
  ghost predicate ScoredDimension(screen: Screen, own: seq<Sample>, d: Dimension) {
    && (exists i :: 0 <= i < |own| && Counts(screen, d, own[i]))
    && forall i :: 0 <= i < |own| && Counts(screen, d, own[i]) ==>
         own[i].sampleId in screen.ratings && d in screen.ratings[own[i].sampleId].scores
  }

  /** The case of the sample is listed for the dimension. */
  ghost predicate Counts(screen: Screen, d: Dimension, sample: Sample) {
    d in screen.applicability && sample.caseId in screen.applicability[d]
  }

  /** What every speaker needs to be scored: three rated samples, and every dimension scored. */
  ghost predicate CanBeScored(screen: Screen, speaker: string) {
    var own := SamplesOf(screen.samples, speaker);
    && |own| == 3
    && (forall d :: ScoredDimension(screen, own, d))
    && forall i :: 0 <= i < |own| ==> own[i].sampleId in screen.ratings
  }

  lemma {:induction false} ApplicableMeans(screen: Screen, own: seq<Sample>, d: Dimension)
    ensures ApplicableCount(screen, own, d) > 0 <==> exists i :: 0 <= i < |own| && Applies(screen, d, own[i])
    ensures AllScored(screen, own, d) <==>
      forall i :: 0 <= i < |own| && Applies(screen, d, own[i]) ==> Scored(screen, own[i], d)
  {
    if own != [] {
      ApplicableMeans(screen, own[1..], d);
      assert own == [own[0]] + own[1..];
      if exists i :: 0 <= i < |own[1..]| && Applies(screen, d, own[1..][i]) {
        var i :| 0 <= i < |own[1..]| && Applies(screen, d, own[1..][i]);
        assert Applies(screen, d, own[i + 1]);
      }
    }
  }

  lemma {:induction false} MeanErrorMeans(screen: Screen, own: seq<Sample>, d: Dimension)
    ensures MeanError(screen, own, d) == None <==> ScoredDimension(screen, own, d)
  {
    ApplicableMeans(screen, own, d);
    assert forall i :: 0 <= i < |own| ==> (Counts(screen, d, own[i]) <==> Applies(screen, d, own[i]));
  }

  lemma {:induction false} MeansErrorMeans(screen: Screen, own: seq<Sample>, i: nat)
    requires i <= |DIMENSIONS|
    ensures MeansError(screen, own, i) == None <==>
      forall j :: i <= j < |DIMENSIONS| ==> ScoredDimension(screen, own, DIMENSIONS[j])
    decreases |DIMENSIONS| - i
  {
    if i < |DIMENSIONS| {
      MeansErrorMeans(screen, own, i + 1);
      MeanErrorMeans(screen, own, DIMENSIONS[i]);
    }
  }

  lemma {:induction false} AllDimensionsScored(screen: Screen, own: seq<Sample>)
    ensures MeansError(screen, own, 0) == None <==> forall d :: ScoredDimension(screen, own, d)
  {
    MeansErrorMeans(screen, own, 0);
    if forall j :: 0 <= j < |DIMENSIONS| ==> ScoredDimension(screen, own, DIMENSIONS[j]) {
      forall d ensures ScoredDimension(screen, own, d) {
        assert ScoredDimension(screen, own, DIMENSIONS[PositionOf(d)]);
      }
    }
  }

  lemma {:induction false} SpeakerErrorMeans(screen: Screen, speaker: string)
    ensures SpeakerError(screen, speaker) == None <==> CanBeScored(screen, speaker)
  {
    AllDimensionsScored(screen, SamplesOf(screen.samples, speaker));
  }

  /** The scorecard is scored if and only if every speaker of the order can be. */
  lemma {:induction false} ScoredIffComplete(screen: Screen, i: nat)
    requires i <= |screen.speakerOrder|
    ensures OrderError(screen, i) == None <==>
      forall j :: i <= j < |screen.speakerOrder| ==> CanBeScored(screen, screen.speakerOrder[j])
    decreases |screen.speakerOrder| - i
  {
    if i < |screen.speakerOrder| {
      ScoredIffComplete(screen, i + 1);
      SpeakerErrorMeans(screen, screen.speakerOrder[i]);
    }
  }

  lemma {:induction false} MeansErrorAt(screen: Screen, own: seq<Sample>, i: nat, j: nat)
    requires i <= j < |DIMENSIONS| && MeanError(screen, own, DIMENSIONS[j]).Some?
    requires forall h :: i <= h < j ==> ScoredDimension(screen, own, DIMENSIONS[h])
    ensures MeansError(screen, own, i) == MeanError(screen, own, DIMENSIONS[j])
    decreases j - i
  {
    if i < j {
      MeanErrorMeans(screen, own, DIMENSIONS[i]);
      MeansErrorAt(screen, own, i + 1, j);
    }
  }

  /**
   * Which fault refuses a speaker: not three samples; then the first dimension that is not scored, wrong
   * metadata if it applies nowhere and a missing score otherwise; then a sample without rating.
   */
  lemma {:induction false} SpeakerFault(screen: Screen, speaker: string, j: nat)
    requires j <= |DIMENSIONS|
    requires var own := SamplesOf(screen.samples, speaker);
      && (forall h :: 0 <= h < j ==> ScoredDimension(screen, own, DIMENSIONS[h]))
      && (j < |DIMENSIONS| ==> !ScoredDimension(screen, own, DIMENSIONS[j]))
    ensures var own := SamplesOf(screen.samples, speaker);
      SpeakerError(screen, speaker) ==
        if |own| != 3 then Some(Metadata)
        else if j < |DIMENSIONS| then
          Some(if exists i :: 0 <= i < 3 && Counts(screen, DIMENSIONS[j], own[i]) then MissingScore else Metadata)
        else if exists i :: 0 <= i < 3 && own[i].sampleId !in screen.ratings then Some(MissingScore)
        else None
  {
    var own := SamplesOf(screen.samples, speaker);
    if j < |DIMENSIONS| {
      MeanErrorMeans(screen, own, DIMENSIONS[j]);
      ApplicableMeans(screen, own, DIMENSIONS[j]);
      assert forall i :: 0 <= i < |own| ==>
        (Counts(screen, DIMENSIONS[j], own[i]) <==> Applies(screen, DIMENSIONS[j], own[i]));
      MeansErrorAt(screen, own, 0, j);
    } else {
      MeansErrorMeans(screen, own, 0);
    }
  }

  // ---------------------------------------------------------------- raising scores

  /**
   * `raised` differs from `screen` only in the ratings of one speaker's samples: none of its scores is
   * lower and no defect is added.
   */
  ghost predicate RaisedFor(screen: Screen, raised: Screen, speaker: string) {
    && raised == screen.(ratings := raised.ratings)
    && raised.ratings.Keys == screen.ratings.Keys
    && forall s :: s in screen.samples && s.sampleId in screen.ratings ==>
         var old', new' := screen.ratings[s.sampleId], raised.ratings[s.sampleId];
         && (s.speakerId != speaker ==> new' == old')
         && new'.scores.Keys == old'.scores.Keys
         && (forall d :: d in old'.scores ==> new'.scores[d] >= old'.scores[d])
         && (new'.defect ==> old'.defect)
  }

  lemma {:induction false} RaisedMeans(screen: Screen, raised: Screen, speaker: string, own: seq<Sample>, d: Dimension)
    requires RaisedFor(screen, raised, speaker) && forall s :: s in own ==> s in screen.samples
    ensures ApplicableCount(raised, own, d) == ApplicableCount(screen, own, d)
    ensures AllScored(raised, own, d) == AllScored(screen, own, d)
    ensures ScoreSum(raised, own, d) >= ScoreSum(screen, own, d)
    ensures (forall s :: s in own ==> s.speakerId != speaker) ==> ScoreSum(raised, own, d) == ScoreSum(screen, own, d)
  {
    if own != [] {
      assert own[0] in own;
      RaisedMeans(screen, raised, speaker, own[1..], d);
    }
  }

  lemma {:induction false} RaisedDefects(screen: Screen, raised: Screen, speaker: string, own: seq<Sample>)
    requires RaisedFor(screen, raised, speaker) && forall s :: s in own ==> s in screen.samples
    ensures DefectCount(raised, own) <= DefectCount(screen, own)
    ensures (forall s :: s in own ==> s.speakerId != speaker) ==> DefectCount(raised, own) == DefectCount(screen, own)
  {
    if own != [] {
      assert own[0] in own;
      RaisedDefects(screen, raised, speaker, own[1..]);
    }
  }

  lemma DivideMonotone(x: int, y: int, n: nat)
    requires x <= y && n > 0
    ensures x as real / n as real <= y as real / n as real
  {
  }

  lemma {:induction false} SumMonotone(xs: seq<real>, ys: seq<real>)
    requires |xs| == |ys| && forall i :: 0 <= i < |xs| ==> xs[i] <= ys[i]
    ensures Sum(xs) <= Sum(ys)
  {
    if xs != [] {
      SumMonotone(xs[1..], ys[1..]);
    }
  }

  /** No mean of the raised speaker falls, and its defects do not grow. */
  lemma {:induction false} RaisedResult(screen: Screen, raised: Screen, speaker: string)
    requires RaisedFor(screen, raised, speaker)
    ensures var r, r' := ResultOf(screen, speaker), ResultOf(raised, speaker);
      && (forall i :: 0 <= i < 7 ==> r'.dimensions[i] >= r.dimensions[i])
      && r'.overallMean >= r.overallMean
      && (r.eligible ==> r'.eligible)
  {
    var own := SamplesOf(screen.samples, speaker);
    RaisedDefects(screen, raised, speaker, own);
    forall i | 0 <= i < 7
      ensures Mean(raised, own, DIMENSIONS[i]) >= Mean(screen, own, DIMENSIONS[i])
    {
      var d := DIMENSIONS[i];
      RaisedMeans(screen, raised, speaker, own, d);
      if ApplicableCount(screen, own, d) > 0 {
        DivideMonotone(ScoreSum(screen, own, d), ScoreSum(raised, own, d), ApplicableCount(screen, own, d));
      }
    }
    SumMonotone(Means(screen, own), Means(raised, own));
  }

  lemma {:induction false} OtherResultUnchanged(screen: Screen, raised: Screen, speaker: string, other: string)
    requires RaisedFor(screen, raised, speaker) && other != speaker
    ensures ResultOf(raised, other) == ResultOf(screen, other)
  {
    var own := SamplesOf(screen.samples, other);
    RaisedDefects(screen, raised, speaker, own);
    forall i | 0 <= i < 7
      ensures Mean(raised, own, DIMENSIONS[i]) == Mean(screen, own, DIMENSIONS[i])
    {
      RaisedMeans(screen, raised, speaker, own, DIMENSIONS[i]);
    }
    assert Means(raised, own) == Means(screen, own);
  }

  lemma {:induction false} BetterStillRanks(order: seq<string>, r: SpeakerResult, r': SpeakerResult, q: SpeakerResult)
    requires |r.dimensions| == |r'.dimensions| == |q.dimensions| == 7
    requires r'.speakerId == r.speakerId && r'.overallMean >= r.overallMean
    requires forall i :: 0 <= i < 7 ==> r'.dimensions[i] >= r.dimensions[i]
    requires RanksBefore(order, r, q)
    ensures RanksBefore(order, r', q)
  {
    LexImproves(KeyOf(order, r'), KeyOf(order, r), KeyOf(order, q));
  }

  /** Raising scores of the selected speaker, with everything else fixed, never unseats it. */
  lemma {:induction false} RaisingNeverUnseats(screen: Screen, raised: Screen, i: nat)
    requires IsSelected(screen.speakerOrder, Results(screen), i)
    requires RaisedFor(screen, raised, Results(screen)[i].speakerId)
    ensures IsSelected(screen.speakerOrder, Results(raised), i)
  {
    var order := screen.speakerOrder;
    var speaker := Results(screen)[i].speakerId;
    RaisedResult(screen, raised, speaker);
    forall j | 0 <= j < |Results(raised)| && Results(raised)[j].eligible && Results(raised)[j].speakerId != speaker
      ensures RanksBefore(order, Results(raised)[i], Results(raised)[j])
    {
      OtherResultUnchanged(screen, raised, speaker, order[j]);
      BetterStillRanks(order, Results(screen)[i], Results(raised)[i], Results(screen)[j]);
    }
  }

  /** The raised screen is scored whenever the original one is. */
  lemma {:induction false} RaisedIsScored(screen: Screen, raised: Screen, speaker: string, i: nat)
    requires RaisedFor(screen, raised, speaker) && i <= |screen.speakerOrder|
    ensures OrderError(raised, i) == OrderError(screen, i)
    decreases |screen.speakerOrder| - i
  {
    if i < |screen.speakerOrder| {
      RaisedMeansError(screen, raised, speaker, SamplesOf(screen.samples, screen.speakerOrder[i]), 0);
      RaisedIsScored(screen, raised, speaker, i + 1);
    }
  }

  /**
   * Raising scores of the selected speaker keeps the outcome: the scorecard is still scored, the speaker is
   * still selected, and every index selected for the raised scorecard is that same speaker.
   */
  lemma {:induction false} RaisedSelectionIsTheSame(screen: Screen, raised: Screen, i: nat, j: nat)
    requires OrderError(screen, 0) == None && IsSelected(screen.speakerOrder, Results(screen), i)
    requires RaisedFor(screen, raised, Results(screen)[i].speakerId)
    ensures OrderError(raised, 0) == None && IsSelected(screen.speakerOrder, Results(raised), i)
    ensures IsSelected(raised.speakerOrder, Results(raised), j) ==>
      Results(raised)[j].speakerId == Results(screen)[i].speakerId
  {
    RaisedIsScored(screen, raised, Results(screen)[i].speakerId, 0);
    RaisingNeverUnseats(screen, raised, i);
    if IsSelected(raised.speakerOrder, Results(raised), j) {
      SelectionIsUnique(screen.speakerOrder, Results(raised), i, j);
    }
  }

  lemma {:induction false} RaisedMeansError(screen: Screen, raised: Screen, speaker: string, own: seq<Sample>, i: nat)
    requires RaisedFor(screen, raised, speaker) && (forall s :: s in own ==> s in screen.samples) && i <= |DIMENSIONS|
    ensures MeansError(raised, own, i) == MeansError(screen, own, i)
    decreases |DIMENSIONS| - i
  {
    if i < |DIMENSIONS| {
      RaisedMeans(screen, raised, speaker, own, DIMENSIONS[i]);
      RaisedMeansError(screen, raised, speaker, own, i + 1);
    }
  }
}
