/**
 * Aggregation of one blinded listening scorecard.
 *
 * Every scored sample must be a sample of the private map, once, with its language; scores are
 * accumulated per language and dimension, and the aggregate reports their means and counts.
 */
module Scorecard {
  import opened Basics
  import opened Wrappers

  /** A key of the scores mapping: one of the six dimensions, or a name that is none of them. */
  datatype Dimension =
    | Intelligibility | Naturalness | Prosody | Pronunciation | LanguageStability | OverallUsefulness
    | Unrecognised(name: string)

  const DIMENSIONS: seq<Dimension> := [
    Intelligibility, Naturalness, Prosody, Pronunciation, LanguageStability, OverallUsefulness]

  const DIMENSION_SET: set<Dimension> := {
    Intelligibility, Naturalness, Prosody, Pronunciation, LanguageStability, OverallUsefulness}

  datatype PrivateSample = PrivateSample(sampleId: string, language: string)

  /** A raw entry; a field is none when its value does not have the required type. */
  datatype RawSample = RawSample(
    sampleId: Option<string>,
    language: Option<string>,
    scores: Option<map<Dimension, Option<real>>>,
    meaningChangingDefect: Option<bool>,
    wrongLanguage: Option<bool>)

  datatype Header = Header(
    schemaVersion: string, sessionId: string, candidateId: string, evaluatorCount: int, blindOrder: bool)

  /** A rejected scorecard, a language the candidate does not have, or a language without scores. */
  datatype AggregateError = Rejected | UnknownLanguage | NoScores

  /** Accumulators of one language: a list of scores per dimension, and the counters. */
  datatype Totals = Totals(scores: seq<seq<real>>, defects: nat, wrongLanguage: nat, sampleCount: nat)

  datatype LanguageAggregate = LanguageAggregate(
    language: string, sampleCount: nat, dimensionMeans: seq<real>, defects: nat, wrongLanguage: nat)

  /** Languages by sample; a repeated sample keeps its last entry. */
  function ExpectedOf(samples: seq<PrivateSample>): map<string, string> {
    if samples == [] then map[]
    else ExpectedOf(samples[..|samples| - 1])[samples[|samples| - 1].sampleId := samples[|samples| - 1].language]
  }

  /** The entry at `i` is the last one of this sample. */
  ghost predicate LastListed(samples: seq<PrivateSample>, i: int, id: string) {
    && 0 <= i < |samples| && samples[i].sampleId == id
    && forall j :: i < j < |samples| ==> samples[j].sampleId != id
  }

  /** Exactly the samples of the private map are expected, each with the language of its last entry. */
  lemma {:induction false} ExpectedKeepsLast(samples: seq<PrivateSample>, id: string)
    ensures id in ExpectedOf(samples) <==> exists i :: 0 <= i < |samples| && samples[i].sampleId == id
    ensures id in ExpectedOf(samples) ==>
      exists i :: LastListed(samples, i, id) && ExpectedOf(samples)[id] == samples[i].language
    decreases |samples|
  {
    if samples != [] {
      var n := |samples| - 1;
      ExpectedKeepsLast(samples[..n], id);
      if samples[n].sampleId == id {
        assert LastListed(samples, n, id);
      } else if id in ExpectedOf(samples[..n]) {
        var i :| LastListed(samples[..n], i, id) && ExpectedOf(samples[..n])[id] == samples[..n][i].language;
        assert LastListed(samples, i, id);
      }
    }
  }

  // ---------------------------------------------------------------- validation

  predicate ScoreValid(score: Option<real>) {
    score.Some? && 1.0 <= score.value <= 5.0
  }

  function ObservedUpTo(samples: seq<RawSample>, i: nat): set<string>
    requires i <= |samples|
  {
    if i == 0 then {}
    else ObservedUpTo(samples, i - 1) + if samples[i - 1].sampleId.Some? then {samples[i - 1].sampleId.value} else {}
  }

  function Known(languages: seq<string>): set<string> {
    set l | l in languages
  }

  /** The checks on one entry before its scores are read. */
  predicate EntryValid(expected: map<string, string>, observed: set<string>, sample: RawSample) {
    && sample.scores.Some?
    && sample.sampleId.Some? && sample.sampleId.value !in observed
    && sample.language.Some?
    && sample.sampleId.value in expected && expected[sample.sampleId.value] == sample.language.value
    && sample.scores.value.Keys == DIMENSION_SET
    && sample.meaningChangingDefect.Some? && sample.wrongLanguage.Some?
  }

  predicate ScoresValid(scores: map<Dimension, Option<real>>, d: nat)
    requires d <= |DIMENSIONS|
    decreases |DIMENSIONS| - d
  {
    d == |DIMENSIONS| ||
    (DIMENSIONS[d] in scores && ScoreValid(scores[DIMENSIONS[d]]) && ScoresValid(scores, d + 1))
  }

  function EntryError(
    expected: map<string, string>, languages: set<string>, observed: set<string>, sample: RawSample
  ): Option<AggregateError> {
    if !EntryValid(expected, observed, sample) then Some(Rejected)
    else if sample.language.value !in languages then Some(UnknownLanguage)
    else if !ScoresValid(sample.scores.value, 0) then Some(Rejected)
    else None
  }

  /** The error of the first refused entry from `i` on. */
  function FirstError(
    expected: map<string, string>, languages: set<string>, samples: seq<RawSample>, i: nat
  ): Option<AggregateError>
    requires i <= |samples|
    decreases |samples| - i
  {
    if i == |samples| then None
    else
      var error := EntryError(expected, languages, ObservedUpTo(samples, i), samples[i]);
      if error.Some? then error else FirstError(expected, languages, samples, i + 1)
  }

  // ---------------------------------------------------------------- accumulation

  const EMPTY := Totals([[], [], [], [], [], []], 0, 0, 0)

  function ScoreOf(sample: RawSample, d: nat): real
    requires d < |DIMENSIONS|
  {
    if sample.scores.Some? && DIMENSIONS[d] in sample.scores.value && sample.scores.value[DIMENSIONS[d]].Some?
    then sample.scores.value[DIMENSIONS[d]].value else 0.0
  }

  function Add(totals: Totals, sample: RawSample): Totals {
    Totals(
      if |totals.scores| == 6 then
        seq(6, d requires 0 <= d < 6 && |totals.scores| == 6 => totals.scores[d] + [ScoreOf(sample, d)])
      else totals.scores,
      totals.defects + (if sample.meaningChangingDefect == Some(true) then 1 else 0),
      totals.wrongLanguage + (if sample.wrongLanguage == Some(true) then 1 else 0),
      totals.sampleCount + 1)
  }

  /** The accumulators of a language after the first `i` entries. */
  function TotalsFor(samples: seq<RawSample>, i: nat, language: string): (totals: Totals)
    requires i <= |samples|
    ensures |totals.scores| == 6
    ensures forall d :: 0 <= d < 6 ==> |totals.scores[d]| == totals.sampleCount
  {
    if i == 0 then EMPTY
    else if samples[i - 1].language == Some(language) then Add(TotalsFor(samples, i - 1, language), samples[i - 1])
    else TotalsFor(samples, i - 1, language)
  }

  function Mean(values: seq<real>): real {
    if values == [] then 0.0 else Sum(values) / |values| as real
  }

  function AggregateOf(language: string, totals: Totals): LanguageAggregate
    requires |totals.scores| == 6
  {
    LanguageAggregate(
      language, totals.sampleCount, seq(6, d requires 0 <= d < 6 => Mean(totals.scores[d])),
      totals.defects, totals.wrongLanguage)
  }

  /** A language without samples has no mean. */
  function MeansError(samples: seq<RawSample>, languages: seq<string>, l: nat): Option<AggregateError>
    requires l <= |languages|
    decreases |languages| - l
  {
    if l == |languages| then None
    else if TotalsFor(samples, |samples|, languages[l]).sampleCount == 0 then Some(NoScores)
    else MeansError(samples, languages, l + 1)
  }

  function Aggregates(samples: seq<RawSample>, languages: seq<string>): seq<LanguageAggregate> {
    seq(|languages|, l requires 0 <= l < |languages| =>
      AggregateOf(languages[l], TotalsFor(samples, |samples|, languages[l])))
  }

  /** Why a scorecard is refused, if it is. No check that all samples were seen is needed. */
  function CardError(
    expected: map<string, string>, languages: seq<string>, headerMatches: bool, samples: seq<RawSample>
  ): Option<AggregateError> {
    if !headerMatches || |samples| != |expected| then Some(Rejected)
    else
      var error := FirstError(expected, Known(languages), samples, 0);
      if error.Some? then error else MeansError(samples, languages, 0)
  }

  // ---------------------------------------------------------------- what acceptance means

  lemma {:induction false} ObservedMember(samples: seq<RawSample>, i: nat, id: string)
    requires i <= |samples|
    ensures id in ObservedUpTo(samples, i) <==> exists j :: 0 <= j < i && samples[j].sampleId == Some(id)
  {
    if i > 0 {
      ObservedMember(samples, i - 1, id);
      if samples[i - 1].sampleId == Some(id) {
        assert 0 <= i - 1 < i;
      }
    }
  }

  lemma {:induction false} AcceptedEntry(
    expected: map<string, string>, languages: set<string>, samples: seq<RawSample>, i: nat, j: nat)
    requires i <= j < |samples| && FirstError(expected, languages, samples, i) == None
    ensures EntryError(expected, languages, ObservedUpTo(samples, j), samples[j]) == None
    decreases j - i
  {
    if i < j {
      AcceptedEntry(expected, languages, samples, i + 1, j);
    }
  }

  lemma {:induction false} EntryIsNew(
    expected: map<string, string>, languages: set<string>, observed: set<string>, sample: RawSample)
    requires EntryError(expected, languages, observed, sample) == None
    ensures sample.sampleId.Some? && sample.sampleId.value in expected.Keys
    ensures |observed + {sample.sampleId.value}| == |observed| + 1
  {
    OneMore(observed, sample.sampleId.value);
  }

  lemma {:induction false} AcceptedIsNew(
    expected: map<string, string>, languages: set<string>, samples: seq<RawSample>, i: nat)
    requires i < |samples| && FirstError(expected, languages, samples, 0) == None
    ensures |ObservedUpTo(samples, i + 1)| == |ObservedUpTo(samples, i)| + 1
    ensures ObservedUpTo(samples, i) <= expected.Keys ==> ObservedUpTo(samples, i + 1) <= expected.Keys
  {
    AcceptedEntry(expected, languages, samples, 0, i);
    EntryIsNew(expected, languages, ObservedUpTo(samples, i), samples[i]);
  }

  /** Each accepted entry adds a new sample of the private map. */
  lemma {:induction false} ObservedGrows(
    expected: map<string, string>, languages: set<string>, samples: seq<RawSample>, i: nat)
    requires i <= |samples| && FirstError(expected, languages, samples, 0) == None
    ensures |ObservedUpTo(samples, i)| == i && ObservedUpTo(samples, i) <= expected.Keys
  {
    if i > 0 {
      ObservedGrows(expected, languages, samples, i - 1);
      AcceptedIsNew(expected, languages, samples, i - 1);
    }
  }

  lemma {:induction false} SubsetOfSameSize(a: set<string>, b: set<string>)
    requires a <= b && |a| == |b|
    ensures a == b
  {
    assert b == a + (b - a);
    assert |b| == |a| + |b - a|;
  }

  /** By counting, the observed samples are all the expected ones: the final set comparison never fails. */
  lemma {:induction false} AllSamplesObserved(
    expected: map<string, string>, languages: set<string>, samples: seq<RawSample>)
    requires FirstError(expected, languages, samples, 0) == None && |samples| == |expected|
    ensures ObservedUpTo(samples, |samples|) == expected.Keys
  {
    ObservedGrows(expected, languages, samples, |samples|);
    assert |expected.Keys| == |expected|;
    SubsetOfSameSize(ObservedUpTo(samples, |samples|), expected.Keys);
  }

  /**
   * An accepted scorecard is a permutation of the private map: every expected sample is scored exactly
   * once, with its own language and six scores from one to five.
   */
  lemma {:induction false} AcceptedIsPermutation(
    expected: map<string, string>, languages: set<string>, samples: seq<RawSample>)
    requires FirstError(expected, languages, samples, 0) == None && |samples| == |expected|
    ensures forall j :: 0 <= j < |samples| ==>
      && samples[j].sampleId.Some? && samples[j].sampleId.value in expected
      && samples[j].language == Some(expected[samples[j].sampleId.value])
      && samples[j].language.value in languages
    ensures forall j, k :: 0 <= j < k < |samples| ==> samples[j].sampleId != samples[k].sampleId
    ensures forall id :: id in expected ==> exists j :: 0 <= j < |samples| && samples[j].sampleId == Some(id)
  {
    AllSamplesObserved(expected, languages, samples);
    forall j | 0 <= j < |samples|
      ensures samples[j].sampleId.Some? && samples[j].sampleId.value in expected
      ensures samples[j].language == Some(expected[samples[j].sampleId.value])
      ensures samples[j].language.value in languages
    {
      AcceptedEntry(expected, languages, samples, 0, j);
    }
    forall j, k | 0 <= j < k < |samples|
      ensures samples[j].sampleId != samples[k].sampleId
    {
      AcceptedEntry(expected, languages, samples, 0, k);
      ObservedMember(samples, k, samples[k].sampleId.value);
    }
    forall id | id in expected
      ensures exists j :: 0 <= j < |samples| && samples[j].sampleId == Some(id)
    {
      ObservedMember(samples, |samples|, id);
    }
  }

  /** The sample counts of the first `l` languages after `i` entries. */
  function CountSum(samples: seq<RawSample>, i: nat, languages: seq<string>, l: nat): nat
    requires i <= |samples| && l <= |languages|
  {
    if l == 0 then 0 else CountSum(samples, i, languages, l - 1) + TotalsFor(samples, i, languages[l - 1]).sampleCount
  }

  lemma {:induction false} CountSumStep(samples: seq<RawSample>, i: nat, languages: seq<string>, l: nat)
    requires i < |samples| && l <= |languages|
    requires forall j, k :: 0 <= j < k < |languages| ==> languages[j] != languages[k]
    ensures CountSum(samples, i + 1, languages, l) == CountSum(samples, i, languages, l) +
      (if samples[i].language.Some? && samples[i].language.value in languages[..l] then 1 else 0)
  {
    if l > 0 {
      CountSumStep(samples, i, languages, l - 1);
      assert languages[..l] == languages[..l - 1] + [languages[l - 1]];
    }
  }

  /** The per-language counts of an accepted scorecard add up to all its samples. */
  lemma {:induction false} CountsAddUp(
    expected: map<string, string>, languages: seq<string>, samples: seq<RawSample>, i: nat)
    requires FirstError(expected, Known(languages), samples, 0) == None && i <= |samples|
    requires forall j, k :: 0 <= j < k < |languages| ==> languages[j] != languages[k]
    ensures CountSum(samples, i, languages, |languages|) == i
  {
    if i == 0 {
      NothingCounted(samples, languages, |languages|);
    } else {
      CountsAddUp(expected, languages, samples, i - 1);
      AcceptedEntry(expected, Known(languages), samples, 0, i - 1);
      CountSumStep(samples, i - 1, languages, |languages|);
      assert languages[..|languages|] == languages;
    }
  }

  lemma {:induction false} NothingCounted(samples: seq<RawSample>, languages: seq<string>, l: nat)
    requires l <= |languages|
    ensures CountSum(samples, 0, languages, l) == 0
  {
    if l > 0 {
      NothingCounted(samples, languages, l - 1);
    }
  }

  predicate AllWithin(values: seq<real>, low: real, high: real) {
    forall i :: 0 <= i < |values| ==> low <= values[i] <= high
  }

  lemma {:induction false} SumWithin(values: seq<real>, low: real, high: real)
    requires AllWithin(values, low, high)
    ensures low * |values| as real <= Sum(values) <= high * |values| as real
  {
    if values != [] {
      SumWithin(values[1..], low, high);
      var n := |values[1..]| as real;
      assert low * (n + 1.0) == low * n + low && high * (n + 1.0) == high * n + high;
    }
  }

  lemma {:induction false} MeanWithin(values: seq<real>, low: real, high: real)
    requires values != [] && AllWithin(values, low, high)
    ensures low <= Mean(values) <= high
  {
    SumWithin(values, low, high);
    var n := |values| as real;
    assert Mean(values) * n == Sum(values);
    assert (Mean(values) - low) * n >= 0.0 && (high - Mean(values)) * n >= 0.0;
  }

  lemma {:induction false} ScoresValidAt(scores: map<Dimension, Option<real>>, d: nat, k: nat)
    requires d <= k < |DIMENSIONS| && ScoresValid(scores, d)
    ensures DIMENSIONS[k] in scores && ScoreValid(scores[DIMENSIONS[k]])
    decreases k - d
  {
    if d < k {
      ScoresValidAt(scores, d + 1, k);
    }
  }

  lemma {:induction false} ScoresWithin(
    expected: map<string, string>, languages: set<string>, samples: seq<RawSample>, i: nat, language: string, d: nat)
    requires FirstError(expected, languages, samples, 0) == None && i <= |samples| && d < 6
    ensures AllWithin(TotalsFor(samples, i, language).scores[d], 1.0, 5.0)
  {
    if i > 0 {
      ScoresWithin(expected, languages, samples, i - 1, language, d);
      if samples[i - 1].language == Some(language) {
        AcceptedEntry(expected, languages, samples, 0, i - 1);
        ScoresValidAt(samples[i - 1].scores.value, 0, d);
      }
    }
  }

  lemma {:induction false} MeansDefined(samples: seq<RawSample>, languages: seq<string>, l: nat, k: nat)
    requires l <= k < |languages| && MeansError(samples, languages, l) == None
    ensures TotalsFor(samples, |samples|, languages[k]).sampleCount > 0
    decreases k - l
  {
    if l < k {
      MeansDefined(samples, languages, l + 1, k);
    }
  }

  /** Every reported dimension mean of an accepted scorecard lies between one and five. */
  lemma {:induction false} MeansWithinScale(
    expected: map<string, string>, languages: seq<string>, samples: seq<RawSample>, l: nat, d: nat)
    requires CardError(expected, languages, true, samples) == None && l < |languages| && d < 6
    ensures 1.0 <= Aggregates(samples, languages)[l].dimensionMeans[d] <= 5.0
  {
    ScoresWithin(expected, Known(languages), samples, |samples|, languages[l], d);
    MeansDefined(samples, languages, 0, l);
    MeanWithin(TotalsFor(samples, |samples|, languages[l]).scores[d], 1.0, 5.0);
  }

  // ---------------------------------------------------------------- the aggregate, written out

  /** The entries of a language among the first `i`. */
  function EntriesOf(samples: seq<RawSample>, i: nat, language: string): seq<RawSample>
    requires i <= |samples|
  {
    if i == 0 then []
    else
      EntriesOf(samples, i - 1, language) +
      if samples[i - 1].language == Some(language) then [samples[i - 1]] else []
  }

  function ScoresOf(entries: seq<RawSample>, d: nat): seq<real>
    requires d < 6
  {
    seq(|entries|, i requires 0 <= i < |entries| =>
      match entries[i].scores
      case Some(scores) =>
        if DIMENSIONS[d] in scores && scores[DIMENSIONS[d]].Some? then scores[DIMENSIONS[d]].value else 0.0
      case None => 0.0)
  }

  function DefectsOf(entries: seq<RawSample>): nat {
    if entries == [] then 0
    else
      DefectsOf(entries[..|entries| - 1]) +
      if entries[|entries| - 1].meaningChangingDefect == Some(true) then 1 else 0
  }

  function WrongLanguageOf(entries: seq<RawSample>): nat {
    if entries == [] then 0
    else
      WrongLanguageOf(entries[..|entries| - 1]) +
      if entries[|entries| - 1].wrongLanguage == Some(true) then 1 else 0
  }

  /** The accumulators of a language are those of its entries. */
  lemma {:induction false} TotalsAreEntries(samples: seq<RawSample>, i: nat, language: string)
    requires i <= |samples|
    ensures var entries, totals := EntriesOf(samples, i, language), TotalsFor(samples, i, language);
      && totals.sampleCount == |entries|
      && totals.defects == DefectsOf(entries) && totals.wrongLanguage == WrongLanguageOf(entries)
      && forall d :: 0 <= d < 6 ==> totals.scores[d] == ScoresOf(entries, d)
  {
    if i > 0 {
      TotalsAreEntries(samples, i - 1, language);
      var before, entries := EntriesOf(samples, i - 1, language), EntriesOf(samples, i, language);
      if samples[i - 1].language == Some(language) {
        assert entries[..|entries| - 1] == before;
        forall d | 0 <= d < 6
          ensures ScoresOf(entries, d) == ScoresOf(before, d) + [ScoreOf(samples[i - 1], d)]
        {
        }
      } else {
        assert entries == before;
      }
    }
  }

  /**
   * What is reported for a language: the number of its entries, for each dimension a mean that times this
   * number is the sum of its scores, and how many entries were marked with each defect.
   */
  lemma {:induction false} AggregateWrittenOut(samples: seq<RawSample>, languages: seq<string>, l: nat, d: nat)
    requires l < |languages| && d < 6 && EntriesOf(samples, |samples|, languages[l]) != []
    ensures var entries, r := EntriesOf(samples, |samples|, languages[l]), Aggregates(samples, languages)[l];
      && r.language == languages[l] && r.sampleCount == |entries| && |r.dimensionMeans| == 6
      && r.dimensionMeans[d] * |entries| as real == Sum(ScoresOf(entries, d))
      && r.defects == DefectsOf(entries) && r.wrongLanguage == WrongLanguageOf(entries)
  {
    TotalsAreEntries(samples, |samples|, languages[l]);
    var scores := ScoresOf(EntriesOf(samples, |samples|, languages[l]), d);
    Quotient(Sum(scores), |scores| as real);
  }

  /** What an entry of the scorecard must say, each on its own. */
  ghost predicate Acceptable(expected: map<string, string>, languages: set<string>, sample: RawSample) {
    && sample.sampleId.Some? && sample.language.Some? && sample.scores.Some?
    && sample.meaningChangingDefect.Some? && sample.wrongLanguage.Some?
    && sample.sampleId.value in expected && expected[sample.sampleId.value] == sample.language.value
    && sample.language.value in languages
    && (forall name :: name in sample.scores.value <==> !name.Unrecognised?)
    && forall name :: name in sample.scores.value ==>
         sample.scores.value[name].Some? && 1.0 <= sample.scores.value[name].value <= 5.0
  }

  /** Where a dimension stands in a result. */
  function PositionOf(name: Dimension): (d: nat)
    requires !name.Unrecognised?
    ensures d < 6 && DIMENSIONS[d] == name
  {
    match name
    case Intelligibility => 0
    case Naturalness => 1
    case Prosody => 2
    case Pronunciation => 3
    case LanguageStability => 4
    case OverallUsefulness => 5
  }

  lemma {:induction false} ScoresValidMeans(scores: map<Dimension, Option<real>>, d: nat)
    requires d <= |DIMENSIONS|
    ensures ScoresValid(scores, d) <==>
      forall k :: d <= k < |DIMENSIONS| ==> DIMENSIONS[k] in scores && ScoreValid(scores[DIMENSIONS[k]])
    decreases |DIMENSIONS| - d
  {
    if d < |DIMENSIONS| {
      ScoresValidMeans(scores, d + 1);
    }
  }

  lemma {:induction false} AllScoresValid(scores: map<Dimension, Option<real>>)
    requires scores.Keys == DIMENSION_SET
    ensures ScoresValid(scores, 0) <==>
      forall name :: name in scores ==> scores[name].Some? && 1.0 <= scores[name].value <= 5.0
  {
    ScoresValidMeans(scores, 0);
    if ScoresValid(scores, 0) {
      forall name | name in scores
        ensures scores[name].Some? && 1.0 <= scores[name].value <= 5.0
      {
        assert DIMENSIONS[PositionOf(name)] == name;
      }
    }
  }

  lemma {:induction false} KeysAreDimensions(scores: map<Dimension, Option<real>>)
    ensures scores.Keys == DIMENSION_SET <==> forall name :: name in scores <==> !name.Unrecognised?
  {
    forall name: Dimension
      ensures name in DIMENSION_SET <==> !name.Unrecognised?
    {
    }
    if forall name :: name in scores <==> !name.Unrecognised? {
      assert scores.Keys == DIMENSION_SET;
    }
  }

  lemma {:induction false} EntryErrorMeans(
    expected: map<string, string>, languages: set<string>, observed: set<string>, sample: RawSample)
    ensures EntryError(expected, languages, observed, sample) == None <==>
      Acceptable(expected, languages, sample) && sample.sampleId.value !in observed
  {
    if sample.scores.Some? {
      KeysAreDimensions(sample.scores.value);
      if sample.scores.value.Keys == DIMENSION_SET {
        AllScoresValid(sample.scores.value);
      }
    }
  }

  lemma {:induction false} FirstErrorMeans(
    expected: map<string, string>, languages: set<string>, samples: seq<RawSample>, i: nat)
    requires i <= |samples|
    ensures FirstError(expected, languages, samples, i) == None <==>
      forall j :: i <= j < |samples| ==>
        Acceptable(expected, languages, samples[j]) && samples[j].sampleId.value !in ObservedUpTo(samples, j)
    decreases |samples| - i
  {
    if i < |samples| {
      FirstErrorMeans(expected, languages, samples, i + 1);
      EntryErrorMeans(expected, languages, ObservedUpTo(samples, i), samples[i]);
    }
  }

  /**
   * A scorecard is accepted if and only if its header matches, it has as many entries as the private map,
   * each entry is acceptable, no sample is scored twice, and every language has an entry.
   */
  lemma {:induction false} AcceptedIff(
    expected: map<string, string>, languages: seq<string>, headerMatches: bool, samples: seq<RawSample>)
    ensures CardError(expected, languages, headerMatches, samples) == None <==>
      && headerMatches && |samples| == |expected|
      && (forall j :: 0 <= j < |samples| ==> Acceptable(expected, Known(languages), samples[j]))
      && (forall j, k :: 0 <= j < k < |samples| ==> samples[j].sampleId != samples[k].sampleId)
      && forall l :: 0 <= l < |languages| ==> EntriesOf(samples, |samples|, languages[l]) != []
  {
    FirstErrorMeans(expected, Known(languages), samples, 0);
    MeansErrorMeans(samples, languages, 0);
    MeansErrorIsNoScores(samples, languages, 0);
    forall k | 0 <= k < |samples|
      ensures forall id :: id in ObservedUpTo(samples, k) <==> exists j :: 0 <= j < k && samples[j].sampleId == Some(id)
    {
      forall id
        ensures id in ObservedUpTo(samples, k) <==> exists j :: 0 <= j < k && samples[j].sampleId == Some(id)
      {
        ObservedMember(samples, k, id);
      }
    }
    forall l | 0 <= l < |languages|
      ensures TotalsFor(samples, |samples|, languages[l]).sampleCount == 0 <==>
        EntriesOf(samples, |samples|, languages[l]) == []
    {
      TotalsAreEntries(samples, |samples|, languages[l]);
    }
  }

  // ---------------------------------------------------------------- errors that are no rejection

  lemma {:induction false} LanguageCounted(samples: seq<RawSample>, i: nat, language: string)
    requires i <= |samples|
    ensures TotalsFor(samples, i, language).sampleCount > 0 <==>
      exists j :: 0 <= j < i && samples[j].language == Some(language)
  {
    if i > 0 {
      LanguageCounted(samples, i - 1, language);
      if samples[i - 1].language == Some(language) {
        assert 0 <= i - 1 < i;
      }
    }
  }

  lemma {:induction false} MeansErrorMeans(samples: seq<RawSample>, languages: seq<string>, l: nat)
    requires l <= |languages|
    ensures MeansError(samples, languages, l) == Some(NoScores) <==>
      exists k :: l <= k < |languages| && TotalsFor(samples, |samples|, languages[k]).sampleCount == 0
    decreases |languages| - l
  {
    if l < |languages| {
      MeansErrorMeans(samples, languages, l + 1);
      if TotalsFor(samples, |samples|, languages[l]).sampleCount == 0 {
        assert l <= l < |languages|;
      }
    }
  }

  /** The languages of an accepted scorecard are the languages of the private map. */
  lemma {:induction false} CountedIffExpected(
    expected: map<string, string>, languages: set<string>, samples: seq<RawSample>, language: string)
    requires FirstError(expected, languages, samples, 0) == None && |samples| == |expected|
    ensures TotalsFor(samples, |samples|, language).sampleCount > 0 <==> language in expected.Values
  {
    AcceptedIsPermutation(expected, languages, samples);
    LanguageCounted(samples, |samples|, language);
    if language in expected.Values {
      var id :| id in expected && expected[id] == language;
      var j :| 0 <= j < |samples| && samples[j].sampleId == Some(id);
      assert samples[j].language == Some(language);
    }
  }

  /**
   * A complete scorecard of accepted entries fails without scores exactly when the candidate has a
   * language for which the private map has no sample.
   */
  lemma {:induction false} NoScoresIffLanguageUnused(
    expected: map<string, string>, languages: seq<string>, samples: seq<RawSample>)
    requires FirstError(expected, Known(languages), samples, 0) == None && |samples| == |expected|
    ensures CardError(expected, languages, true, samples) == Some(NoScores) <==>
      exists k :: 0 <= k < |languages| && languages[k] !in expected.Values
  {
    MeansErrorMeans(samples, languages, 0);
    forall k | 0 <= k < |languages|
      ensures TotalsFor(samples, |samples|, languages[k]).sampleCount == 0 <==> languages[k] !in expected.Values
    {
      CountedIffExpected(expected, Known(languages), samples, languages[k]);
    }
  }

  lemma {:induction false} KnownLanguagesAreFound(
    expected: map<string, string>, languages: set<string>, samples: seq<RawSample>, i: nat)
    requires i <= |samples| && expected.Values <= languages
    ensures FirstError(expected, languages, samples, i) != Some(UnknownLanguage)
    decreases |samples| - i
  {
    if i < |samples| {
      KnownLanguagesAreFound(expected, languages, samples, i + 1);
    }
  }

  /** An entry that scores one sample of the private map with the best scores. */
  function FullMarks(id: string, language: string): RawSample {
    RawSample(Some(id), Some(language), Some(map d | d in DIMENSION_SET :: Some(5.0)), Some(false), Some(false))
  }

  function Repeated(sample: RawSample, count: nat): seq<RawSample> {
    seq(count, i requires 0 <= i < count => sample)
  }

  lemma {:induction false} FullMarksOfUnknown(expected: map<string, string>, languages: seq<string>, id: string)
    requires id in expected && expected[id] !in languages
    ensures CardError(expected, languages, true, Repeated(FullMarks(id, expected[id]), |expected|)) ==
      Some(UnknownLanguage)
  {
    var sample := FullMarks(id, expected[id]);
    var samples := Repeated(sample, |expected|);
    assert |expected.Keys| > 0 && |samples| > 0;
    assert sample.scores.value.Keys == DIMENSION_SET;
    assert EntryError(expected, Known(languages), {}, sample) == Some(UnknownLanguage);
    assert samples[0] == sample && ObservedUpTo(samples, 0) == {};
  }

  /**
   * The private map decides whether a scorecard can end in a missing language: some scorecard does if
   * and only if the candidate lacks a language of the map.
   */
  lemma {:induction false} UnknownLanguageIffMissing(expected: map<string, string>, languages: seq<string>)
    ensures (exists samples :: CardError(expected, languages, true, samples) == Some(UnknownLanguage)) <==>
      !(expected.Values <= Known(languages))
  {
    if expected.Values <= Known(languages) {
      forall samples
        ensures CardError(expected, languages, true, samples) != Some(UnknownLanguage)
      {
        KnownLanguagesAreFound(expected, Known(languages), samples, 0);
        MeansErrorIsNoScores(samples, languages, 0);
      }
    } else {
      var language :| language in expected.Values && language !in Known(languages);
      var id :| id in expected && expected[id] == language;
      FullMarksOfUnknown(expected, languages, id);
    }
  }

  lemma {:induction false} MeansErrorIsNoScores(samples: seq<RawSample>, languages: seq<string>, l: nat)
    requires l <= |languages|
    ensures MeansError(samples, languages, l).Some? ==> MeansError(samples, languages, l).value == NoScores
    decreases |languages| - l
  {
    if l < |languages| {
      MeansErrorIsNoScores(samples, languages, l + 1);
    }
  }

  /** One English sample with full marks, for a candidate that also speaks Spanish. */
  lemma UnusedLanguageWitness()
    ensures CardError(map["a" := "en"], ["en", "es"], true, [FullMarks("a", "en")]) == Some(NoScores)
    ensures CardError(map["a" := "fr"], ["en", "es"], true, [FullMarks("a", "fr")]) == Some(UnknownLanguage)
  {
    AcceptedFullMarks("a", "en", ["en", "es"]);
    NoScoresIffLanguageUnused(map["a" := "en"], ["en", "es"], [FullMarks("a", "en")]);
    assert ["en", "es"][1] !in map["a" := "en"].Values;
    FullMarksOfUnknown(map["a" := "fr"], ["en", "es"], "a");
    assert Repeated(FullMarks("a", "fr"), 1) == [FullMarks("a", "fr")];
  }

  lemma {:induction false} FullMarksValid(id: string, language: string, d: nat)
    requires d <= |DIMENSIONS|
    ensures ScoresValid(FullMarks(id, language).scores.value, d)
    decreases |DIMENSIONS| - d
  {
    if d < |DIMENSIONS| {
      FullMarksValid(id, language, d + 1);
      assert DIMENSIONS[d] in DIMENSION_SET;
    }
  }

  lemma {:induction false} AcceptedFullMarks(id: string, language: string, languages: seq<string>)
    requires language in languages
    ensures FirstError(map[id := language], Known(languages), [FullMarks(id, language)], 0) == None
  {
    var sample := FullMarks(id, language);
    FullMarksValid(id, language, 0);
    assert sample.scores.value.Keys == DIMENSION_SET;
    assert EntryError(map[id := language], Known(languages), {}, sample) == None;
    assert ObservedUpTo([sample], 0) == {};
  }

  // ---------------------------------------------------------------- the aggregation

  /** The scores of one entry are appended dimension by dimension; an invalid one stops the aggregation. */
  method AppendScores(scores: seq<seq<real>>, sample: RawSample) returns (r: Option<seq<seq<real>>>)
    requires |scores| == 6 && sample.scores.Some?
    requires sample.scores.value.Keys == DIMENSION_SET
    ensures r.Some? <==> ScoresValid(sample.scores.value, 0)
    ensures r.Some? ==> |r.value| == 6 && forall d :: 0 <= d < 6 ==> r.value[d] == scores[d] + [ScoreOf(sample, d)]
  {
    var grown := scores;
    for d := 0 to |DIMENSIONS|
      invariant |grown| == 6
      invariant ScoresValid(sample.scores.value, 0) == ScoresValid(sample.scores.value, d)
      invariant forall k :: 0 <= k < d ==> grown[k] == scores[k] + [ScoreOf(sample, k)]
      invariant forall k :: d <= k < 6 ==> grown[k] == scores[k]
    {
      assert DIMENSIONS[d] in DIMENSION_SET;
      var score := sample.scores.value[DIMENSIONS[d]];
      if !ScoreValid(score) {
        return None;
      }
      grown := grown[d := grown[d] + [score.value]];
    }
    r := Some(grown);
  }

  /** One entry joins the accumulators of its language. */
  method AddSample(target: Totals, sample: RawSample) returns (r: Option<Totals>)
    requires |target.scores| == 6 && sample.scores.Some?
    requires sample.scores.value.Keys == DIMENSION_SET
    ensures r.Some? <==> ScoresValid(sample.scores.value, 0)
    ensures r.Some? ==> r.value == Add(target, sample)
  {
    var scores := AppendScores(target.scores, sample);
    if scores.None? {
      return None;
    }
    var grown := Totals(
      scores.value,
      target.defects + (if sample.meaningChangingDefect == Some(true) then 1 else 0),
      target.wrongLanguage + (if sample.wrongLanguage == Some(true) then 1 else 0),
      target.sampleCount + 1);
    assert grown.scores == Add(target, sample).scores;
    r := Some(grown);
  }

  /** The accumulators by language agree with the first `i` entries. */
  ghost predicate Accumulated(byLanguage: map<string, Totals>, languages: set<string>, samples: seq<RawSample>, i: nat)
    requires i <= |samples|
  {
    byLanguage.Keys == languages && forall l :: l in languages ==> byLanguage[l] == TotalsFor(samples, i, l)
  }

  lemma {:induction false} AccumulatedStep(
    byLanguage: map<string, Totals>, languages: set<string>, samples: seq<RawSample>, i: nat, language: string)
    requires i < |samples| && Accumulated(byLanguage, languages, samples, i)
    requires samples[i].language == Some(language) && language in languages
    ensures Accumulated(byLanguage[language := Add(byLanguage[language], samples[i])], languages, samples, i + 1)
  {
  }

  method Accumulate(expected: map<string, string>, languages: seq<string>, samples: seq<RawSample>)
    returns (r: Result<(map<string, Totals>, set<string>), AggregateError>)
    ensures FirstError(expected, Known(languages), samples, 0) == if r.Success? then None else Some(r.error)
    ensures r.Success? ==>
      && Accumulated(r.value.0, Known(languages), samples, |samples|)
      && r.value.1 == ObservedUpTo(samples, |samples|)
  {
    ghost var known := Known(languages);
    var byLanguage: map<string, Totals> := map l | l in languages :: EMPTY;
    var observed: set<string> := {};
    for i := 0 to |samples|
      invariant Accumulated(byLanguage, known, samples, i)
      invariant observed == ObservedUpTo(samples, i)
      invariant FirstError(expected, known, samples, 0) == FirstError(expected, known, samples, i)
    {
      var sample := samples[i];
      if !EntryValid(expected, observed, sample) {
        return Failure(Rejected);
      }
      var language := sample.language.value;
      observed := observed + {sample.sampleId.value};
      if language !in byLanguage {
        return Failure(UnknownLanguage);
      }
      var grown := AddSample(byLanguage[language], sample);
      if grown.None? {
        return Failure(Rejected);
      }
      AccumulatedStep(byLanguage, known, samples, i, language);
      byLanguage := byLanguage[language := grown.value];
    }
    r := Success((byLanguage, observed));
  }

  method Aggregate(
    privateMap: seq<PrivateSample>, languages: seq<string>, header: Header, required: Header, samples: seq<RawSample>)
    returns (r: Result<seq<LanguageAggregate>, AggregateError>)
    ensures CardError(ExpectedOf(privateMap), languages, header == required, samples) ==
      if r.Success? then None else Some(r.error)
    ensures r.Success? ==> r.value == Aggregates(samples, languages)
  {
    var expected := ExpectedOf(privateMap);
    if header != required || |samples| != |expected| {
      return Failure(Rejected);
    }
    var accumulated := Accumulate(expected, languages, samples);
    if accumulated.Failure? {
      return Failure(accumulated.error);
    }
    var (byLanguage, observed) := accumulated.value;
    AllSamplesObserved(expected, Known(languages), samples);
    if observed != expected.Keys {
      assert false;
    }
    r := AggregateLanguages(byLanguage, languages, samples);
  }

  /** The accumulators of every language become its means and counts; a language without scores has none. */
  method AggregateLanguages(byLanguage: map<string, Totals>, languages: seq<string>, ghost samples: seq<RawSample>)
    returns (r: Result<seq<LanguageAggregate>, AggregateError>)
    requires Accumulated(byLanguage, Known(languages), samples, |samples|)
    ensures MeansError(samples, languages, 0) == if r.Success? then None else Some(r.error)
    ensures r.Success? ==> r.value == Aggregates(samples, languages)
  {
    var aggregates: seq<LanguageAggregate> := [];
    ghost var planned := Aggregates(samples, languages);
    for l := 0 to |languages|
      invariant MeansError(samples, languages, 0) == MeansError(samples, languages, l)
      invariant aggregates == planned[..l]
    {
      var totals := byLanguage[languages[l]];
      if totals.sampleCount == 0 {
        return Failure(NoScores);
      }
      assert planned[..l + 1] == planned[..l] + [planned[l]];
      aggregates := aggregates + [AggregateOf(languages[l], totals)];
    }
    assert aggregates == planned;
    r := Success(aggregates);
  }
}
