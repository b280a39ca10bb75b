/**
 * The risk scoring engine, `calculateMentalHealthPrediction`: a pure function of
 * the mood ledger, the latest PHQ-9 total and the number of journal entries.
 * The app re-derives it whenever one of those changes, so it is never stored.
 * Arithmetic is exact (`real`); the source computes in IEEE doubles.
 */
module Risk {
  import opened Ledger

  datatype RiskLevel = Low | Moderate | High

  /** The order of the levels, for stating monotonicity. */
  function Rank(level: RiskLevel): nat {
    match level
    case Low => 0
    case Moderate => 1
    case High => 2
  }

  /** Average used when no valid mood has been recorded. */
  const NEUTRAL_MOOD: real := 3.0
  const HIGH_THRESHOLD: real := 15.0
  const MODERATE_THRESHOLD: real := 8.0
  /** Fewer journal entries than this counts as low engagement. */
  const ENGAGED_ENTRIES := 3

  predicate IsValidMood(mood: int) {
    1 <= mood <= 5
  }

  /** The defensive filter: the entries whose mood lies in 1..5, in ledger order. */
  function ValidEntries(moodData: seq<MoodEntry>): (r: seq<MoodEntry>)
    ensures |r| <= |moodData|
    ensures forall k :: 0 <= k < |r| ==> IsValidMood(r[k].mood)
  {
    if moodData == [] then []
    else if IsValidMood(moodData[0].mood) then [moodData[0]] + ValidEntries(moodData[1..])
    else ValidEntries(moodData[1..])
  }

  /** The filter distributes over concatenation: with `ValidEntries([]) == []` this pins it down, order included. */
  lemma {:induction false} ValidEntriesAppend(a: seq<MoodEntry>, b: seq<MoodEntry>)
    ensures ValidEntries(a + b) == ValidEntries(a) + ValidEntries(b)
    decreases |a|
  {
    if a == [] {
      assert a + b == b;
    } else {
      assert (a + b)[0] == a[0] && (a + b)[1..] == a[1..] + b;
      ValidEntriesAppend(a[1..], b);
    }
  }

  /** Every entry with a mood in 1..5 is kept as often as it occurs, and no other entry is kept. */
  lemma {:induction false} ValidEntriesCount(moodData: seq<MoodEntry>, e: MoodEntry)
    ensures multiset(ValidEntries(moodData))[e] == if IsValidMood(e.mood) then multiset(moodData)[e] else 0
    decreases |moodData|
  {
    if moodData != [] {
      assert moodData == [moodData[0]] + moodData[1..];
      ValidEntriesCount(moodData[1..], e);
    }
  }

  /** Sum of the mood values (the `reduce`). */
  function MoodSum(entries: seq<MoodEntry>): int {
    if entries == [] then 0 else entries[0].mood + MoodSum(entries[1..])
  }

  /** Moods in 1..5 sum to between n and 5n. */
  lemma {:induction false} MoodSumBounds(entries: seq<MoodEntry>)
    requires forall k :: 0 <= k < |entries| ==> IsValidMood(entries[k].mood)
    ensures |entries| <= MoodSum(entries) <= 5 * |entries|
  {
    if entries != [] {
      MoodSumBounds(entries[1..]);
    }
  }

  /** Mean of the valid moods, or the neutral 3 when there are none; it lies on the mood scale 1..5. */
  function AverageMood(moodData: seq<MoodEntry>): (r: real)
    ensures 1.0 <= r <= 5.0
    ensures |ValidEntries(moodData)| == 0 ==> r == NEUTRAL_MOOD
  {
    var valid := ValidEntries(moodData);
    if |valid| > 0 then
      MoodSumBounds(valid);
      DivisionBounds(MoodSum(valid) as real, |valid| as real);
      MoodSum(valid) as real / |valid| as real
    else NEUTRAL_MOOD
  }

  lemma DivisionBounds(total: real, n: real)
    requires n > 0.0 && n <= total <= 5.0 * n
    ensures 1.0 <= total / n <= 5.0
  {
  }

  /** Lower mood means more risk: `(5 - avg) * 2`, between 0 (all moods 5) and 8 (all moods 1). */
  function MoodWeight(moodData: seq<MoodEntry>): (r: real)
    ensures 0.0 <= r <= 8.0
  {
    (5.0 - AverageMood(moodData)) * 2.0
  }

  function Phq9Weight(phq9Score: int): real {
    phq9Score as real * 0.5
  }

  /** Low journaling engagement is a mild risk signal. */
  function JournalWeight(journalCount: nat): real {
    if journalCount < ENGAGED_ENTRIES then 2.0 else 0.0
  }

  /** The total: the mood and journaling weights add between 0 and 10 to the PHQ-9 weight. */
  function TotalScore(moodData: seq<MoodEntry>, phq9Score: int, journalCount: nat): (r: real)
    ensures Phq9Weight(phq9Score) <= r <= Phq9Weight(phq9Score) + 10.0
  {
    MoodWeight(moodData) + Phq9Weight(phq9Score) + JournalWeight(journalCount)
  }

  /** Exactly one level, by the thresholds 15 and 8. */
  function Classify(total: real): (r: RiskLevel)
    ensures r == High <==> total >= HIGH_THRESHOLD
    ensures r == Moderate <==> MODERATE_THRESHOLD <= total < HIGH_THRESHOLD
    ensures r == Low <==> total < MODERATE_THRESHOLD
  {
    if total >= HIGH_THRESHOLD then High
    else if total >= MODERATE_THRESHOLD then Moderate
    else Low
  }

  /**
   * `calculateMentalHealthPrediction`. The level is never below the one the
   * PHQ-9 weight alone would give, and with no valid mood and no PHQ-9 total it is low.
   */
  function CalculateMentalHealthPrediction(moodData: seq<MoodEntry>, phq9Score: int, journalCount: nat): (r: RiskLevel)
    ensures Rank(Classify(Phq9Weight(phq9Score))) <= Rank(r)
    ensures |ValidEntries(moodData)| == 0 && phq9Score <= 0 ==> r == Low
  {
    var total := TotalScore(moodData, phq9Score, journalCount);
    ClassifyMonotone(Phq9Weight(phq9Score), total);
    Classify(total)
  }

  /** Exactly one level, chosen by the two thresholds on the total. */
  lemma PredictionThresholds(moodData: seq<MoodEntry>, phq9Score: int, journalCount: nat)
    ensures var total := TotalScore(moodData, phq9Score, journalCount);
            var level := CalculateMentalHealthPrediction(moodData, phq9Score, journalCount);
      && (level == High <==> total >= 15.0)
      && (level == Moderate <==> 8.0 <= total < 15.0)
      && (level == Low <==> total < 8.0)
  {
  }

  /** A larger total never yields a lower level. */
  lemma ClassifyMonotone(t1: real, t2: real)
    requires t1 <= t2
    ensures Rank(Classify(t1)) <= Rank(Classify(t2))
  {
  }

  /**
   * With no valid mood the average is the neutral 3; with no PHQ-9 total
   * either, the total is 4 + 0 + 2 (or 4 with three journal entries) and the level is low.
   */
  lemma NoDataIsLow(moodData: seq<MoodEntry>, journalCount: nat)
    requires forall k :: 0 <= k < |moodData| ==> !IsValidMood(moodData[k].mood)
    ensures TotalScore(moodData, 0, journalCount) == if journalCount < 3 then 6.0 else 4.0
    ensures CalculateMentalHealthPrediction(moodData, 0, journalCount) == Low
  {
    NoValidMoods(moodData);
  }

  lemma {:induction false} NoValidMoods(moodData: seq<MoodEntry>)
    requires forall k :: 0 <= k < |moodData| ==> !IsValidMood(moodData[k].mood)
    ensures ValidEntries(moodData) == []
  {
    if moodData != [] {
      NoValidMoods(moodData[1..]);
    }
  }

  /** One valid mood anywhere in the ledger means the average is over at least one entry. */
  lemma {:induction false} SomeValidMood(moodData: seq<MoodEntry>, i: int)
    requires 0 <= i < |moodData| && IsValidMood(moodData[i].mood)
    ensures |ValidEntries(moodData)| > 0
  {
    if i > 0 && !IsValidMood(moodData[0].mood) {
      SomeValidMood(moodData[1..], i - 1);
    }
  }

  /** Entries the app stores always have a mood in 1..5, and then the filter keeps them all. */
  lemma {:induction false} ValidLedgerKeepsAll(moodData: seq<MoodEntry>)
    requires forall k :: 0 <= k < |moodData| ==> IsValidMood(moodData[k].mood)
    ensures ValidEntries(moodData) == moodData
  {
    if moodData != [] {
      ValidLedgerKeepsAll(moodData[1..]);
    }
  }

  /**
   * The total scaled by 2n, for n valid moods summing to S:
   * X = 4(5n - S) + n * phq9Score + (4n if fewer than 3 journal entries).
   */
  function IntegerScaledTotal(n: int, s: int, phq9Score: int, lowEngagement: bool): int {
    4 * (5 * n - s) + n * phq9Score + (if lowEngagement then 4 * n else 0)
  }

  /** Clearing the denominator: with avg = s / n, multiplying the total by 2n gives the integer X. */
  lemma ClearedArithmetic(avg: real, s: int, n: int, p: int, lowEngagement: bool, t: real)
    requires n > 0 && avg == s as real / n as real
    requires t == (5.0 - avg) * 2.0 + p as real * 0.5 + (if lowEngagement then 2.0 else 0.0)
    ensures 2.0 * (n as real) * t == IntegerScaledTotal(n, s, p, lowEngagement) as real
  {
  }

  /**
   * The classification in integers: with n > 0 valid moods summing to S,
   * the level is high iff X >= 30n, moderate iff 16n <= X < 30n and low iff X < 16n.
   */
  lemma IntegerClassification(moodData: seq<MoodEntry>, phq9Score: int, journalCount: nat)
    requires |ValidEntries(moodData)| > 0
    ensures var n := |ValidEntries(moodData)|;
            var x := IntegerScaledTotal(n, MoodSum(ValidEntries(moodData)), phq9Score, journalCount < 3);
            var level := CalculateMentalHealthPrediction(moodData, phq9Score, journalCount);
      && (level == High <==> x >= 30 * n)
      && (level == Moderate <==> 16 * n <= x < 30 * n)
      && (level == Low <==> x < 16 * n)
  {
    var valid := ValidEntries(moodData);
    ClassifyMean(AverageMood(moodData), MoodSum(valid), |valid|, phq9Score, journalCount < 3,
                 TotalScore(moodData, phq9Score, journalCount));
  }

  /** The classification of a total built on the mean s / n, in integers. */
  lemma ClassifyMean(avg: real, s: int, n: int, p: int, lowEngagement: bool, t: real)
    requires n > 0 && avg == s as real / n as real
    requires t == (5.0 - avg) * 2.0 + p as real * 0.5 + (if lowEngagement then 2.0 else 0.0)
    ensures var x := IntegerScaledTotal(n, s, p, lowEngagement);
      && (Classify(t) == High <==> x >= 30 * n)
      && (Classify(t) == Moderate <==> 16 * n <= x < 30 * n)
      && (Classify(t) == Low <==> x < 16 * n)
  {
    ClearedArithmetic(avg, s, n, p, lowEngagement, t);
    ClassifyScaled(t, n as real, IntegerScaledTotal(n, s, p, lowEngagement) as real);
  }

  /** Classifying t is comparing x = 2n * t against 30n and 16n. */
  lemma ClassifyScaled(t: real, n: real, x: real)
    requires n > 0.0 && 2.0 * n * t == x
    ensures Classify(t) == High <==> x >= 30.0 * n
    ensures Classify(t) == Moderate <==> 16.0 * n <= x < 30.0 * n
    ensures Classify(t) == Low <==> x < 16.0 * n
  {
    assert x - 30.0 * n == (t - 15.0) * (2.0 * n);
    assert x - 16.0 * n == (t - 8.0) * (2.0 * n);
    SignOfProduct(t - 15.0, 2.0 * n);
    SignOfProduct(t - 8.0, 2.0 * n);
  }

  lemma SignOfProduct(a: real, b: real)
    requires b > 0.0
    ensures a >= 0.0 <==> a * b >= 0.0
  {
    if a < 0.0 {
      assert (-a) * b > 0.0;
    }
  }

  /** Raising the PHQ-9 total never lowers the level. */
  lemma Phq9Monotone(moodData: seq<MoodEntry>, lower: int, higher: int, journalCount: nat)
    requires lower <= higher
    ensures Rank(CalculateMentalHealthPrediction(moodData, lower, journalCount))
         <= Rank(CalculateMentalHealthPrediction(moodData, higher, journalCount))
  {
    ClassifyMonotone(TotalScore(moodData, lower, journalCount), TotalScore(moodData, higher, journalCount));
  }

  /** More journal entries never raise the level. */
  lemma JournalingMonotone(moodData: seq<MoodEntry>, phq9Score: int, fewer: nat, more: nat)
    requires fewer <= more
    ensures Rank(CalculateMentalHealthPrediction(moodData, phq9Score, more))
         <= Rank(CalculateMentalHealthPrediction(moodData, phq9Score, fewer))
  {
    ClassifyMonotone(TotalScore(moodData, phq9Score, more), TotalScore(moodData, phq9Score, fewer));
  }

  /** Lowering one valid mood keeps the number of valid moods and lowers their sum by the same amount. */
  lemma {:induction false} LowerOneMood(moodData: seq<MoodEntry>, i: int, v: int)
    requires 0 <= i < |moodData| && IsValidMood(moodData[i].mood) && IsValidMood(v)
    ensures var changed := moodData[i := moodData[i].(mood := v)];
      && |ValidEntries(changed)| == |ValidEntries(moodData)|
      && MoodSum(ValidEntries(changed)) == MoodSum(ValidEntries(moodData)) - moodData[i].mood + v
  {
    var changed := moodData[i := moodData[i].(mood := v)];
    if i == 0 {
      assert changed[1..] == moodData[1..];
    } else {
      assert changed[1..] == moodData[1..][i - 1 := moodData[i].(mood := v)];
      LowerOneMood(moodData[1..], i - 1, v);
    }
  }

  /** Lowering any valid mood value (to another valid one) never lowers the level. */
  lemma LowerMoodMonotone(moodData: seq<MoodEntry>, i: int, v: int, phq9Score: int, journalCount: nat)
    requires 0 <= i < |moodData| && IsValidMood(moodData[i].mood) && 1 <= v <= moodData[i].mood
    ensures var changed := moodData[i := moodData[i].(mood := v)];
      Rank(CalculateMentalHealthPrediction(moodData, phq9Score, journalCount))
        <= Rank(CalculateMentalHealthPrediction(changed, phq9Score, journalCount))
  {
    var changed := moodData[i := moodData[i].(mood := v)];
    LowerOneMood(moodData, i, v);
    SomeValidMood(moodData, i);
    var n := |ValidEntries(moodData)| as real;
    var s := MoodSum(ValidEntries(moodData)) as real;
    var s' := MoodSum(ValidEntries(changed)) as real;
    assert AverageMood(moodData) == s / n;
    assert AverageMood(changed) == s' / n;
    QuotientMonotone(s', s, n);
    ClassifyMonotone(TotalScore(moodData, phq9Score, journalCount), TotalScore(changed, phq9Score, journalCount));
  }

  lemma QuotientMonotone(a: real, b: real, n: real)
    requires n > 0.0 && a <= b
    ensures a / n <= b / n
  {
  }

  /** The five moods [1, 1, 2, 1, 2] of the worked examples, with placeholder dates and no notes. */
  function ExampleMoods(): seq<MoodEntry> {
    [MoodEntry("", 1, "", 0), MoodEntry("", 1, "", 0), MoodEntry("", 2, "", 0),
     MoodEntry("", 1, "", 0), MoodEntry("", 2, "", 0)]
  }

  /** The example moods average 1.4, so their mood weight is 7.2. */
  lemma ExampleMoodWeight()
    ensures AverageMood(ExampleMoods()) == 1.4
    ensures MoodWeight(ExampleMoods()) == 7.2
  {
  }

  /** The example moods, PHQ-9 total 10 and one journal entry: 7.2 + 5 + 2 = 14.2, moderate. */
  lemma ModerateScenario()
    ensures TotalScore(ExampleMoods(), 10, 1) == 14.2
    ensures CalculateMentalHealthPrediction(ExampleMoods(), 10, 1) == Moderate
  {
    ExampleMoodWeight();
  }

  /** The same moods with PHQ-9 total 20: 7.2 + 10 + 2 = 19.2, high. */
  lemma HighScenario()
    ensures TotalScore(ExampleMoods(), 20, 1) == 19.2
    ensures CalculateMentalHealthPrediction(ExampleMoods(), 20, 1) == High
  {
    ExampleMoodWeight();
  }
}
