/** Scoring retrieval evidence: one query's score, and the summary of all cases. Averages are exact. */
module Scoring {
  import opened Outcomes

  datatype Score = Score(
    recallAt10: Option<real>, precisionNumerator: nat, precisionDenominator: nat,
    abstained: bool, forbiddenIds: set<string>, unsupportedIds: set<string>)

  datatype Case = Case(id: string, expected: seq<string>, score: Score, error: bool)

  datatype Summary = Summary(
    cases: nat, answerable: nat, noAnswer: nat, recallAt10: Option<real>, finalEvidencePrecision: real, emittedEvidence: nat,
    noAnswerAbstention: Option<real>, forbiddenCases: seq<string>, errorCases: seq<string>, failedCases: seq<string>)

  datatype SummaryError = NoCases | DuplicateIdentity

  function Elements(ids: seq<string>): set<string> {
    set i | i in ids
  }

  function Fraction(part: nat, whole: nat): real
    requires whole > 0
  {
    part as real / whole as real
  }

  function ScoreEvidence(expected: seq<string>, forbidden: seq<string>, ranked: seq<string>, delivered: seq<string>): Score {
    var top, final := Elements(if |ranked| > 10 then ranked[..10] else ranked), Elements(delivered);
    var gold := Elements(expected);
    Score(
      if gold != {} then Some(Fraction(|top * gold|, |gold|)) else None,
      |final * gold|, |final|, |final| == 0, (top + final) * Elements(forbidden), final - gold)
  }

  // ---- the summary ----

  function Answerable(rows: seq<Case>, answerable: bool): seq<Case> {
    if rows == [] then []
    else (if (rows[0].expected != []) == answerable then [rows[0]] else []) + Answerable(rows[1..], answerable)
  }

  function Numerators(rows: seq<Case>): nat {
    if rows == [] then 0 else rows[0].score.precisionNumerator + Numerators(rows[1..])
  }

  function Denominators(rows: seq<Case>): nat {
    if rows == [] then 0 else rows[0].score.precisionDenominator + Denominators(rows[1..])
  }

  function Recall(row: Case): real {
    if row.score.recallAt10.Some? then row.score.recallAt10.value else 0.0
  }

  function Recalls(rows: seq<Case>): real {
    if rows == [] then 0.0 else Recall(rows[0]) + Recalls(rows[1..])
  }

  predicate Abstains(row: Case) {
    row.score.abstained && !row.error
  }

  function Abstentions(rows: seq<Case>): nat {
    if rows == [] then 0 else (if Abstains(rows[0]) then 1 else 0) + Abstentions(rows[1..])
  }

  predicate Fails(row: Case) {
    || row.error || row.score.forbiddenIds != {} || row.score.unsupportedIds != {}
    || (row.expected != [] && row.score.recallAt10 != Some(1.0)) || (row.expected == [] && !row.score.abstained)
  }

  function IdsOf(rows: seq<Case>, which: Case -> bool): seq<string> {
    if rows == [] then [] else (if which(rows[0]) then [rows[0].id] else []) + IdsOf(rows[1..], which)
  }

  function Ids(rows: seq<Case>): set<string> {
    set r | r in rows :: r.id
  }

  function Summarize(rows: seq<Case>): Result<Summary, SummaryError> {
    if rows == [] then Err(NoCases)
    else if |Ids(rows)| != |rows| then Err(DuplicateIdentity)
    else
      var answerable, noAnswer := Answerable(rows, true), Answerable(rows, false);
      var numerator, denominator := Numerators(rows), Denominators(rows);
      Ok(Summary(
        |rows|, |answerable|, |noAnswer|,
        if answerable != [] then Some(Recalls(answerable) / |answerable| as real) else None,
        if denominator > 0 then Fraction(numerator, denominator) else 1.0, denominator,
        if noAnswer != [] then Some(Fraction(Abstentions(noAnswer), |noAnswer|)) else None,
        IdsOf(rows, (r: Case) => r.score.forbiddenIds != {}), IdsOf(rows, (r: Case) => r.error), IdsOf(rows, Fails)))
  }

  // ---- what one score guarantees ----

  /** A case whose score was made from its expectations. */
  ghost predicate Scored(row: Case) {
    exists forbidden, ranked, delivered :: row.score == ScoreEvidence(row.expected, forbidden, ranked, delivered)
  }

  lemma FractionAtMostOne(part: nat, whole: nat)
    requires part <= whole && whole > 0
    ensures 0.0 <= Fraction(part, whole) <= 1.0
    ensures Fraction(part, whole) == 1.0 <==> part == whole
  {
    var q := Fraction(part, whole);
    assert q * whole as real == part as real;
    assert q > 1.0 ==> q * whole as real > whole as real;
    assert q < 0.0 ==> q * whole as real < 0.0;
  }

  lemma SubsetCount<T>(a: set<T>, b: set<T>)
    requires a <= b
    ensures |a| <= |b| && (|a| == |b| <==> a == b)
  {
    assert b == a + (b - a);
    assert |b| == |a| + |b - a|;
  }

  /** What a row's score promises whatever was retrieved. */
  predicate Sound(row: Case) {
    && (row.score.recallAt10.Some? <==> row.expected != [])
    && (row.score.recallAt10.Some? ==> 0.0 <= row.score.recallAt10.value <= 1.0)
    && row.score.precisionNumerator <= row.score.precisionDenominator
    && (row.score.unsupportedIds == {} <==> row.score.precisionNumerator == row.score.precisionDenominator)
    && (row.score.abstained <==> row.score.precisionDenominator == 0)
    && (row.expected == [] ==> row.score.precisionNumerator == 0)
  }

  lemma ScoredIsSound(row: Case)
    requires Scored(row)
    ensures Sound(row)
  {
    hide Elements, Fraction, ScoreEvidence;
    var forbidden, ranked, delivered :| row.score == ScoreEvidence(row.expected, forbidden, ranked, delivered);
    ScoreIsSound(row, forbidden, ranked, delivered);
  }

  lemma NoElements(ids: seq<string>)
    ensures Elements(ids) == {} <==> ids == []
  {
    if ids != [] { assert ids[0] in Elements(ids); }
  }

  lemma ScoreIsSound(row: Case, forbidden: seq<string>, ranked: seq<string>, delivered: seq<string>)
    requires row.score == ScoreEvidence(row.expected, forbidden, ranked, delivered)
    ensures Sound(row)
  {
    hide Elements, Fraction;
    var top, final := Elements(if |ranked| > 10 then ranked[..10] else ranked), Elements(delivered);
    var gold := Elements(row.expected);
    NoElements(row.expected);
    Overlap(gold, top);
    Overlap(final, gold);
    assert top * gold == gold * top;
    if gold != {} { FractionAtMostOne(|top * gold|, |gold|); }
  }

  lemma Overlap(whole: set<string>, part: set<string>)
    ensures |whole * part| <= |whole|
    ensures whole - part == {} <==> |whole * part| == |whole|
    ensures part == {} ==> |whole * part| == 0
  {
    SubsetCount(whole * part, whole);
    if whole - part == {} {
      forall x | x in whole ensures x in part { assert x !in whole - part; }
      assert whole * part == whole;
    }
    if whole * part == whole {
      forall x | x in whole ensures x in part { assert x in whole * part; }
      assert whole - part == {};
    }
    if part == {} { assert whole * part == {}; }
  }

  // ---- averages ----

  lemma {:induction false} AnswerableRows(rows: seq<Case>, answerable: bool)
    ensures forall r :: r in Answerable(rows, answerable) <==> r in rows && (r.expected != []) == answerable
  {
    if rows != [] {
      AnswerableRows(rows[1..], answerable);
      assert forall r :: r in rows <==> r == rows[0] || r in rows[1..];
    }
  }

  lemma {:induction false} RecallsAverage(rows: seq<Case>)
    requires forall r :: r in rows ==> 0.0 <= Recall(r) <= 1.0
    ensures 0.0 <= Recalls(rows) <= |rows| as real
    ensures Recalls(rows) == |rows| as real <==> forall r :: r in rows ==> Recall(r) == 1.0
  {
    if rows != [] {
      RecallsAverage(rows[1..]);
      assert rows[0] in rows && forall r :: r in rows <==> r == rows[0] || r in rows[1..];
    }
  }

  lemma {:induction false} PooledPrecision(rows: seq<Case>)
    requires forall r :: r in rows ==> r.score.precisionNumerator <= r.score.precisionDenominator
    ensures Numerators(rows) <= Denominators(rows)
    ensures Numerators(rows) == Denominators(rows) <==> forall r :: r in rows ==> r.score.precisionNumerator == r.score.precisionDenominator
  {
    if rows != [] {
      PooledPrecision(rows[1..]);
      assert rows[0] in rows && forall r :: r in rows <==> r == rows[0] || r in rows[1..];
    }
  }

  lemma {:induction false} AbstentionCount(rows: seq<Case>)
    ensures Abstentions(rows) <= |rows|
    ensures Abstentions(rows) == |rows| <==> forall r :: r in rows ==> Abstains(r)
  {
    if rows != [] {
      AbstentionCount(rows[1..]);
      assert rows[0] in rows && forall r :: r in rows <==> r == rows[0] || r in rows[1..];
    }
  }

  lemma {:induction false} NoIdsExactly(rows: seq<Case>, which: Case -> bool)
    ensures IdsOf(rows, which) == [] <==> forall r :: r in rows ==> !which(r)
  {
    if rows != [] {
      NoIdsExactly(rows[1..], which);
      assert rows[0] in rows && forall r :: r in rows <==> r == rows[0] || r in rows[1..];
    }
  }

  // ---- the summary's ratios and its failures ----

  predicate IsRatio(r: Option<real>) {
    r.Some? ==> 0.0 <= r.value <= 1.0
  }

  predicate Perfect(r: Option<real>) {
    r.Some? ==> r.value == 1.0
  }

  lemma MeanRecall(rows: seq<Case>, s: Summary)
    requires (forall r :: r in rows ==> Sound(r)) && Summarize(rows) == Ok(s)
    ensures IsRatio(s.recallAt10)
    ensures Perfect(s.recallAt10) <==> forall r :: r in rows && r.expected != [] ==> r.score.recallAt10 == Some(1.0)
  {
    var answerable := Answerable(rows, true);
    AnswerableRows(rows, true);
    forall r | r in answerable ensures r in rows && r.expected != [] && Sound(r) {}
    RecallsAverage(answerable);
    if answerable != [] { RealFractionAtMostOne(Recalls(answerable), |answerable|); }
    assert forall r :: r in rows && r.expected != [] <==> r in answerable;
  }

  lemma RealFractionAtMostOne(part: real, whole: nat)
    requires 0.0 <= part <= whole as real && whole > 0
    ensures 0.0 <= part / whole as real <= 1.0
    ensures part / whole as real == 1.0 <==> part == whole as real
  {
    var w: real := whole as real;
    var q := part / w;
    assert q * w == part;
    if q < 0.0 { PositiveProduct(-q, w); }
    if q < 1.0 { PositiveProduct(1.0 - q, w); }
    if q > 1.0 { PositiveProduct(q - 1.0, w); }
  }

  lemma PositiveProduct(a: real, b: real)
    requires a > 0.0 && b > 0.0
    ensures a * b > 0.0
  {
  }

  lemma PooledRatio(rows: seq<Case>, s: Summary)
    requires (forall r :: r in rows ==> Sound(r)) && Summarize(rows) == Ok(s)
    ensures 0.0 <= s.finalEvidencePrecision <= 1.0
    ensures s.finalEvidencePrecision == 1.0 <==> forall r :: r in rows ==> r.score.unsupportedIds == {}
  {
    PooledPrecision(rows);
    if Denominators(rows) > 0 { FractionAtMostOne(Numerators(rows), Denominators(rows)); }
  }

  lemma AbstentionRatio(rows: seq<Case>, s: Summary)
    requires Summarize(rows) == Ok(s)
    ensures IsRatio(s.noAnswerAbstention)
    ensures Perfect(s.noAnswerAbstention) <==> forall r :: r in rows && r.expected == [] ==> Abstains(r)
  {
    var noAnswer := Answerable(rows, false);
    AnswerableRows(rows, false);
    AbstentionCount(noAnswer);
    if noAnswer != [] { FractionAtMostOne(Abstentions(noAnswer), |noAnswer|); }
    assert forall r :: r in rows && r.expected == [] <==> r in noAnswer;
  }

  lemma RatiosAreRatios(rows: seq<Case>, s: Summary)
    requires (forall r :: r in rows ==> Scored(r)) && Summarize(rows) == Ok(s)
    ensures IsRatio(s.recallAt10) && 0.0 <= s.finalEvidencePrecision <= 1.0 && IsRatio(s.noAnswerAbstention)
  {
    forall r | r in rows ensures Sound(r) { ScoredIsSound(r); }
    MeanRecall(rows, s);
    PooledRatio(rows, s);
    AbstentionRatio(rows, s);
  }

  /** No case fails exactly when every aggregate is perfect: the averages hide nothing. */
  lemma NoFailureExactly(rows: seq<Case>, s: Summary)
    requires (forall r :: r in rows ==> Scored(r)) && Summarize(rows) == Ok(s)
    ensures s.failedCases == [] <==>
              && Perfect(s.recallAt10) && s.finalEvidencePrecision == 1.0 && Perfect(s.noAnswerAbstention)
              && s.forbiddenCases == [] && s.errorCases == []
  {
    forall r | r in rows ensures Sound(r) { ScoredIsSound(r); }
    MeanRecall(rows, s);
    PooledRatio(rows, s);
    AbstentionRatio(rows, s);
    NoIdsExactly(rows, Fails);
    NoIdsExactly(rows, (r: Case) => r.error);
    NoIdsExactly(rows, (r: Case) => r.score.forbiddenIds != {});
    hide Summarize, Sound, Scored, IsRatio, Perfect;
    assert forall r :: r in rows ==> (Fails(r) <==>
      r.error || r.score.forbiddenIds != {} || r.score.unsupportedIds != {}
      || (r.expected != [] && r.score.recallAt10 != Some(1.0)) || (r.expected == [] && !Abstains(r)));
  }
}
