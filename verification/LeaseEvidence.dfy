/** Comparing two snapshots of the lease rows with the callbacks each stored receipt claims. Tables are entry lists in
    insertion order with distinct keys, as the program's records are. */
module LeaseEvidence {
  import opened Outcomes

  type Entries<V> = seq<(string, V)>

  datatype Amount = Amount(input: int, output: int)
  datatype Tally = Tally(calls: nat, input: nat, output: nat)
  datatype Charge = Charge(reviewId: string, grantId: string, evaluation: Tally, reflection: Tally, budgetRefusals: nat)
  datatype SessionRow = SessionRow(reviewId: string, grantId: string)
  datatype Learning = Learning(revision: nat, outputLimit: nat)

  datatype Snapshot = Snapshot(
    ledger: Entries<Amount>, learning: Option<Learning>, sessions: Entries<SessionRow>, charges: Entries<Charge>)

  datatype Review = Review(
    reviewId: string, authority: string, complete: bool,
    learningRevision: Option<nat>, metricCalls: Option<nat>, reflectionCalls: Option<nat>)

  datatype Checks = Checks(sessionsNew: bool, ledgerMatches: bool, attributable: bool, noDoubleCharge: bool)

  function Get<V>(entries: Entries<V>, key: string): Option<V> {
    if entries == [] then None else if entries[0].0 == key then Some(entries[0].1) else Get(entries[1..], key)
  }

  predicate Distinct<V>(entries: Entries<V>) {
    forall i, j :: 0 <= i < j < |entries| ==> entries[i].0 != entries[j].0
  }

  /** The row key of a review; the digest of the review id is represented by the id itself, as an injective one. */
  function LeaseKey(prefix: string, reviewId: string): string {
    prefix + ":" + reviewId
  }

  function ChargeKey(r: Review): string {
    LeaseKey("procedure-evaluation-charges", r.reviewId)
  }

  function SessionKey(r: Review): string {
    LeaseKey("procedure-evaluation-session", r.reviewId)
  }

  lemma ChargeKeysAreInjective(r: Review, q: Review)
    requires ChargeKey(r) == ChargeKey(q)
    ensures r.reviewId == q.reviewId
  {
    var prefix := "procedure-evaluation-charges" + ":";
    assert ChargeKey(r)[|prefix|..] == r.reviewId && ChargeKey(q)[|prefix|..] == q.reviewId;
  }

  function Min(a: nat, b: nat): nat {
    if a <= b then a else b
  }

  // ---- the comparison ----

  /** What a review's callbacks reserve: at most 2000 output tokens an evaluation and 8000 a reflection. */
  function Each(r: Review, limit: Option<nat>): Option<(nat, nat)> {
    if limit.None? || r.metricCalls.None? || r.reflectionCalls.None? then None
    else Some((r.metricCalls.value * Min(2000, limit.value), r.reflectionCalls.value * Min(8000, limit.value)))
  }

  function Expected(reviews: seq<Review>, limit: Option<nat>): nat {
    if reviews == [] then 0
    else
      var last := Each(reviews[|reviews| - 1], limit);
      Expected(reviews[..|reviews| - 1], limit) + if last.None? then 0 else last.value.0 + last.value.1
  }

  /** Each day of either snapshot once, those of the first snapshot first. */
  function Days(before: Entries<Amount>, after: Entries<Amount>): seq<string> {
    KeysOf(before) + NewKeys(before, after)
  }

  function KeysOf<V>(entries: Entries<V>): seq<string> {
    if entries == [] then [] else [entries[0].0] + KeysOf(entries[1..])
  }

  function NewKeys<V>(before: Entries<V>, after: Entries<V>): seq<string> {
    if after == [] then []
    else if Get(before, after[0].0).Some? then NewKeys(before, after[1..])
    else [after[0].0] + NewKeys(before, after[1..])
  }

  function AmountOn(ledger: Entries<Amount>, day: string): Amount {
    match Get(ledger, day) case None => Amount(0, 0) case Some(a) => a
  }

  function LedgerDelta(days: seq<string>, before: Entries<Amount>, after: Entries<Amount>): Amount {
    if days == [] then Amount(0, 0)
    else
      var rest, was, now := LedgerDelta(days[1..], before, after), AmountOn(before, days[0]), AmountOn(after, days[0]);
      Amount(rest.input + now.input - was.input, rest.output + now.output - was.output)
  }

  function ChargeAmount(c: Option<Charge>): Amount {
    match c
    case None => Amount(0, 0)
    case Some(row) => Amount(row.evaluation.input + row.reflection.input, row.evaluation.output + row.reflection.output)
  }

  /** By how much each charge row of the second snapshot differs from the same row of the first. */
  function Changes(before: Entries<Charge>, after: Entries<Charge>): Entries<Amount> {
    if after == [] then []
    else
      var was, now := ChargeAmount(Get(before, after[0].0)), ChargeAmount(Some(after[0].1));
      [(after[0].0, Amount(now.input - was.input, now.output - was.output))] + Changes(before, after[1..])
  }

  function TotalOutput(entries: Entries<Amount>): int {
    if entries == [] then 0 else entries[0].1.output + TotalOutput(entries[1..])
  }

  function TotalInput(entries: Entries<Amount>): int {
    if entries == [] then 0 else entries[0].1.input + TotalInput(entries[1..])
  }

  /** A new charge row that names this review and its authority and carries exactly its callbacks. */
  predicate Exact(r: Review, limit: Option<nat>, before: Snapshot, after: Snapshot) {
    var row, want := Get(after.charges, ChargeKey(r)), Each(r, limit);
    && row.Some? && want.Some? && Get(before.charges, ChargeKey(r)).None?
    && row.value.reviewId == r.reviewId && row.value.grantId == r.authority
    && Some(row.value.evaluation.calls) == r.metricCalls && Some(row.value.reflection.calls) == r.reflectionCalls
    && row.value.evaluation.output == want.value.0 && row.value.reflection.output == want.value.1
  }

  predicate Refused(r: Review, after: Snapshot) {
    var row := Get(after.charges, ChargeKey(r));
    row.Some? && row.value.budgetRefusals > 0
  }

  predicate NewSession(r: Review, before: Snapshot, after: Snapshot) {
    Get(before.sessions, SessionKey(r)).None? && Get(after.sessions, SessionKey(r)) == Some(SessionRow(r.reviewId, r.authority))
  }

  /** Every review's callbacks are counted, and its learning settings are those of the second snapshot. */
  predicate Counted(reviews: seq<Review>, after: Snapshot) {
    && after.learning.Some?
    && forall r :: r in reviews ==>
         r.metricCalls.Some? && r.reflectionCalls.Some? && r.learningRevision == Some(after.learning.value.revision)
  }

  function Compare(reviews: seq<Review>, before: Option<Snapshot>, after: Option<Snapshot>): Checks {
    if before.None? || after.None? then Checks(false, false, false, false)
    else
      var b, a := before.value, after.value;
      var limit := if a.learning.Some? then Some(a.learning.value.outputLimit) else None;
      var delta := LedgerDelta(Days(b.ledger, a.ledger), b.ledger, a.ledger);
      var expected := Expected(reviews, limit);
      // Without learning settings every review is fenced off, so nothing can match unless there is no review at all.
      var counted := (reviews == [] || Counted(reviews, a));
      var sessionsNew := forall r :: r in reviews ==> NewSession(r, b, a);
      var ledgerMatches := counted && expected > 0 && delta.output == expected && delta.input > 0;
      if a.charges == [] then Checks(sessionsNew, ledgerMatches, false, false)
      else
        var changes := Changes(b.charges, a.charges);
        Checks(sessionsNew, ledgerMatches,
               counted && (forall r :: r in reviews ==> Exact(r, limit, b, a))
               && TotalInput(changes) == delta.input && TotalOutput(changes) == delta.output,
               (exists r :: r in reviews && Refused(r, a))
               && forall r :: r in reviews && Refused(r, a) ==> r.complete && Exact(r, limit, b, a))
  }

  predicate AllPass(c: Checks) {
    c.sessionsNew && c.ledgerMatches && c.attributable && c.noDoubleCharge
  }

  // ---- sums over tables ----

  lemma {:induction false} GetFinds<V>(entries: Entries<V>, key: string)
    requires Distinct(entries)
    ensures Get(entries, key).None? <==> forall i :: 0 <= i < |entries| ==> entries[i].0 != key
    ensures forall i :: 0 <= i < |entries| && entries[i].0 == key ==> Get(entries, key) == Some(entries[i].1)
  {
    if entries != [] {
      assert forall i :: 0 <= i < |entries[1..]| ==> entries[1..][i] == entries[i + 1];
      GetFinds(entries[1..], key);
      forall i | 0 <= i < |entries| && entries[i].0 == key ensures Get(entries, key) == Some(entries[i].1) {
        if i > 0 { assert entries[1..][i - 1].0 == key; }
      }
    }
  }

  function OutputOver(days: seq<string>, entries: Entries<Amount>): int {
    if days == [] then 0 else AmountOn(entries, days[0]).output + OutputOver(days[1..], entries)
  }

  lemma {:induction false} DeltaIsDifference(days: seq<string>, before: Entries<Amount>, after: Entries<Amount>)
    ensures LedgerDelta(days, before, after).output == OutputOver(days, after) - OutputOver(days, before)
  {
    if days != [] { DeltaIsDifference(days[1..], before, after); }
  }

  /** One entry more adds its amount once to the sum over distinct days that include its day. */
  lemma {:induction false} OutputOverFirst(days: seq<string>, entries: Entries<Amount>)
    requires entries != [] && Distinct(entries) && forall i, j :: 0 <= i < j < |days| ==> days[i] != days[j]
    ensures OutputOver(days, entries) == OutputOver(days, entries[1..]) + if entries[0].0 in days then entries[0].1.output else 0
  {
    if days != [] {
      OutputOverFirst(days[1..], entries);
      if days[0] == entries[0].0 {
        GetFinds(entries[1..], days[0]);
      }
    }
  }

  lemma {:induction false} OutputOverAll(days: seq<string>, entries: Entries<Amount>)
    requires Distinct(entries) && forall i, j :: 0 <= i < j < |days| ==> days[i] != days[j]
    requires forall i :: 0 <= i < |entries| ==> entries[i].0 in days
    ensures OutputOver(days, entries) == TotalOutput(entries)
  {
    if entries == [] {
      OutputOverNone(days);
    } else {
      assert forall i :: 0 <= i < |entries[1..]| ==> entries[1..][i] == entries[i + 1];
      OutputOverAll(days, entries[1..]);
      OutputOverFirst(days, entries);
    }
  }

  lemma {:induction false} OutputOverNone(days: seq<string>)
    ensures OutputOver(days, []) == 0
  {
    if days != [] { OutputOverNone(days[1..]); }
  }

  lemma {:induction false} KeysOfEntries<V>(entries: Entries<V>)
    ensures |KeysOf(entries)| == |entries| && forall i :: 0 <= i < |entries| ==> KeysOf(entries)[i] == entries[i].0
  {
    if entries != [] { KeysOfEntries(entries[1..]); }
  }

  lemma {:induction false} NewKeysAreNew<V>(before: Entries<V>, after: Entries<V>)
    requires Distinct(before) && Distinct(after)
    ensures forall k :: k in NewKeys(before, after) <==> (exists i :: 0 <= i < |after| && after[i].0 == k) && Get(before, k).None?
    ensures forall i, j :: 0 <= i < j < |NewKeys(before, after)| ==> NewKeys(before, after)[i] != NewKeys(before, after)[j]
  {
    if after != [] {
      var rest := after[1..];
      assert forall i :: 0 <= i < |rest| ==> rest[i] == after[i + 1];
      NewKeysAreNew(before, rest);
      forall k ensures k in NewKeys(before, after) <==> (exists i :: 0 <= i < |after| && after[i].0 == k) && Get(before, k).None? {
        if exists i :: 0 <= i < |after| && after[i].0 == k {
          var i :| 0 <= i < |after| && after[i].0 == k;
          if i > 0 { assert rest[i - 1].0 == k; }
        }
        if exists i :: 0 <= i < |rest| && rest[i].0 == k {
          var i :| 0 <= i < |rest| && rest[i].0 == k;
          assert after[i + 1].0 == k;
        }
      }
    }
  }

  /** The program's day-by-day sum is the difference of the two ledgers' totals. */
  lemma LedgerDeltaIsTotals(before: Entries<Amount>, after: Entries<Amount>)
    requires Distinct(before) && Distinct(after)
    ensures LedgerDelta(Days(before, after), before, after).output == TotalOutput(after) - TotalOutput(before)
  {
    var days := Days(before, after);
    KeysOfEntries(before);
    NewKeysAreNew(before, after);
    forall i, j | 0 <= i < j < |days| ensures days[i] != days[j] {
      if i < |before| && |before| <= j {
        GetFinds(before, days[i]);
        assert days[j] in NewKeys(before, after);
      }
    }
    forall i | 0 <= i < |after| ensures after[i].0 in days {
      GetFinds(before, after[i].0);
    }
    DeltaIsDifference(days, before, after);
    OutputOverAll(days, before);
    OutputOverAll(days, after);
  }

  /** The part of a table's total that falls on some keys. */
  function OutputOn(entries: Entries<Amount>, keys: set<string>): int {
    if entries == [] then 0 else (if entries[0].0 in keys then entries[0].1.output else 0) + OutputOn(entries[1..], keys)
  }

  function OutputOff(entries: Entries<Amount>, keys: set<string>): int {
    if entries == [] then 0 else (if entries[0].0 in keys then 0 else entries[0].1.output) + OutputOff(entries[1..], keys)
  }

  lemma {:induction false} OnAndOff(entries: Entries<Amount>, keys: set<string>)
    ensures TotalOutput(entries) == OutputOn(entries, keys) + OutputOff(entries, keys)
  {
    if entries != [] { OnAndOff(entries[1..], keys); }
  }

  lemma {:induction false} OneKeyMore(entries: Entries<Amount>, keys: set<string>, key: string)
    requires Distinct(entries) && key !in keys
    ensures OutputOn(entries, keys + {key}) == OutputOn(entries, keys) + AmountOn(entries, key).output
  {
    if entries != [] {
      OneKeyMore(entries[1..], keys, key);
      if entries[0].0 == key { GetFinds(entries[1..], key); }
    }
  }

  lemma {:induction false} NoKeys(entries: Entries<Amount>)
    ensures OutputOn(entries, {}) == 0
  {
    if entries != [] { NoKeys(entries[1..]); }
  }

  lemma {:induction false} ChangeOf(before: Entries<Charge>, after: Entries<Charge>, key: string)
    ensures Get(after, key).Some? ==>
              Get(Changes(before, after), key) == Some(Amount(ChargeAmount(Get(after, key)).input - ChargeAmount(Get(before, key)).input,
                                                              ChargeAmount(Get(after, key)).output - ChargeAmount(Get(before, key)).output))
    ensures Get(after, key).None? ==> Get(Changes(before, after), key).None?
  {
    hide ChargeAmount;
    if after != [] {
      ChangeOf(before, after[1..], key);
      assert Changes(before, after)[1..] == Changes(before, after[1..]);
    }
  }

  lemma {:induction false} ChangesHaveKeys(before: Entries<Charge>, after: Entries<Charge>)
    ensures |Changes(before, after)| == |after|
    ensures forall i :: 0 <= i < |after| ==> Changes(before, after)[i].0 == after[i].0
  {
    hide ChargeAmount, Get;
    if after != [] { ChangesHaveKeys(before, after[1..]); }
  }

  function ChargeKeys(reviews: seq<Review>): set<string> {
    set r | r in reviews :: ChargeKey(r)
  }

  lemma LastKeyIsNew(reviews: seq<Review>)
    requires reviews != [] && forall i, j :: 0 <= i < j < |reviews| ==> reviews[i].reviewId != reviews[j].reviewId
    ensures ChargeKey(reviews[|reviews| - 1]) !in ChargeKeys(reviews[..|reviews| - 1])
  {
    var front, last := reviews[..|reviews| - 1], reviews[|reviews| - 1];
    forall r | r in front ensures ChargeKey(r) != ChargeKey(last) {
      if ChargeKey(r) == ChargeKey(last) { ChargeKeysAreInjective(r, last); }
    }
  }

  /** Exact rows of distinct reviews change the charges by what the reviews reserved, each once. */
  lemma {:induction false} ExactRowsSumUp(reviews: seq<Review>, limit: Option<nat>, before: Snapshot, after: Snapshot)
    requires Distinct(after.charges)
    requires forall i, j :: 0 <= i < j < |reviews| ==> reviews[i].reviewId != reviews[j].reviewId
    requires forall r :: r in reviews ==> Exact(r, limit, before, after)
    ensures OutputOn(Changes(before.charges, after.charges), ChargeKeys(reviews)) == Expected(reviews, limit)
  {
    var changes := Changes(before.charges, after.charges);
    if reviews == [] {
      NoKeys(changes);
      assert ChargeKeys(reviews) == {};
    } else {
      var front, last := reviews[..|reviews| - 1], reviews[|reviews| - 1];
      ExactRowsSumUp(front, limit, before, after);
      assert ChargeKeys(reviews) == ChargeKeys(front) + {ChargeKey(last)};
      LastKeyIsNew(reviews);
      ChangesHaveKeys(before.charges, after.charges);
      ChangeOf(before.charges, after.charges, ChargeKey(last));
      OneKeyMore(changes, ChargeKeys(front), ChargeKey(last));
      assert Exact(last, limit, before, after);
    }
  }

  // ---- what passing means ----

  /** When all four checks pass for distinct reviews: the ledger's output grew by exactly what their callbacks reserve,
      each review has a new and exact charge row, and everything else in the charge table cancels out. */
  lemma {:induction false} PassingAccountsForAll(reviews: seq<Review>, before: Snapshot, after: Snapshot)
    requires Distinct(before.ledger) && Distinct(after.ledger) && Distinct(after.charges)
    requires forall i, j :: 0 <= i < j < |reviews| ==> reviews[i].reviewId != reviews[j].reviewId
    requires AllPass(Compare(reviews, Some(before), Some(after)))
    ensures after.learning.Some?
    ensures var limit := Some(after.learning.value.outputLimit);
            && TotalOutput(after.ledger) - TotalOutput(before.ledger) == Expected(reviews, limit)
            && (forall r :: r in reviews ==> NewSession(r, before, after) && Exact(r, limit, before, after))
            && OutputOff(Changes(before.charges, after.charges), ChargeKeys(reviews)) == 0
  {
    hide Exact, NewSession, Refused;
    var limit := Some(after.learning.value.outputLimit);
    LedgerDeltaIsTotals(before.ledger, after.ledger);
    ExactRowsSumUp(reviews, limit, before, after);
    OnAndOff(Changes(before.charges, after.charges), ChargeKeys(reviews));
  }

  lemma {:induction false} ZeroSumOfGrowth(entries: Entries<Amount>, keys: set<string>)
    requires forall i :: 0 <= i < |entries| && entries[i].0 !in keys ==> entries[i].1.output >= 0
    ensures OutputOff(entries, keys) >= 0
    ensures OutputOff(entries, keys) == 0 ==> forall i :: 0 <= i < |entries| && entries[i].0 !in keys ==> entries[i].1.output == 0
  {
    if entries != [] {
      assert forall i :: 0 <= i < |entries[1..]| ==> entries[1..][i] == entries[i + 1];
      ZeroSumOfGrowth(entries[1..], keys);
      assert forall i :: 0 < i < |entries| ==> entries[i] == entries[1..][i - 1];
    }
  }

  /** When charge rows only grow, passing means no row but the reviews' own changed its output: nothing was charged twice. */
  lemma NothingChargedTwice(reviews: seq<Review>, before: Snapshot, after: Snapshot)
    requires Distinct(before.ledger) && Distinct(after.ledger) && Distinct(after.charges)
    requires forall i, j :: 0 <= i < j < |reviews| ==> reviews[i].reviewId != reviews[j].reviewId
    requires AllPass(Compare(reviews, Some(before), Some(after)))
    requires forall i :: 0 <= i < |after.charges| ==>
               ChargeAmount(Some(after.charges[i].1)).output >= ChargeAmount(Get(before.charges, after.charges[i].0)).output
    ensures forall i :: 0 <= i < |after.charges| && after.charges[i].0 !in ChargeKeys(reviews) ==>
              ChargeAmount(Some(after.charges[i].1)).output == ChargeAmount(Get(before.charges, after.charges[i].0)).output
  {
    hide Compare, Exact, NewSession;
    PassingAccountsForAll(reviews, before, after);
    var changes := Changes(before.charges, after.charges);
    ChangesHaveKeys(before.charges, after.charges);
    forall i | 0 <= i < |after.charges|
      ensures changes[i].0 == after.charges[i].0
      ensures changes[i].1.output == ChargeAmount(Some(after.charges[i].1)).output - ChargeAmount(Get(before.charges, after.charges[i].0)).output
    {
      ChangeAt(before.charges, after.charges, i);
    }
    ZeroSumOfGrowth(changes, ChargeKeys(reviews));
  }

  lemma {:induction false} ChangeAt(before: Entries<Charge>, after: Entries<Charge>, i: nat)
    requires i < |after|
    ensures |Changes(before, after)| == |after| && Changes(before, after)[i].0 == after[i].0
    ensures Changes(before, after)[i].1.output == ChargeAmount(Some(after[i].1)).output - ChargeAmount(Get(before, after[i].0)).output
  {
    hide ChargeAmount, Get;
    ChangesHaveKeys(before, after);
    if i > 0 { ChangeAt(before, after[1..], i - 1); }
  }
}
