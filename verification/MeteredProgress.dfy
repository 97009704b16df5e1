/** The metered-spend protocol is not idle: a case nobody disturbs is reserved, sent once and settled. */
module MeteredProgress {
  import opened Outcomes
  import opened NativeBudget
  import opened Pricing
  import opened MeteredSpend

  function Then(at: (Files, Cohort), p: nat, op: CohortOp): (Files, Cohort) {
    CohortDo(at.0, p, at.1, op)
  }

  function ThenCase(at: (Files, CaseRun), k: nat, op: CaseOp): (Files, CaseRun) {
    CaseDo(at.0, k, at.1, op)
  }

  /** Admission and reservation, up to the wait for the child. */
  function ReservePart(f: Files, p: nat, self: Cohort): (Files, Cohort) {
    Then(Then(Then(Then(Then(Then((f, self), p, CheckAttempts), p, CheckEvidence), p, ReadForReserve), p, CompareForReserve), p, RenameReserve), p, AwaitChild)
  }

  /** The guarded child: one request, its answer, and the proof. */
  function ChildPart(f: Files, k: nat, self: CaseRun, usage: Usage, rates: Rates, result: NativeResult): (Files, CaseRun) {
    var checked := ThenCase(ThenCase(ThenCase((f, self), k, PassMarkerCheck), k, ScreenRequest(0)), k, CheckReservation(0));
    var sent := ThenCase(ThenCase(checked, k, CreateMarker(0)), k, SendUpstream(0, usage, rates));
    ThenCase(ThenCase(sent, k, ReceiveAnswer(0, 200)), k, WriteProof(Some(result), true))
  }

  /** Pricing the proof and settling. */
  function SettlePart(f: Files, p: nat, self: Cohort): (Files, Cohort) {
    Then(Then(Then(Then(Then((f, self), p, ChildExits), p, ReadProof), p, ReadForSettle), p, CompareForSettle), p, RenameSettle)
  }

  lemma ReservePartGoes(f: Files, p: nat, at: nat)
    requires at < |f.cases| && !Attempted(f.ledger, f.cases[at]) && ReservationId(f.cases[at]) !in f.proofs
    requires Valid(f.ledger) && Valid(Reserve(f.ledger, CaseRow(f.cases[at])))
    ensures ReservePart(f, p, Cohort(AtCase, at)) == (f.(ledger := Reserve(f.ledger, CaseRow(f.cases[at]))), Cohort(AwaitingChild, at))
  {
    hide Valid, Attempted, CaseRow, ReservationId;
    assert CohortDo(f, p, Cohort(AtCase, at), CheckAttempts) == (f, Cohort(NoAttempt, at));
    assert CohortDo(f, p, Cohort(NoAttempt, at), CheckEvidence) == (f, Cohort(NoEvidence, at));
    assert CohortDo(f, p, Cohort(NoEvidence, at), ReadForReserve) == (f, Cohort(ReserveRead(f.ledger), at));
  }

  lemma ChildPartGoes(f: Files, k: nat, self: CaseRun, usage: Usage, rates: Rates, result: NativeResult)
    requires self == CaseRun(self.reservationId, self.answerCase, false, map[], 0, None) && self.reservationId !in f.markers
    requires Valid(f.ledger) && Admits(f.ledger, self.reservationId, PackageOf(self.answerCase.queryId))
    requires WithinModelLimits(usage) && WithinPublishedRates(rates) && (MODEL in result.modelUsage ==> result.modelUsage[MODEL] == usage)
    ensures var id := self.reservationId;
            ChildPart(f, k, self, usage, rates, result).0 == f.(
              markers := f.markers[id := (k, 0)], sent := f.sent + [Upstream(id, usage, rates)],
              proofs := f.proofs[id := Evidence(self.answerCase, 1, Some(Answer(|f.sent|, 200)), Some(result), true)])
  {
    hide Valid, Admits, PackageOf, WithinModelLimits, WithinPublishedRates;
    var id, ready := self.reservationId, self.(ready := true);
    var screened := ready.(requests := map[0 := Screened]);
    var checked := ready.(requests := screened.requests[0 := BudgetChecked]);
    assert CaseDo(f, k, self, PassMarkerCheck) == (f, ready);
    assert ready.requests[0 := Screened] == screened.requests;
    assert CaseDo(f, k, ready, ScreenRequest(0)) == (f, screened);
    assert CaseDo(f, k, screened, CheckReservation(0)) == (f, checked);
    var marked, f1 := ready.(requests := checked.requests[0 := Marked], forwarded := 1), f.(markers := f.markers[id := (k, 0)]);
    assert CaseDo(f, k, checked, CreateMarker(0)) == (f1, marked);
    var f2 := f1.(sent := f1.sent + [Upstream(id, usage, rates)]);
    var sent := marked.(requests := marked.requests[0 := Sent(|f.sent|)]);
    assert CaseDo(f1, k, marked, SendUpstream(0, usage, rates)) == (f2, sent);
    assert CaseDo(f2, k, sent, ReceiveAnswer(0, 200)) == (f2, sent.(answer := Some(Answer(|f.sent|, 200))));
  }

  lemma SettlePartGoes(f: Files, p: nat, at: nat)
    requires at < |f.cases| && ReservationId(f.cases[at]) in f.proofs
    requires var ev := f.proofs[ReservationId(f.cases[at])]; ev.passed && ev.answerCase == f.cases[at] && EvidenceCents(ev).Ok?
    requires Valid(f.ledger) && !IsSettled(f.ledger.settlements, ReservationId(f.cases[at]))
    requires Valid(Settle(f.ledger, ReservationId(f.cases[at]), EvidenceCents(f.proofs[ReservationId(f.cases[at])]).value))
    ensures SettlePart(f, p, Cohort(AwaitingChild, at)) ==
              (f.(ledger := Settle(f.ledger, ReservationId(f.cases[at]), EvidenceCents(f.proofs[ReservationId(f.cases[at])]).value)), Cohort(AtCase, at + 1))
  {
    hide Valid, IsSettled, EvidenceCents, ReservationId;
    var cents := EvidenceCents(f.proofs[ReservationId(f.cases[at])]).value;
    assert CohortDo(f, p, Cohort(AwaitingChild, at), ChildExits) == (f, Cohort(ChildPassed, at));
    assert CohortDo(f, p, Cohort(ChildPassed, at), ReadProof) == (f, Cohort(Priced(cents), at));
    assert CohortDo(f, p, Cohort(Priced(cents), at), ReadForSettle) == (f, Cohort(SettleRead(cents, f.ledger), at));
  }

  /** An undisturbed case with a new reservation that fits goes all the way: one request is sent, and the budget is down by
      exactly the cents the case was settled at, which lie in 1..600 and cover what the request cost. */
  lemma UndisturbedCaseSettles(f: Files, p: nat, k: nat, at: nat, usage: Usage, rates: Rates, result: NativeResult)
    requires at < |f.cases| && !Attempted(f.ledger, f.cases[at]) && f.cases[at].queryId != "exact-00"
    requires ReservationId(f.cases[at]) !in f.proofs && ReservationId(f.cases[at]) !in f.markers
    requires Valid(f.ledger) && Valid(Reserve(f.ledger, CaseRow(f.cases[at])))
    requires WithinPublishedRates(rates) && ConservativeCents(1, Some(200), Some(result)).Ok? && result.modelUsage[MODEL] == usage
    ensures var c := f.cases[at];
            var cents := ConservativeCents(1, Some(200), Some(result)).value;
            var (f1, waiting) := ReservePart(f, p, Cohort(AtCase, at));
            var f2 := ChildPart(f1, k, CaseRun(ReservationId(c), c, false, map[], 0, None), usage, rates, result).0;
            var (f3, after) := SettlePart(f2, p, waiting);
            && after == Cohort(AtCase, at + 1) && f3.sent == f.sent + [Upstream(ReservationId(c), usage, rates)]
            && Remaining(f1.ledger) == Remaining(f.ledger) - 600
            && Valid(f3.ledger) && Remaining(f3.ledger) == Remaining(f.ledger) - cents
            && 1 <= cents <= 600 && TrueCents(usage, rates) <= cents as real
  {
    hide Valid, ConservativeCents, Remaining, ReservePart, ChildPart, SettlePart;
    var c, id := f.cases[at], ReservationId(f.cases[at]);
    var f1 := f.(ledger := Reserve(f.ledger, CaseRow(c)));
    var cents := ConservativeCents(1, Some(200), Some(result)).value;
    SettledCoversCost(1, Some(200), Some(result), rates);
    ReservePartGoes(f, p, at);
    NewRow(f.ledger, CaseRow(c), cents);
    AcceptedUsageIsLimited(result);
    assert f1.ledger.reservations[|f.ledger.reservations|] == CaseRow(c);
    ChildPartGoes(f1, k, CaseRun(id, c, false, map[], 0, None), usage, rates, result);
    SettlePartGoes(ChildPart(f1, k, CaseRun(id, c, false, map[], 0, None), usage, rates, result).0, p, at);
  }

  lemma AcceptedUsageIsLimited(result: NativeResult)
    requires ConservativeCents(1, Some(200), Some(result)).Ok?
    ensures MODEL in result.modelUsage && WithinModelLimits(result.modelUsage[MODEL])
  {
  }

  /** A row that could be added is new, unsettled, and can be settled at any cents up to its maximum. */
  lemma NewRow(b: Budget, row: Reservation, cents: int)
    requires Valid(b) && Valid(Reserve(b, row)) && row.maximumCostCents == 600 && 1 <= cents <= 600
    ensures !IsSettled(Reserve(b, row).settlements, row.id) && Valid(Settle(Reserve(b, row), row.id, cents))
    ensures Remaining(Reserve(b, row)) == Remaining(b) - 600
    ensures Remaining(Settle(Reserve(b, row), row.id, cents)) == Remaining(b) - cents
  {
    var next := Reserve(b, row);
    assert next.reservations[|b.reservations|] == row;
    assert RowOk(next, row) by { assert ReservationsOk(next); }
    UnsettledWhenNew(b, row);
    hide Valid, Remaining;
    ReserveEffect(b, row);
    SettleEffect(next, |b.reservations|, cents);
  }

  // ---- the same, as a run of the whole protocol ----

  lemma {:induction false} ExecInTwo(w: World, first: seq<Action>, second: seq<Action>)
    ensures Exec(w, first + second) == Exec(Exec(w, first), second)
  {
    if second == [] {
      assert first + second == first;
    } else {
      var front, last := second[..|second| - 1], second[|second| - 1];
      assert (first + second)[..|first + second| - 1] == first + front;
      ExecInTwo(w, first, front);
    }
  }

  function CohortSteps(p: nat, ops: seq<CohortOp>): seq<Action> {
    if ops == [] then [] else CohortSteps(p, ops[..|ops| - 1]) + [StepCohort(p, ops[|ops| - 1])]
  }

  function CaseSteps(k: nat, ops: seq<CaseOp>): seq<Action> {
    if ops == [] then [] else CaseSteps(k, ops[..|ops| - 1]) + [StepCase(k, ops[|ops| - 1])]
  }

  function AllCohort(at: (Files, Cohort), p: nat, ops: seq<CohortOp>): (Files, Cohort) {
    if ops == [] then at else Then(AllCohort(at, p, ops[..|ops| - 1]), p, ops[|ops| - 1])
  }

  function AllCase(at: (Files, CaseRun), k: nat, ops: seq<CaseOp>): (Files, CaseRun) {
    if ops == [] then at else ThenCase(AllCase(at, k, ops[..|ops| - 1]), k, ops[|ops| - 1])
  }

  lemma ExecSnoc(w: World, actions: seq<Action>, last: Action)
    ensures Exec(w, actions + [last]) == Do(Exec(w, actions), last)
  {
    assert (actions + [last])[..|actions|] == actions;
    hide Do;
  }

  lemma OneCohortStep(w: World, p: nat, op: CohortOp)
    requires p in w.cohorts
    ensures var (f, self) := Then((w.files, w.cohorts[p]), p, op);
            Do(w, StepCohort(p, op)) == w.(files := f, cohorts := w.cohorts[p := self])
  {
    hide CohortDo;
  }

  lemma OneCaseStep(w: World, k: nat, op: CaseOp)
    requires k in w.runs
    ensures var (f, self) := ThenCase((w.files, w.runs[k]), k, op);
            Do(w, StepCase(k, op)) == w.(files := f, runs := w.runs[k := self])
  {
    hide CaseDo;
  }

  lemma OverwrittenEntry<V>(m: map<nat, V>, key: nat, first: V, second: V)
    ensures m[key := first][key := second] == m[key := second] && m[key := first][key] == first
    ensures key in m ==> m[key := m[key]] == m
  {
  }

  /** A cohort's operations in a row change the shared files and its own state, and nothing else in the world. */
  lemma {:induction false} CohortRuns(w: World, p: nat, ops: seq<CohortOp>)
    requires p in w.cohorts
    ensures var (f, self) := AllCohort((w.files, w.cohorts[p]), p, ops);
            Exec(w, CohortSteps(p, ops)) == w.(files := f, cohorts := w.cohorts[p := self])
  {
    hide Then, Do;
    if ops == [] {
      OverwrittenEntry(w.cohorts, p, w.cohorts[p], w.cohorts[p]);
    } else {
      var front, last := ops[..|ops| - 1], ops[|ops| - 1];
      CohortRuns(w, p, front);
      var (f, self) := AllCohort((w.files, w.cohorts[p]), p, front);
      var after := Then((f, self), p, last);
      OverwrittenEntry(w.cohorts, p, self, after.1);
      ExecSnoc(w, CohortSteps(p, front), StepCohort(p, last));
      hide AllCohort, Exec;
      OneCohortStep(w.(files := f, cohorts := w.cohorts[p := self]), p, last);
    }
  }

  lemma {:induction false} CaseRuns(w: World, k: nat, ops: seq<CaseOp>)
    requires k in w.runs
    ensures var (f, self) := AllCase((w.files, w.runs[k]), k, ops);
            Exec(w, CaseSteps(k, ops)) == w.(files := f, runs := w.runs[k := self])
  {
    hide ThenCase, Do;
    if ops == [] {
      OverwrittenEntry(w.runs, k, w.runs[k], w.runs[k]);
    } else {
      var front, last := ops[..|ops| - 1], ops[|ops| - 1];
      CaseRuns(w, k, front);
      var (f, self) := AllCase((w.files, w.runs[k]), k, front);
      var after := ThenCase((f, self), k, last);
      OverwrittenEntry(w.runs, k, self, after.1);
      ExecSnoc(w, CaseSteps(k, front), StepCase(k, last));
      hide AllCase, Exec;
      OneCaseStep(w.(files := f, runs := w.runs[k := self]), k, last);
    }
  }

  // Each list below is the one before it and one operation more.

  const ADMITTED := [CheckAttempts] + [CheckEvidence]
  const READ := ADMITTED + [ReadForReserve]
  const COMPARED := READ + [CompareForReserve]
  const RESERVED := COMPARED + [RenameReserve]
  const RESERVING := RESERVED + [AwaitChild]

  const PRICED := [ChildExits] + [ReadProof]
  const REREAD := PRICED + [ReadForSettle]
  const RECOMPARED := REREAD + [CompareForSettle]
  const SETTLING := RECOMPARED + [RenameSettle]

  const SCREENED := [PassMarkerCheck] + [ScreenRequest(0)]
  const CHECKED := SCREENED + [CheckReservation(0)]
  const MARKED := CHECKED + [CreateMarker(0)]

  function Sending(usage: Usage, rates: Rates, result: NativeResult): seq<CaseOp> {
    Answered(usage, rates) + [WriteProof(Some(result), true)]
  }

  function Answered(usage: Usage, rates: Rates): seq<CaseOp> {
    MARKED + [SendUpstream(0, usage, rates)] + [ReceiveAnswer(0, 200)]
  }

  lemma CohortSnoc(at: (Files, Cohort), p: nat, ops: seq<CohortOp>, op: CohortOp)
    ensures AllCohort(at, p, ops + [op]) == Then(AllCohort(at, p, ops), p, op)
  {
    hide Then;
    assert (ops + [op])[..|ops|] == ops;
  }

  lemma CaseSnoc(at: (Files, CaseRun), k: nat, ops: seq<CaseOp>, op: CaseOp)
    ensures AllCase(at, k, ops + [op]) == ThenCase(AllCase(at, k, ops), k, op)
  {
    hide ThenCase;
    assert (ops + [op])[..|ops|] == ops;
  }

  lemma CohortFirst(at: (Files, Cohort), p: nat, op: CohortOp)
    ensures AllCohort(at, p, [op]) == Then(at, p, op)
  {
    hide Then;
    assert [op][..0] == [] && AllCohort(at, p, []) == at;
  }

  lemma CaseFirst(at: (Files, CaseRun), k: nat, op: CaseOp)
    ensures AllCase(at, k, [op]) == ThenCase(at, k, op)
  {
    hide ThenCase;
    assert [op][..0] == [] && AllCase(at, k, []) == at;
  }

  lemma ReserveIsRun(at: (Files, Cohort), p: nat)
    ensures AllCohort(at, p, RESERVING) == ReservePart(at.0, p, at.1)
  {
    hide Then, AllCohort;
    CohortFirst(at, p, CheckAttempts);
    CohortSnoc(at, p, [CheckAttempts], CheckEvidence);
    CohortSnoc(at, p, ADMITTED, ReadForReserve);
    CohortSnoc(at, p, READ, CompareForReserve);
    CohortSnoc(at, p, COMPARED, RenameReserve);
    CohortSnoc(at, p, RESERVED, AwaitChild);
  }

  lemma SettleIsRun(at: (Files, Cohort), p: nat)
    ensures AllCohort(at, p, SETTLING) == SettlePart(at.0, p, at.1)
  {
    hide Then, AllCohort;
    CohortFirst(at, p, ChildExits);
    CohortSnoc(at, p, [ChildExits], ReadProof);
    CohortSnoc(at, p, PRICED, ReadForSettle);
    CohortSnoc(at, p, REREAD, CompareForSettle);
    CohortSnoc(at, p, RECOMPARED, RenameSettle);
  }

  lemma ChildIsRun(at: (Files, CaseRun), k: nat, usage: Usage, rates: Rates, result: NativeResult)
    ensures AllCase(at, k, Sending(usage, rates, result)) == ChildPart(at.0, k, at.1, usage, rates, result)
  {
    hide ThenCase, AllCase;
    CaseFirst(at, k, PassMarkerCheck);
    CaseSnoc(at, k, [PassMarkerCheck], ScreenRequest(0));
    CaseSnoc(at, k, SCREENED, CheckReservation(0));
    CaseSnoc(at, k, CHECKED, CreateMarker(0));
    CaseSnoc(at, k, MARKED, SendUpstream(0, usage, rates));
    CaseSnoc(at, k, MARKED + [SendUpstream(0, usage, rates)], ReceiveAnswer(0, 200));
    CaseSnoc(at, k, Answered(usage, rates), WriteProof(Some(result), true));
  }

  /** All actions of one case: the cohort reserves, its child starts and sends, and the cohort settles. */
  function WholeCase(p: nat, k: nat, at: nat, id: string, usage: Usage, rates: Rates, result: NativeResult): seq<Action> {
    CohortSteps(p, RESERVING) + ([StartCase(k, id, at)] + (CaseSteps(k, Sending(usage, rates, result)) + CohortSteps(p, SETTLING)))
  }

  /** From any reachable world in which a cohort is about to take a case, the actions of that case alone lead to a
      reachable world in which it is settled: one request more was sent, nothing of the earlier records is gone, and the
      budget is down by exactly the settled cents, which cover what the request cost. */
  lemma UndisturbedCaseRuns(w: World, before: seq<Action>, p: nat, k: nat, at: nat, usage: Usage, rates: Rates, result: NativeResult)
    requires Initial(w)
    requires var now := Exec(w, before);
             && p in now.cohorts && now.cohorts[p] == Cohort(AtCase, at) && k !in now.runs
             && at < |now.files.cases| && !Attempted(now.files.ledger, now.files.cases[at]) && now.files.cases[at].queryId != "exact-00"
             && ReservationId(now.files.cases[at]) !in now.files.proofs && ReservationId(now.files.cases[at]) !in now.files.markers
             && Valid(Reserve(now.files.ledger, CaseRow(now.files.cases[at])))
    requires WithinPublishedRates(rates) && ConservativeCents(1, Some(200), Some(result)).Ok? && result.modelUsage[MODEL] == usage
    ensures var now := Exec(w, before);
            var id := ReservationId(now.files.cases[at]);
            var cents := ConservativeCents(1, Some(200), Some(result)).value;
            var after := Exec(w, before + WholeCase(p, k, at, id, usage, rates, result));
            && p in after.cohorts && after.cohorts[p] == Cohort(AtCase, at + 1)
            && after.files.sent == now.files.sent + [Upstream(id, usage, rates)]
            && Remaining(after.files.ledger) == Remaining(now.files.ledger) - cents
            && 1 <= cents <= 600 && TrueCents(usage, rates) <= cents as real
            && Inv(after)
  {
    hide Initial, Valid, Attempted, CaseRow, ConservativeCents, WithinPublishedRates, Remaining, Inv, ReservePart, ChildPart, SettlePart, RESERVING, SETTLING, Sending;
    var now := Exec(w, before);
    var c, id := now.files.cases[at], ReservationId(now.files.cases[at]);
    assert Valid(now.files.ledger) by { LedgerIsValid(w, before); }
    CaseFromHere(now, p, k, at, usage, rates, result);
    ExecInTwo(w, before, WholeCase(p, k, at, id, usage, rates, result));
    RunKeepsInv(w, before + WholeCase(p, k, at, id, usage, rates, result));
  }

  lemma LedgerIsValid(w: World, actions: seq<Action>)
    requires Initial(w)
    ensures Valid(Exec(w, actions).files.ledger)
  {
    RunKeepsInv(w, actions);
    SoundFiles(Exec(w, actions).files);
  }

  lemma ReserveStage(w: World, p: nat)
    requires p in w.cohorts
    ensures var (f, self) := ReservePart(w.files, p, w.cohorts[p]);
            Exec(w, CohortSteps(p, RESERVING)) == w.(files := f, cohorts := w.cohorts[p := self])
  {
    hide ReservePart, RESERVING;
    CohortRuns(w, p, RESERVING);
    ReserveIsRun((w.files, w.cohorts[p]), p);
  }

  lemma SettleStage(w: World, p: nat)
    requires p in w.cohorts
    ensures var (f, self) := SettlePart(w.files, p, w.cohorts[p]);
            Exec(w, CohortSteps(p, SETTLING)) == w.(files := f, cohorts := w.cohorts[p := self])
  {
    hide SettlePart, SETTLING;
    CohortRuns(w, p, SETTLING);
    SettleIsRun((w.files, w.cohorts[p]), p);
  }

  lemma ChildStage(w: World, k: nat, usage: Usage, rates: Rates, result: NativeResult)
    requires k in w.runs
    ensures var (f, self) := ChildPart(w.files, k, w.runs[k], usage, rates, result);
            Exec(w, CaseSteps(k, Sending(usage, rates, result))) == w.(files := f, runs := w.runs[k := self])
  {
    hide ChildPart, Sending;
    CaseRuns(w, k, Sending(usage, rates, result));
    ChildIsRun((w.files, w.runs[k]), k, usage, rates, result);
  }

  lemma WholeCaseInStages(w: World, p: nat, k: nat, at: nat, id: string, usage: Usage, rates: Rates, result: NativeResult)
    ensures var w1 := Exec(w, CohortSteps(p, RESERVING));
            var w2 := Exec(w1, [StartCase(k, id, at)]);
            var w3 := Exec(w2, CaseSteps(k, Sending(usage, rates, result)));
            Exec(w, WholeCase(p, k, at, id, usage, rates, result)) == Exec(w3, CohortSteps(p, SETTLING))
  {
    hide RESERVING, SETTLING, Sending, CohortSteps, CaseSteps, Exec;
    var tail := CaseSteps(k, Sending(usage, rates, result)) + CohortSteps(p, SETTLING);
    var w1 := Exec(w, CohortSteps(p, RESERVING));
    var w2 := Exec(w1, [StartCase(k, id, at)]);
    ExecInTwo(w, CohortSteps(p, RESERVING), [StartCase(k, id, at)] + tail);
    ExecInTwo(w1, [StartCase(k, id, at)], tail);
    ExecInTwo(w2, CaseSteps(k, Sending(usage, rates, result)), CohortSteps(p, SETTLING));
  }

  lemma CaseFromHere(w: World, p: nat, k: nat, at: nat, usage: Usage, rates: Rates, result: NativeResult)
    requires p in w.cohorts && w.cohorts[p] == Cohort(AtCase, at) && k !in w.runs && Valid(w.files.ledger)
    requires at < |w.files.cases| && !Attempted(w.files.ledger, w.files.cases[at]) && w.files.cases[at].queryId != "exact-00"
    requires ReservationId(w.files.cases[at]) !in w.files.proofs && ReservationId(w.files.cases[at]) !in w.files.markers
    requires Valid(Reserve(w.files.ledger, CaseRow(w.files.cases[at])))
    requires WithinPublishedRates(rates) && ConservativeCents(1, Some(200), Some(result)).Ok? && result.modelUsage[MODEL] == usage
    ensures var id := ReservationId(w.files.cases[at]);
            var cents := ConservativeCents(1, Some(200), Some(result)).value;
            var after := Exec(w, WholeCase(p, k, at, id, usage, rates, result));
            && p in after.cohorts && after.cohorts[p] == Cohort(AtCase, at + 1)
            && after.files.sent == w.files.sent + [Upstream(id, usage, rates)]
            && Remaining(after.files.ledger) == Remaining(w.files.ledger) - cents
            && 1 <= cents <= 600 && TrueCents(usage, rates) <= cents as real
  {
    hide Valid, Attempted, ConservativeCents, WithinPublishedRates, Remaining, TrueCents, RESERVING, SETTLING, Sending, ReservationId, CaseRow;
    hide ReservePart, ChildPart, SettlePart, CohortSteps, CaseSteps, Exec, WholeCase, IsSettled;
    var c, id := w.files.cases[at], ReservationId(w.files.cases[at]);
    UndisturbedCaseSettles(w.files, p, k, at, usage, rates, result);
    WholeCaseInStages(w, p, k, at, id, usage, rates, result);
    ReserveStage(w, p);
    ReservePartGoes(w.files, p, at);
    var w1 := Exec(w, CohortSteps(p, RESERVING));
    JustReserved(w.files.ledger, c);
    ChildStarts(w1, k, at, c);
    var w2 := Exec(w1, [StartCase(k, id, at)]);
    ChildStage(w2, k, usage, rates, result);
    SettleStage(Exec(w2, CaseSteps(k, Sending(usage, rates, result))), p);
  }

  lemma JustReserved(b: Budget, c: AnswerCase)
    requires Valid(b) && Valid(Reserve(b, CaseRow(c)))
    ensures var next := Reserve(b, CaseRow(c));
            && next.reservations != [] && next.reservations[|next.reservations| - 1] == CaseRow(c)
            && !IsSettled(next.settlements, ReservationId(c))
  {
    UnsettledWhenNew(b, CaseRow(c));
  }

  /** The child of a case that was just reserved passes its own admission. */
  lemma ChildStarts(w: World, k: nat, at: nat, c: AnswerCase)
    requires k !in w.runs && at < |w.files.cases| && w.files.cases[at] == c && c.queryId != "exact-00" && Valid(w.files.ledger)
    requires w.files.ledger.reservations != [] && w.files.ledger.reservations[|w.files.ledger.reservations| - 1] == CaseRow(c)
    requires !IsSettled(w.files.ledger.settlements, ReservationId(c))
    ensures Exec(w, [StartCase(k, ReservationId(c), at)])
              == w.(runs := w.runs[k := CaseRun(ReservationId(c), c, false, map[], 0, None)])
  {
    hide Valid;
    var a := StartCase(k, ReservationId(c), at);
    assert [a][..0] == [] && Exec(w, []) == w;
    assert Exec(w, [a]) == Do(w, a);
    var n := |w.files.ledger.reservations| - 1;
    assert w.files.ledger.reservations[n].id == ReservationId(c);
    assert Admits(w.files.ledger, ReservationId(c), PackageOf(c.queryId));
  }
}
