/** The metered-spend protocol: any number of cohort owners and guarded case runs share one ledger, one lock file, and
    one marker file and one proof file a reservation. Each operation is one atomic file operation or one network event,
    takes the shared files and the process's own state, and changes nothing when its guard does not hold. A run is any
    sequence of actions, so every interleaving, crash and rerun is one of them. */
module MeteredSpend {
  import opened Outcomes
  import opened NativeBudget
  import opened Pricing

  datatype AnswerCase = AnswerCase(id: string, queryId: string)

  /** The upstream answer and the request (by its place in `sent`) it answers. */
  datatype Answer = Answer(index: nat, status: int)

  datatype Evidence = Evidence(
    answerCase: AnswerCase, forwarded: nat, answer: Option<Answer>, result: Option<NativeResult>, passed: bool)

  /** One request that left for the provider, with what it used and the rates it was billed at. */
  datatype Upstream = Upstream(reservationId: string, usage: Usage, rates: Rates)

  /** Everything the processes share. A marker records which request of which run created it. */
  datatype Files = Files(
    cases: seq<AnswerCase>, ledger: Budget, lock: Option<nat>,
    markers: map<string, (nat, nat)>, proofs: map<string, Evidence>, sent: seq<Upstream>)

  /** Where a cohort owner stands between two file operations. A `seen` ledger is the copy it read. */
  datatype CohortStep =
    | Outside
    | AtCase
    | NoAttempt
    | NoEvidence
    | ReserveRead(seen: Budget)
    | ReserveCompared(seen: Budget)
    | Reserved
    | AwaitingChild
    | ChildPassed
    | Priced(cents: int)
    | SettleRead(cents: int, seen: Budget)
    | SettleCompared(cents: int, seen: Budget)
    | Unwinding
    | Finished

  datatype Cohort = Cohort(step: CohortStep, at: nat)

  datatype CohortOp =
    | TakeLock | CheckAttempts | CheckEvidence | ReadForReserve | CompareForReserve | RenameReserve
    | AwaitChild | ChildExits | ReadProof | ReadForSettle | CompareForSettle | RenameSettle | EnterFinally | ReleaseLock

  /** A request inside one guard: past the first checks, past the reservation check, holder of the marker, or sent. */
  datatype RequestStep = Screened | BudgetChecked | Marked | Sent(index: nat)

  datatype CaseRun = CaseRun(
    reservationId: string, answerCase: AnswerCase, ready: bool,
    requests: map<nat, RequestStep>, forwarded: nat, answer: Option<Answer>)

  datatype CaseOp =
    | PassMarkerCheck
    | ScreenRequest(q: nat) | CheckReservation(q: nat) | CreateMarker(q: nat)
    | SendUpstream(q: nat, usage: Usage, rates: Rates) | ReceiveAnswer(q: nat, status: int) | DropRequest(q: nat)
    | WriteProof(result: Option<NativeResult>, passed: bool)

  datatype World = World(files: Files, cohorts: map<nat, Cohort>, runs: map<nat, CaseRun>)

  datatype Action =
    | StartCohort(p: nat) | StepCohort(p: nat, op: CohortOp) | CrashCohort(p: nat) | ClearStaleLock
    | StartCase(k: nat, reservationId: string, c: nat) | StepCase(k: nat, caseOp: CaseOp) | EndCase(k: nat)
    | RootReserve(row: Reservation) | RootSettle(id: string, cents: int)

  // ---- what the operations test ----

  function ReservationId(c: AnswerCase): string {
    "p10-claude-" + c.id
  }

  function CaseRow(c: AnswerCase): Reservation {
    Reservation(ReservationId(c), "P10", 1, 600, Some(c.id), Some("claude"))
  }

  function PackageOf(queryId: string): string {
    if queryId == "exact-00" then "P07" else "P10"
  }

  /** An earlier attempt at a case: its own reservation id, or any row that names the case for this driver. */
  predicate Attempts(row: Reservation, c: AnswerCase) {
    row.id == ReservationId(c) || (row.answerCaseId == Some(c.id) && row.driver == Some("claude"))
  }

  predicate Attempted(b: Budget, c: AnswerCase) {
    exists i :: 0 <= i < |b.reservations| && Attempts(b.reservations[i], c)
  }

  /** A row whose charge covers any request while it stays unsettled. */
  predicate Backed(b: Budget, id: string) {
    exists i :: 0 <= i < |b.reservations| && b.reservations[i].id == id && b.reservations[i].maximumCostCents >= 600
  }

  /** An unsettled one-turn reservation of at least 600 cents in the right package. */
  predicate Admits(b: Budget, id: string, package: string) {
    && (exists i :: 0 <= i < |b.reservations| && b.reservations[i].id == id && b.reservations[i].package == package
                    && b.reservations[i].turns == 1 && b.reservations[i].maximumCostCents >= 600)
    && !IsSettled(b.settlements, id)
  }

  function EvidenceCents(ev: Evidence): Result<int, PricingError> {
    ConservativeCents(ev.forwarded, if ev.answer.Some? then Some(ev.answer.value.status) else None, ev.result)
  }

  function Cost(r: Upstream): real {
    TrueCents(r.usage, r.rates)
  }

  predicate SentFor(sent: seq<Upstream>, id: string) {
    exists i :: 0 <= i < |sent| && sent[i].reservationId == id
  }

  /** `cents` covers a request that was sent on this reservation. */
  predicate CoversSent(sent: seq<Upstream>, id: string, cents: int) {
    exists i :: 0 <= i < |sent| && sent[i].reservationId == id && Cost(sent[i]) <= cents as real
  }

  /** The native usage report names the tokens the provider billed. */
  predicate Honest(result: Option<NativeResult>, answer: Option<Answer>, sent: seq<Upstream>) {
    result.Some? && MODEL in result.value.modelUsage && answer.Some? ==>
      answer.value.index < |sent| && result.value.modelUsage[MODEL] == sent[answer.value.index].usage
  }

  predicate InRenameWindow(step: CohortStep) {
    step.ReserveCompared? || step.SettleCompared?
  }

  // ---- one operation of a cohort owner ----

  /** The steps taken before the loop's case is settled: admission, and the reservation. */
  function ReserveOp(f: Files, p: nat, self: Cohort, op: CohortOp): (Files, Cohort)
    requires self.at < |f.cases|
  {
    var c := f.cases[self.at];
    match op
    case CheckAttempts =>
      if self.step == AtCase && !Attempted(f.ledger, c) then (f, self.(step := NoAttempt)) else (f, self)
    case CheckEvidence =>
      if self.step == NoAttempt && ReservationId(c) !in f.proofs then (f, self.(step := NoEvidence)) else (f, self)
    case ReadForReserve =>
      if self.step == NoEvidence && Valid(f.ledger) && Valid(Reserve(f.ledger, CaseRow(c)))
      then (f, self.(step := ReserveRead(f.ledger))) else (f, self)
    case CompareForReserve =>
      if self.step == ReserveRead(f.ledger) then (f, self.(step := ReserveCompared(f.ledger))) else (f, self)
    case RenameReserve =>
      if self.step.ReserveCompared? then (f.(ledger := Reserve(self.step.seen, CaseRow(c))), self.(step := Reserved)) else (f, self)
    case _ => (f, self)
  }

  /** The steps taken after the child ran: its proof is priced and the reservation settled. */
  function SettleOp(f: Files, p: nat, self: Cohort, op: CohortOp): (Files, Cohort)
    requires self.at < |f.cases|
  {
    var c := f.cases[self.at];
    var id := ReservationId(c);
    match op
    case ReadProof =>
      if self.step == ChildPassed && id in f.proofs && f.proofs[id].passed && f.proofs[id].answerCase == c && EvidenceCents(f.proofs[id]).Ok?
      then (f, self.(step := Priced(EvidenceCents(f.proofs[id]).value))) else (f, self)
    case ReadForSettle =>
      if self.step.Priced? && Valid(f.ledger) && !IsSettled(f.ledger.settlements, id) && Valid(Settle(f.ledger, id, self.step.cents))
      then (f, self.(step := SettleRead(self.step.cents, f.ledger))) else (f, self)
    case CompareForSettle =>
      if self.step.SettleRead? && self.step.seen == f.ledger then (f, self.(step := SettleCompared(self.step.cents, f.ledger))) else (f, self)
    case RenameSettle =>
      if self.step.SettleCompared? then (f.(ledger := Settle(self.step.seen, id, self.step.cents)), Cohort(AtCase, self.at + 1)) else (f, self)
    case _ => (f, self)
  }

  /** The lock, the child, and the finally block. */
  function ControlOp(f: Files, p: nat, self: Cohort, op: CohortOp): (Files, Cohort) {
    match op
    case TakeLock =>
      if self.step == Outside && f.lock == None then (f.(lock := Some(p)), self.(step := AtCase)) else (f, self)
    case AwaitChild => if self.step == Reserved then (f, self.(step := AwaitingChild)) else (f, self)
    case ChildExits => if self.step == AwaitingChild then (f, self.(step := ChildPassed)) else (f, self)
    case EnterFinally => if self.step != Outside && self.step != Finished then (f, self.(step := Unwinding)) else (f, self)
    case ReleaseLock =>
      if self.step == Unwinding then (if f.lock == Some(p) then f.(lock := None) else f, self.(step := Finished)) else (f, self)
    case _ => (f, self)
  }

  function CohortDo(f: Files, p: nat, self: Cohort, op: CohortOp): (Files, Cohort) {
    if op.TakeLock? || op.AwaitChild? || op.ChildExits? || op.EnterFinally? || op.ReleaseLock? then ControlOp(f, p, self, op)
    else if self.at >= |f.cases| then (f, self)
    else if op.CheckAttempts? || op.CheckEvidence? || op.ReadForReserve? || op.CompareForReserve? || op.RenameReserve? then ReserveOp(f, p, self, op)
    else SettleOp(f, p, self, op)
  }

  // ---- one operation of a case run ----

  function CaseDo(f: Files, k: nat, self: CaseRun, op: CaseOp): (Files, CaseRun) {
    match op
    case PassMarkerCheck =>
      if self.reservationId !in f.markers then (f, self.(ready := true)) else (f, self)
    case ScreenRequest(q) =>
      if self.ready && q !in self.requests && self.forwarded == 0 && self.reservationId !in f.markers
      then (f, self.(requests := self.requests[q := Screened])) else (f, self)
    case CheckReservation(q) =>
      if q in self.requests && self.requests[q] == Screened && Valid(f.ledger)
         && Admits(f.ledger, self.reservationId, PackageOf(self.answerCase.queryId))
      then (f, self.(requests := self.requests[q := BudgetChecked])) else (f, self)
    case CreateMarker(q) =>
      if q in self.requests && self.requests[q] == BudgetChecked && self.reservationId !in f.markers
      then (f.(markers := f.markers[self.reservationId := (k, q)]),
            self.(requests := self.requests[q := Marked], forwarded := self.forwarded + 1))
      else (f, self)
    case SendUpstream(q, usage, rates) =>
      if q in self.requests && self.requests[q] == Marked && WithinModelLimits(usage) && WithinPublishedRates(rates)
      then (f.(sent := f.sent + [Upstream(self.reservationId, usage, rates)]), self.(requests := self.requests[q := Sent(|f.sent|)]))
      else (f, self)
    case ReceiveAnswer(q, status) =>
      if q in self.requests && self.requests[q].Sent? then (f, self.(answer := Some(Answer(self.requests[q].index, status)))) else (f, self)
    case DropRequest(q) => (f, self.(requests := self.requests - {q}))
    case WriteProof(result, passed) =>
      if self.ready && Honest(result, self.answer, f.sent)
      then (f.(proofs := f.proofs[self.reservationId := Evidence(self.answerCase, self.forwarded, self.answer, result, passed)]), self)
      else (f, self)
  }

  // ---- one action, and a run ----

  /** Root edits the ledger by hand, but never between a cohort's comparison and its rename. */
  predicate RootMayEdit(w: World) {
    forall p :: p in w.cohorts ==> !InRenameWindow(w.cohorts[p].step)
  }

  predicate PastCheck(step: RequestStep) {
    step.BudgetChecked? || step.Marked?
  }

  /** Nothing was sent on the reservation, and no request on it has passed its reservation check. */
  predicate Unused(w: World, id: string) {
    !SentFor(w.files.sent, id) && forall k :: k in w.runs && w.runs[k].reservationId == id ==> NonePastCheck(w.runs[k])
  }

  predicate NonePastCheck(run: CaseRun) {
    forall q :: q in run.requests ==> !PastCheck(run.requests[q])
  }

  function Do(w: World, a: Action): World {
    match a
    case StartCohort(p) =>
      if p !in w.cohorts && Valid(w.files.ledger) then w.(cohorts := w.cohorts[p := Cohort(Outside, 1)]) else w
    case StepCohort(p, op) =>
      if p in w.cohorts then
        var (f, self) := CohortDo(w.files, p, w.cohorts[p], op);
        w.(files := f, cohorts := w.cohorts[p := self])
      else w
    case CrashCohort(p) => w.(cohorts := w.cohorts - {p})
    case ClearStaleLock =>
      if w.files.lock.Some? && w.files.lock.value !in w.cohorts then w.(files := w.files.(lock := None)) else w
    case StartCase(k, id, c) =>
      if k !in w.runs && c < |w.files.cases| && Valid(w.files.ledger) && Admits(w.files.ledger, id, PackageOf(w.files.cases[c].queryId))
      then w.(runs := w.runs[k := CaseRun(id, w.files.cases[c], false, map[], 0, None)]) else w
    case StepCase(k, op) =>
      if k in w.runs then
        var (f, self) := CaseDo(w.files, k, w.runs[k], op);
        w.(files := f, runs := w.runs[k := self])
      else w
    case EndCase(k) => w.(runs := w.runs - {k})
    case RootReserve(row) =>
      if RootMayEdit(w) && RowOk(w.files.ledger, row) && Valid(Reserve(w.files.ledger, row)) && (forall c :: c in w.files.cases ==> !Attempts(row, c))
      then w.(files := w.files.(ledger := Reserve(w.files.ledger, row))) else w
    case RootSettle(id, cents) =>
      if RootMayEdit(w) && Valid(Settle(w.files.ledger, id, cents)) && (CoversSent(w.files.sent, id, cents) || Unused(w, id))
      then w.(files := w.files.(ledger := Settle(w.files.ledger, id, cents))) else w
  }

  function Exec(w: World, actions: seq<Action>): World {
    if actions == [] then w else Do(Exec(w, actions[..|actions| - 1]), actions[|actions| - 1])
  }

  /** A start with a valid ledger, nothing running, and at most one earlier attempt at each frozen case. */
  ghost predicate Initial(w: World) {
    && Valid(w.files.ledger) && w.files.lock == None && w.files.markers == map[] && w.files.proofs == map[] && w.files.sent == []
    && w.cohorts == map[] && w.runs == map[]
    && OneAttemptEach(w.files)
  }

  // ---- the invariant ----

  ghost predicate OneAttemptEach(f: Files) {
    forall i, j, c :: 0 <= i < j < |f.ledger.reservations| && c in f.cases ==>
      !(Attempts(f.ledger.reservations[i], c) && Attempts(f.ledger.reservations[j], c))
  }

  ghost predicate SentInv(f: Files) {
    && (forall i, j :: 0 <= i < j < |f.sent| ==> f.sent[i].reservationId != f.sent[j].reservationId)
    && (forall i :: 0 <= i < |f.sent| ==>
          && f.sent[i].reservationId in f.markers && Backed(f.ledger, f.sent[i].reservationId)
          && WithinModelLimits(f.sent[i].usage) && WithinPublishedRates(f.sent[i].rates))
  }

  /** Whatever is settled after its request was sent is settled for at least that request's cost. */
  ghost predicate SettledInv(f: Files) {
    forall s, i :: 0 <= s < |f.ledger.settlements| && 0 <= i < |f.sent|
                   && f.ledger.settlements[s].reservationId == f.sent[i].reservationId ==>
      Cost(f.sent[i]) <= f.ledger.settlements[s].actualCostCents as real
  }

  ghost predicate AnswerInv(f: Files, id: string, answer: Option<Answer>) {
    answer.Some? ==> answer.value.index < |f.sent| && f.sent[answer.value.index].reservationId == id
  }

  ghost predicate ProofInv(f: Files, id: string)
    requires id in f.proofs
  {
    AnswerInv(f, id, f.proofs[id].answer) && Honest(f.proofs[id].result, f.proofs[id].answer, f.sent)
  }

  ghost predicate FilesInv(f: Files) {
    && Valid(f.ledger)
    && OneAttemptEach(f)
    && SentInv(f)
    && SettledInv(f)
    && (forall id :: id in f.proofs ==> ProofInv(f, id))
  }

  ghost predicate HoldsLock(step: CohortStep) {
    step != Outside && step != Finished
  }

  ghost predicate Reserving(step: CohortStep) {
    step.NoAttempt? || step.NoEvidence? || step.ReserveRead? || step.ReserveCompared?
  }

  ghost predicate CohortInv(f: Files, p: nat, self: Cohort) {
    && (HoldsLock(self.step) ==> f.lock == Some(p))
    && (Reserving(self.step) ==> self.at < |f.cases| && !Attempted(f.ledger, f.cases[self.at]))
    && (self.step.ReserveRead? || self.step.ReserveCompared? ==> Valid(Reserve(self.step.seen, CaseRow(f.cases[self.at]))))
    && (self.step.Priced? || self.step.SettleRead? || self.step.SettleCompared? ==>
          self.at < |f.cases| && CoversSent(f.sent, ReservationId(f.cases[self.at]), self.step.cents))
    && (self.step.SettleRead? || self.step.SettleCompared? ==>
          Valid(Settle(self.step.seen, ReservationId(f.cases[self.at]), self.step.cents)))
    && (InRenameWindow(self.step) ==> self.step.seen == f.ledger)
  }

  ghost predicate RequestInv(f: Files, k: nat, id: string, q: nat, step: RequestStep) {
    match step
    case Screened => true
    case BudgetChecked => Backed(f.ledger, id) && (IsSettled(f.ledger.settlements, id) ==> id in f.markers)
    case Marked =>
      Backed(f.ledger, id) && !IsSettled(f.ledger.settlements, id) && id in f.markers && f.markers[id] == (k, q) && !SentFor(f.sent, id)
    case Sent(i) => i < |f.sent| && f.sent[i].reservationId == id
  }

  ghost predicate RunInv(f: Files, k: nat, self: CaseRun) {
    && (forall q :: q in self.requests ==> RequestInv(f, k, self.reservationId, q, self.requests[q]))
    && AnswerInv(f, self.reservationId, self.answer)
  }

  ghost predicate Inv(w: World) {
    && FilesInv(w.files)
    && (forall p :: p in w.cohorts ==> CohortInv(w.files, p, w.cohorts[p]))
    && (forall k :: k in w.runs ==> RunInv(w.files, k, w.runs[k]))
  }

  // ---- how the shared files evolve ----

  /** Nothing recorded is ever taken back: ledger rows, settlements, markers and sent requests only grow. */
  ghost predicate Grows(f: Files, f': Files) {
    && f.cases == f'.cases
    && f.ledger.reservations <= f'.ledger.reservations
    && f.ledger.settlements <= f'.ledger.settlements
    && (forall id :: id in f.markers ==> id in f'.markers && f'.markers[id] == f.markers[id])
    && f.sent <= f'.sent
  }

  /** A new row attempts no frozen case that was attempted before. */
  ghost predicate AppendsFresh(f: Files, f': Files) {
    forall i, c :: |f.ledger.reservations| <= i < |f'.ledger.reservations| && c in f.cases && Attempts(f'.ledger.reservations[i], c) ==>
      i == |f.ledger.reservations| && !Attempted(f.ledger, c)
  }

  /** Only a reservation whose request was sent is settled, and for at least that request's cost. */
  ghost predicate SettlesSent(f: Files, f': Files) {
    forall s :: |f.ledger.settlements| <= s < |f'.ledger.settlements| ==>
      CoversSent(f.sent, f'.ledger.settlements[s].reservationId, f'.ledger.settlements[s].actualCostCents)
  }

  /** Only the creator of a marker sends on its reservation, once, and settles nothing in that step. */
  ghost predicate SendsAs(f: Files, f': Files, k: nat) {
    forall i :: |f.sent| <= i < |f'.sent| ==>
      && i == |f.sent| && f'.sent[i].reservationId in f.markers && f.markers[f'.sent[i].reservationId].0 == k
  }

  lemma GrowthKeeps(f: Files, f': Files, id: string, cents: int)
    requires Grows(f, f')
    ensures Backed(f.ledger, id) ==> Backed(f'.ledger, id)
    ensures SentFor(f.sent, id) ==> SentFor(f'.sent, id)
    ensures CoversSent(f.sent, id, cents) ==> CoversSent(f'.sent, id, cents)
  {
    if Backed(f.ledger, id) {
      var i :| 0 <= i < |f.ledger.reservations| && f.ledger.reservations[i].id == id && f.ledger.reservations[i].maximumCostCents >= 600;
      assert f'.ledger.reservations[i] == f.ledger.reservations[i];
    }
    if SentFor(f.sent, id) {
      var i :| 0 <= i < |f.sent| && f.sent[i].reservationId == id;
      assert f'.sent[i] == f.sent[i];
    }
    if CoversSent(f.sent, id, cents) {
      var i :| 0 <= i < |f.sent| && f.sent[i].reservationId == id && Cost(f.sent[i]) <= cents as real;
      assert f'.sent[i] == f.sent[i];
    }
  }

  /** A reservation that is settled now was settled before, or its request was sent. */
  ghost predicate SettledOrSent(f: Files, f': Files, id: string) {
    IsSettled(f'.ledger.settlements, id) ==> IsSettled(f.ledger.settlements, id) || SentFor(f.sent, id)
  }

  lemma NewlySettled(f: Files, f': Files, id: string)
    requires Grows(f, f') && SettlesSent(f, f')
    ensures SettledOrSent(f, f', id)
  {
    hide Cost;
    if IsSettled(f'.ledger.settlements, id) {
      var s :| 0 <= s < |f'.ledger.settlements| && f'.ledger.settlements[s].reservationId == id;
      if s < |f.ledger.settlements| { assert f.ledger.settlements[s] == f'.ledger.settlements[s]; }
    }
  }

  lemma NewlyAttempted(f: Files, f': Files, c: AnswerCase)
    requires Grows(f, f')
    requires forall i :: |f.ledger.reservations| <= i < |f'.ledger.reservations| ==> !Attempts(f'.ledger.reservations[i], c)
    ensures Attempted(f'.ledger, c) ==> Attempted(f.ledger, c)
  {
    hide Attempts;
    if Attempted(f'.ledger, c) {
      var i :| 0 <= i < |f'.ledger.reservations| && Attempts(f'.ledger.reservations[i], c);
      assert f.ledger.reservations[i] == f'.ledger.reservations[i];
    }
  }

  // ---- a cohort's own operation ----

  lemma ControlOpKeeps(f: Files, p: nat, self: Cohort, op: CohortOp)
    requires CohortInv(f, p, self)
    ensures var (f', self') := ControlOp(f, p, self, op);
            && f' == f.(lock := f'.lock) && CohortInv(f', p, self')
            && (f.lock.Some? && f.lock != Some(p) ==> f'.lock == f.lock)
  {
    hide Valid, Attempted, CoversSent;
  }

  lemma ReserveOpKeeps(f: Files, p: nat, self: Cohort, op: CohortOp)
    requires FilesInv(f) && CohortInv(f, p, self) && self.at < |f.cases|
    ensures var (f', self') := ReserveOp(f, p, self, op);
            && f' == f.(ledger := f'.ledger) && CohortInv(f', p, self') && Valid(f'.ledger)
            && (f' == f || (HoldsLock(self.step) && f'.ledger == Reserve(f.ledger, CaseRow(f.cases[self.at])) && !Attempted(f.ledger, f.cases[self.at])))
  {
    hide Valid, Attempted, CoversSent, CaseRow, ReservationId;
  }

  lemma SettleOpKeeps(f: Files, p: nat, self: Cohort, op: CohortOp)
    requires FilesInv(f) && CohortInv(f, p, self) && self.at < |f.cases|
    ensures var (f', self') := SettleOp(f, p, self, op);
            && f' == f.(ledger := f'.ledger) && CohortInv(f', p, self') && Valid(f'.ledger)
            && (f' == f || (HoldsLock(self.step) && CoversSent(f.sent, ReservationId(f.cases[self.at]), SettledCents(self.step))
                            && f'.ledger == Settle(f.ledger, ReservationId(f.cases[self.at]), SettledCents(self.step))))
  {
    hide Valid, Attempted, CoversSent, ReservationId, EvidenceCents, ProofInv;
    if op.ReadProof? { ReadProofCovers(f, p, self); }
  }

  function SettledCents(step: CohortStep): int {
    if step.SettleCompared? then step.cents else 0
  }

  /** A proof that prices at `cents` reports a request that was sent on its reservation and cost no more. */
  lemma ReadProofCovers(f: Files, p: nat, self: Cohort)
    requires FilesInv(f) && self.at < |f.cases|
    ensures var id := ReservationId(f.cases[self.at]);
            id in f.proofs && EvidenceCents(f.proofs[id]).Ok? ==> CoversSent(f.sent, id, EvidenceCents(f.proofs[id]).value)
  {
    hide Valid, OneAttemptEach, SettledInv, TrueCents;
    var id := ReservationId(f.cases[self.at]);
    if id in f.proofs && EvidenceCents(f.proofs[id]).Ok? {
      var ev := f.proofs[id];
      assert ProofInv(f, id);
      var r := f.sent[ev.answer.value.index];
      SettledCoversCost(ev.forwarded, Some(ev.answer.value.status), ev.result, r.rates);
    }
  }

  // ---- what an operation does to the shared files ----

  lemma ReserveKeepsFiles(f: Files, row: Reservation)
    requires FilesInv(f) && Valid(Reserve(f.ledger, row))
    requires forall c :: c in f.cases && Attempts(row, c) ==> !Attempted(f.ledger, c)
    ensures var f' := f.(ledger := Reserve(f.ledger, row)); FilesInv(f') && Grows(f, f') && AppendsFresh(f, f') && SettlesSent(f, f')
  {
    hide Valid, TrueCents, Honest;
    var f' := f.(ledger := Reserve(f.ledger, row));
    assert Grows(f, f');
    forall i | 0 <= i < |f'.sent| ensures Backed(f'.ledger, f'.sent[i].reservationId) {
      GrowthKeeps(f, f', f.sent[i].reservationId, 0);
    }
    assert SentInv(f');
    assert SettledInv(f');
    ReserveKeepsOneAttempt(f, row);
    forall id | id in f'.proofs ensures ProofInv(f', id) { assert ProofInv(f, id); }
  }

  lemma ReserveKeepsOneAttempt(f: Files, row: Reservation)
    requires OneAttemptEach(f) && forall c :: c in f.cases && Attempts(row, c) ==> !Attempted(f.ledger, c)
    ensures OneAttemptEach(f.(ledger := Reserve(f.ledger, row)))
  {
    hide Attempts;
    var b := Reserve(f.ledger, row);
    forall i, j, c | 0 <= i < j < |b.reservations| && c in f.cases
      ensures !(Attempts(b.reservations[i], c) && Attempts(b.reservations[j], c))
    {
      if j == |f.ledger.reservations| && Attempts(row, c) {
        assert b.reservations[i] == f.ledger.reservations[i];
      }
    }
  }

  lemma SettleKeepsFiles(f: Files, id: string, cents: int)
    requires FilesInv(f) && Valid(Settle(f.ledger, id, cents)) && (CoversSent(f.sent, id, cents) || !SentFor(f.sent, id))
    ensures var f' := f.(ledger := Settle(f.ledger, id, cents));
            && FilesInv(f') && Grows(f, f') && AppendsFresh(f, f') && (CoversSent(f.sent, id, cents) ==> SettlesSent(f, f'))
            && forall x :: IsSettled(f'.ledger.settlements, x) ==> IsSettled(f.ledger.settlements, x) || x == id
  {
    hide Valid, Cost, Honest, Attempts;
    var f' := f.(ledger := Settle(f.ledger, id, cents));
    forall s, i | 0 <= s < |f'.ledger.settlements| && 0 <= i < |f'.sent|
                  && f'.ledger.settlements[s].reservationId == f'.sent[i].reservationId
      ensures Cost(f'.sent[i]) <= f'.ledger.settlements[s].actualCostCents as real
    {
      if s == |f.ledger.settlements| {
        assert SentFor(f.sent, id) by { assert f.sent[i].reservationId == id; }
        var j :| 0 <= j < |f.sent| && f.sent[j].reservationId == id && Cost(f.sent[j]) <= cents as real;
        assert i == j;
      } else {
        assert f.ledger.settlements[s] == f'.ledger.settlements[s];
      }
    }
    assert forall b: string :: Backed(f.ledger, b) ==> Backed(f'.ledger, b);
    forall p | p in f'.proofs ensures ProofInv(f', p) { assert ProofInv(f, p); }
    forall x | IsSettled(f'.ledger.settlements, x) ensures IsSettled(f.ledger.settlements, x) || x == id {
      var k :| 0 <= k < |f'.ledger.settlements| && f'.ledger.settlements[k].reservationId == x;
      if k < |f.ledger.settlements| { assert f.ledger.settlements[k].reservationId == x; }
    }
  }

  lemma SameCase(own: AnswerCase, c: AnswerCase)
    requires Attempts(CaseRow(own), c)
    ensures forall row :: Attempts(row, c) ==> Attempts(row, own)
  {
    if ReservationId(own) == ReservationId(c) {
      assert ReservationId(own)[|"p10-claude-"|..] == own.id;
      assert ReservationId(c)[|"p10-claude-"|..] == c.id;
    }
    assert own.id == c.id;
  }

  lemma FreshForEveryCase(f: Files, own: AnswerCase)
    requires !Attempted(f.ledger, own)
    ensures forall c :: c in f.cases && Attempts(CaseRow(own), c) ==> !Attempted(f.ledger, c)
  {
    forall c | c in f.cases && Attempts(CaseRow(own), c) ensures !Attempted(f.ledger, c) {
      SameCase(own, c);
    }
  }

  /** A cohort's operation keeps the shared files sound, and touches lock and ledger only as their owner. */
  lemma CohortDoKeeps(f: Files, p: nat, self: Cohort, op: CohortOp)
    requires FilesInv(f) && CohortInv(f, p, self)
    ensures var (f', self') := CohortDo(f, p, self, op);
            && FilesInv(f') && CohortInv(f', p, self')
            && Grows(f, f') && SettlesSent(f, f') && f'.sent == f.sent
            && (f.lock.Some? && f.lock != Some(p) ==> f'.lock == f.lock && f'.ledger == f.ledger)
  {
    hide Valid, Attempted, CoversSent, Attempts, Honest, ReserveOp, SettleOp, ControlOp, CaseRow, ReservationId, Cost, Backed;
    if op.TakeLock? || op.AwaitChild? || op.ChildExits? || op.EnterFinally? || op.ReleaseLock? {
      ControlOpKeeps(f, p, self, op);
      LockDoesNotMatter(f, ControlOp(f, p, self, op).0.lock);
    } else if self.at < |f.cases| {
      var c := f.cases[self.at];
      if op.CheckAttempts? || op.CheckEvidence? || op.ReadForReserve? || op.CompareForReserve? || op.RenameReserve? {
        ReserveOpKeeps(f, p, self, op);
        if ReserveOp(f, p, self, op).0 != f {
          FreshForEveryCase(f, c);
          ReserveKeepsFiles(f, CaseRow(c));
        }
      } else {
        SettleOpKeeps(f, p, self, op);
        if SettleOp(f, p, self, op).0 != f { SettleKeepsFiles(f, ReservationId(c), SettledCents(self.step)); }
      }
    }
  }

  lemma LockDoesNotMatter(f: Files, lock: Option<nat>)
    requires FilesInv(f)
    ensures FilesInv(f.(lock := lock)) && Grows(f, f.(lock := lock)) && SettlesSent(f, f.(lock := lock))
  {
    hide Valid, Attempts, Cost, Honest, Backed, CoversSent;
    var f' := f.(lock := lock);
    forall id | id in f'.proofs ensures ProofInv(f', id) { assert ProofInv(f, id); }
  }

  // ---- a case run's own operation ----

  lemma SendKeeps(f: Files, k: nat, self: CaseRun, op: CaseOp)
    requires FilesInv(f) && RunInv(f, k, self) && op.SendUpstream?
    ensures var (f', self') := CaseDo(f, k, self, op);
            && FilesInv(f') && RunInv(f', k, self') && Grows(f, f') && SendsAs(f, f', k)
            && f'.ledger == f.ledger && f'.lock == f.lock
  {
    hide Valid, Attempts, Cost, Backed, WithinModelLimits, WithinPublishedRates;
    var (f', self') := CaseDo(f, k, self, op);
    if f' != f {
      var id := self.reservationId;
      assert RequestInv(f, k, id, op.q, Marked);
      assert forall i :: 0 <= i < |f.sent| ==> f'.sent[i] == f.sent[i];
      assert SentInv(f');
      assert SettledInv(f') by {
        forall s, i | 0 <= s < |f'.ledger.settlements| && 0 <= i < |f'.sent|
                      && f'.ledger.settlements[s].reservationId == f'.sent[i].reservationId
          ensures Cost(f'.sent[i]) <= f'.ledger.settlements[s].actualCostCents as real
        {
          assert i < |f.sent| && f'.sent[i] == f.sent[i];
        }
      }
      forall x | x in f'.proofs ensures ProofInv(f', x) { assert ProofInv(f, x); }
      forall q | q in self'.requests ensures RequestInv(f', k, id, q, self'.requests[q]) {
        if q != op.q { assert RequestInv(f, k, id, q, self.requests[q]); }
      }
    }
  }

  lemma MarkerKeeps(f: Files, k: nat, self: CaseRun, op: CaseOp)
    requires FilesInv(f) && RunInv(f, k, self) && op.CreateMarker?
    ensures var (f', self') := CaseDo(f, k, self, op);
            && FilesInv(f') && RunInv(f', k, self') && Grows(f, f') && SendsAs(f, f', k)
            && f'.ledger == f.ledger && f'.lock == f.lock
  {
    hide Valid, Attempts, Cost, Backed, WithinModelLimits, WithinPublishedRates, Honest;
    var (f', self') := CaseDo(f, k, self, op);
    if f' != f {
      var id := self.reservationId;
      assert RequestInv(f, k, id, op.q, BudgetChecked);
      forall x | x in f'.proofs ensures ProofInv(f', x) { assert ProofInv(f, x); }
      forall q | q in self'.requests ensures RequestInv(f', k, id, q, self'.requests[q]) {
        if q != op.q { assert RequestInv(f, k, id, q, self.requests[q]); }
      }
      assert !SentFor(f'.sent, id);
    }
  }

  lemma QuietCaseOpKeeps(f: Files, k: nat, self: CaseRun, op: CaseOp)
    requires FilesInv(f) && RunInv(f, k, self) && !op.SendUpstream? && !op.CreateMarker?
    ensures var (f', self') := CaseDo(f, k, self, op);
            && FilesInv(f') && RunInv(f', k, self') && Grows(f, f') && SendsAs(f, f', k)
            && f'.ledger == f.ledger && f'.lock == f.lock
  {
    hide Valid, Attempts, Cost, WithinModelLimits, WithinPublishedRates, Honest;
    var (f', self') := CaseDo(f, k, self, op);
    forall x | x in f'.proofs ensures ProofInv(f', x) { if x in f.proofs { assert ProofInv(f, x); } }
    forall q | q in self'.requests ensures RequestInv(f', k, self.reservationId, q, self'.requests[q]) {
      if q in self.requests { assert RequestInv(f, k, self.reservationId, q, self.requests[q]); }
    }
  }

  /** A case run's operation keeps the shared files sound, leaves lock and ledger alone, and sends only under its own marker. */
  lemma CaseDoKeeps(f: Files, k: nat, self: CaseRun, op: CaseOp)
    requires FilesInv(f) && RunInv(f, k, self)
    ensures var (f', self') := CaseDo(f, k, self, op);
            && FilesInv(f') && RunInv(f', k, self') && Grows(f, f') && SendsAs(f, f', k)
            && f'.ledger == f.ledger && f'.lock == f.lock
  {
    hide CaseDo, FilesInv, RunInv, Grows, SendsAs;
    if op.SendUpstream? { SendKeeps(f, k, self, op); }
    else if op.CreateMarker? { MarkerKeeps(f, k, self, op); }
    else { QuietCaseOpKeeps(f, k, self, op); }
  }

  // ---- what the other processes keep ----

  lemma CohortUndisturbed(f: Files, f': Files, p: nat, self: Cohort)
    requires CohortInv(f, p, self) && Grows(f, f')
    requires HoldsLock(self.step) ==> f'.lock == f.lock
    requires InRenameWindow(self.step) ==> f'.ledger == f.ledger
    requires Reserving(self.step) && f'.ledger != f.ledger ==>
               forall i :: |f.ledger.reservations| <= i < |f'.ledger.reservations| ==> !Attempts(f'.ledger.reservations[i], f.cases[self.at])
    ensures CohortInv(f', p, self)
  {
    hide Valid, Attempts, Cost;
    if self.at < |f.cases| {
      var c := f.cases[self.at];
      if Reserving(self.step) { NewlyAttempted(f, f', c); }
      if self.step.Priced? || self.step.SettleRead? || self.step.SettleCompared? { GrowthKeeps(f, f', ReservationId(c), self.step.cents); }
    }
  }

  lemma RunUndisturbed(f: Files, f': Files, k: nat, self: CaseRun, other: nat)
    requires RunInv(f, k, self) && SentInv(f) && Grows(f, f') && (NonePastCheck(self) || SettledOrSent(f, f', self.reservationId))
    requires f'.sent == f.sent || (SendsAs(f, f', other) && other != k)
    ensures RunInv(f', k, self)
  {
    hide Cost, Backed, WithinModelLimits, WithinPublishedRates;
    var id := self.reservationId;
    GrowthKeeps(f, f', id, 0);
    forall q | q in self.requests ensures RequestInv(f', k, id, q, self.requests[q]) {
      assert RequestInv(f, k, id, q, self.requests[q]);
      if self.requests[q] == Marked && SentFor(f'.sent, id) {
        var i :| 0 <= i < |f'.sent| && f'.sent[i].reservationId == id;
        assert i < |f.sent| ==> f.sent[i] == f'.sent[i];
      }
    }
  }

  // ---- every action keeps the invariant ----

  lemma CohortActionKeeps(w: World, p: nat, op: CohortOp)
    requires Inv(w)
    ensures Inv(Do(w, StepCohort(p, op))) && Grows(w.files, Do(w, StepCohort(p, op)).files)
  {
    hide FilesInv, CohortInv, RunInv, CohortDo, SettlesSent;
    if p in w.cohorts {
      CohortDoKeeps(w.files, p, w.cohorts[p], op);
      var w' := Do(w, StepCohort(p, op));
      assert SentInv(w.files) by { SoundFiles(w.files); }
      forall q | q in w'.cohorts ensures CohortInv(w'.files, q, w'.cohorts[q]) {
        if q != p {
          HolderIsLock(w.files, q, w.cohorts[q]);
          CohortUndisturbed(w.files, w'.files, q, w.cohorts[q]);
        }
      }
      forall k | k in w'.runs ensures RunInv(w'.files, k, w'.runs[k]) {
        NewlySettled(w.files, w'.files, w.runs[k].reservationId);
        RunUndisturbed(w.files, w'.files, k, w.runs[k], 0);
      }
    }
  }

  lemma SoundFiles(f: Files)
    requires FilesInv(f)
    ensures Valid(f.ledger) && OneAttemptEach(f) && SentInv(f) && SettledInv(f)
  {
  }

  lemma HolderIsLock(f: Files, p: nat, self: Cohort)
    requires CohortInv(f, p, self)
    ensures HoldsLock(self.step) ==> f.lock == Some(p)
  {
  }

  lemma CaseActionKeeps(w: World, k: nat, op: CaseOp)
    requires Inv(w)
    ensures Inv(Do(w, StepCase(k, op))) && Grows(w.files, Do(w, StepCase(k, op)).files)
  {
    hide FilesInv, CohortInv, RunInv, CaseDo;
    if k in w.runs {
      CaseDoKeeps(w.files, k, w.runs[k], op);
      var w' := Do(w, StepCase(k, op));
      assert SentInv(w.files) by { SoundFiles(w.files); }
      forall q | q in w'.cohorts ensures CohortInv(w'.files, q, w'.cohorts[q]) { CohortUndisturbed(w.files, w'.files, q, w.cohorts[q]); }
      forall m | m in w'.runs ensures RunInv(w'.files, m, w'.runs[m]) {
        if m != k {
          assert SettledOrSent(w.files, w'.files, w.runs[m].reservationId);
          RunUndisturbed(w.files, w'.files, m, w.runs[m], k);
        }
      }
    }
  }

  lemma RootActionKeeps(w: World, a: Action)
    requires Inv(w) && (a.RootReserve? || a.RootSettle?)
    ensures Inv(Do(w, a)) && Grows(w.files, Do(w, a).files)
  {
    hide Valid, FilesInv, CohortInv, RunInv, Attempts, CoversSent;
    var w' := Do(w, a);
    if w' != w {
      if a.RootReserve? { ReserveKeepsFiles(w.files, a.row); } else { SettleKeepsFiles(w.files, a.id, a.cents); }
      hide SentFor, SettledOrSent;
      assert SentInv(w.files) by { SoundFiles(w.files); }
      forall q | q in w'.cohorts ensures CohortInv(w'.files, q, w'.cohorts[q]) {
        if Reserving(w.cohorts[q].step) { CaseInRange(w.files, q, w.cohorts[q]); }
        CohortUndisturbed(w.files, w'.files, q, w.cohorts[q]);
      }
      forall m | m in w'.runs ensures RunInv(w'.files, m, w'.runs[m]) {
        RootSettlesSafely(w, a, m);
        RunUndisturbed(w.files, w'.files, m, w.runs[m], 0);
      }
    }
  }

  /** Root settles what was sent, or what no request has come close to sending. */
  lemma RootSettlesSafely(w: World, a: Action, m: nat)
    requires Inv(w) && (a.RootReserve? || a.RootSettle?) && Do(w, a) != w && m in w.runs
    ensures NonePastCheck(w.runs[m]) || SettledOrSent(w.files, Do(w, a).files, w.runs[m].reservationId)
  {
    hide Valid, FilesInv, CohortInv, RunInv, Attempts, NonePastCheck, Cost;
    if a.RootSettle? {
      var id := w.runs[m].reservationId;
      SettleKeepsFiles(w.files, a.id, a.cents);
      if CoversSent(w.files.sent, a.id, a.cents) { NewlySettled(w.files, Do(w, a).files, id); }
    }
  }

  lemma CaseInRange(f: Files, p: nat, self: Cohort)
    requires CohortInv(f, p, self) && Reserving(self.step)
    ensures self.at < |f.cases| && f.cases[self.at] in f.cases
  {
  }

  lemma LifecycleActionKeeps(w: World, a: Action)
    requires Inv(w) && (a.StartCohort? || a.CrashCohort? || a.ClearStaleLock? || a.StartCase? || a.EndCase?)
    ensures Inv(Do(w, a)) && Grows(w.files, Do(w, a).files)
  {
    hide Valid, Attempts, CoversSent, Admits, Honest, Backed, Cost;
    var w' := Do(w, a);
    if a.ClearStaleLock? {
      LockDoesNotMatter(w.files, w'.files.lock);
      forall q | q in w'.cohorts ensures CohortInv(w'.files, q, w'.cohorts[q]) {
        assert CohortInv(w.files, q, w.cohorts[q]);
        CohortUndisturbed(w.files, w'.files, q, w.cohorts[q]);
      }
      forall m | m in w'.runs ensures RunInv(w'.files, m, w'.runs[m]) { RunUndisturbed(w.files, w'.files, m, w.runs[m], 0); }
    }
  }

  lemma ActionKeeps(w: World, a: Action)
    requires Inv(w)
    ensures Inv(Do(w, a)) && Grows(w.files, Do(w, a).files)
  {
    hide Inv, Do, Grows;
    match a
    case StepCohort(p, op) => CohortActionKeeps(w, p, op);
    case StepCase(k, op) => CaseActionKeeps(w, k, op);
    case RootReserve(_) => RootActionKeeps(w, a);
    case RootSettle(_, _) => RootActionKeeps(w, a);
    case _ => LifecycleActionKeeps(w, a);
  }

  // ---- main results, over every run ----

  lemma InitialInv(w: World)
    requires Initial(w)
    ensures Inv(w)
  {
  }

  /** Every reachable state is sound. */
  lemma {:induction false} RunKeepsInv(w: World, actions: seq<Action>)
    requires Initial(w)
    ensures Inv(Exec(w, actions))
  {
    hide Inv, Do, Initial;
    if actions == [] {
      InitialInv(w);
    } else {
      RunKeepsInv(w, actions[..|actions| - 1]);
      ActionKeeps(Exec(w, actions[..|actions| - 1]), actions[|actions| - 1]);
    }
  }

  /** What a run has recorded it keeps, however the run goes on. */
  lemma {:induction false} RunOnlyGrows(w: World, actions: seq<Action>, n: nat)
    requires Initial(w) && n <= |actions|
    ensures Grows(Exec(w, actions[..n]).files, Exec(w, actions).files)
  {
    hide Inv, Do, Initial;
    if n == |actions| {
      assert actions[..n] == actions;
    } else {
      var front := actions[..|actions| - 1];
      RunOnlyGrows(w, front, n);
      assert front[..n] == actions[..n];
      RunKeepsInv(w, front);
      ActionKeeps(Exec(w, front), actions[|actions| - 1]);
    }
  }

  /** At most one upstream request leaves for each reservation, and each frozen case is reserved at most once: whatever
      the interleaving, the crashes and the reruns. */
  lemma AtMostOneEach(w: World, actions: seq<Action>)
    requires Initial(w)
    ensures var f := Exec(w, actions).files;
            && (forall i, j :: 0 <= i < j < |f.sent| ==> f.sent[i].reservationId != f.sent[j].reservationId)
            && (forall i, j, c :: 0 <= i < j < |f.ledger.reservations| && c in f.cases ==>
                  !(Attempts(f.ledger.reservations[i], c) && Attempts(f.ledger.reservations[j], c)))
            && Valid(f.ledger)
  {
    RunKeepsInv(w, actions);
    SoundFiles(Exec(w, actions).files);
  }

  /** No two cohorts are ever inside the locked region at once. */
  lemma OneLockedCohort(w: World, actions: seq<Action>, p: nat, q: nat)
    requires Initial(w)
    requires p in Exec(w, actions).cohorts && q in Exec(w, actions).cohorts
    requires HoldsLock(Exec(w, actions).cohorts[p].step) && HoldsLock(Exec(w, actions).cohorts[q].step)
    ensures p == q
  {
    RunKeepsInv(w, actions);
    HolderIsLock(Exec(w, actions).files, p, Exec(w, actions).cohorts[p]);
    HolderIsLock(Exec(w, actions).files, q, Exec(w, actions).cohorts[q]);
  }

  // ---- the budget covers the true cost ----

  function TotalCost(sent: seq<Upstream>): real {
    if sent == [] then 0.0 else TotalCost(sent[..|sent| - 1]) + Cost(sent[|sent| - 1])
  }

  function CostFor(sent: seq<Upstream>, id: string): real {
    if sent == [] then 0.0
    else CostFor(sent[..|sent| - 1], id) + if sent[|sent| - 1].reservationId == id then Cost(sent[|sent| - 1]) else 0.0
  }

  function RowCosts(rows: seq<Reservation>, sent: seq<Upstream>): real {
    if rows == [] then 0.0 else RowCosts(rows[..|rows| - 1], sent) + CostFor(sent, rows[|rows| - 1].id)
  }

  ghost predicate NamesRow(rows: seq<Reservation>, id: string) {
    exists i :: 0 <= i < |rows| && rows[i].id == id
  }

  /** One more request adds its cost to the rows' total once, because just one row carries its id. */
  lemma {:induction false} RowCostsAdd(rows: seq<Reservation>, sent: seq<Upstream>)
    requires DistinctIds(rows) && sent != []
    ensures var last := sent[|sent| - 1];
            RowCosts(rows, sent) == RowCosts(rows, sent[..|sent| - 1])
                                    + if NamesRow(rows, last.reservationId) then Cost(last) else 0.0
  {
    hide Cost;
    if rows != [] {
      var front := rows[..|rows| - 1];
      RowCostsAdd(front, sent);
      assert forall i :: 0 <= i < |front| ==> front[i] == rows[i];
    }
  }

  lemma {:induction false} RowCostsNone(rows: seq<Reservation>)
    ensures RowCosts(rows, []) == 0.0
  {
    if rows != [] { RowCostsNone(rows[..|rows| - 1]); }
  }

  lemma {:induction false} TotalByRow(rows: seq<Reservation>, sent: seq<Upstream>)
    requires DistinctIds(rows)
    requires forall j :: 0 <= j < |sent| ==> NamesRow(rows, sent[j].reservationId)
    ensures RowCosts(rows, sent) == TotalCost(sent)
  {
    hide Cost, DistinctIds;
    if sent == [] {
      RowCostsNone(rows);
    } else {
      assert forall j :: 0 <= j < |sent| - 1 ==> sent[..|sent| - 1][j] == sent[j];
      TotalByRow(rows, sent[..|sent| - 1]);
      RowCostsAdd(rows, sent);
    }
  }

  lemma {:induction false} CostForOne(sent: seq<Upstream>, id: string)
    requires forall i, j :: 0 <= i < j < |sent| ==> sent[i].reservationId != sent[j].reservationId
    ensures !SentFor(sent, id) ==> CostFor(sent, id) == 0.0
    ensures forall i :: 0 <= i < |sent| && sent[i].reservationId == id ==> CostFor(sent, id) == Cost(sent[i])
  {
    hide Cost;
    if sent != [] {
      var front := sent[..|sent| - 1];
      assert forall i :: 0 <= i < |front| ==> front[i] == sent[i];
      CostForOne(front, id);
      if SentFor(front, id) {
        var i :| 0 <= i < |front| && front[i].reservationId == id;
        assert sent[i].reservationId == id;
      }
    }
  }

  /** Each row is charged at least what the requests on it cost. */
  lemma RowCovers(f: Files, i: nat)
    requires FilesInv(f) && i < |f.ledger.reservations|
    ensures CostFor(f.sent, f.ledger.reservations[i].id) <= ChargeOf(f.ledger.reservations[i], f.ledger.settlements) as real
  {
    hide Cost, WithinModelLimits, WithinPublishedRates, OneAttemptEach;
    var row := f.ledger.reservations[i];
    ChargeNonNegative(f.ledger, i);
    CostForOne(f.sent, row.id);
    if SentFor(f.sent, row.id) {
      var j :| 0 <= j < |f.sent| && f.sent[j].reservationId == row.id;
      ChargeIsSettlement(row, f.ledger.settlements);
      if !IsSettled(f.ledger.settlements, row.id) {
        var m :| 0 <= m < |f.ledger.reservations| && f.ledger.reservations[m].id == row.id && f.ledger.reservations[m].maximumCostCents >= 600;
        assert m == i;
        SentCost(f, j);
      }
    }
  }

  lemma SentCost(f: Files, j: nat)
    requires SentInv(f) && j < |f.sent|
    ensures Cost(f.sent[j]) <= 580.8
  {
    hide TrueCents;
    ModelCeiling(f.sent[j].usage, f.sent[j].rates);
  }

  lemma {:induction false} RowsCover(f: Files, n: nat)
    requires FilesInv(f) && n <= |f.ledger.reservations|
    ensures RowCosts(f.ledger.reservations[..n], f.sent) <= Charged(f.ledger.reservations[..n], f.ledger.settlements) as real
  {
    hide FilesInv, CostFor, ChargeOf;
    if n > 0 {
      RowsCover(f, n - 1);
      RowCovers(f, n - 1);
      assert f.ledger.reservations[..n][..n - 1] == f.ledger.reservations[..n - 1];
    }
  }

  /** In every reachable state the requests sent so far cost at most what the ledger charges, and that is at most ten dollars. */
  lemma TrueCostWithinBudget(w: World, actions: seq<Action>)
    requires Initial(w)
    ensures var f := Exec(w, actions).files;
            TotalCost(f.sent) <= Charged(f.ledger.reservations, f.ledger.settlements) as real <= 1000.0
  {
    hide Cost, WithinModelLimits, WithinPublishedRates, OneAttemptEach, Initial, Exec;
    var f := Exec(w, actions).files;
    RunKeepsInv(w, actions);
    RowsCover(f, |f.ledger.reservations|);
    assert f.ledger.reservations[..|f.ledger.reservations|] == f.ledger.reservations;
    forall j | 0 <= j < |f.sent| ensures NamesRow(f.ledger.reservations, f.sent[j].reservationId) {
      assert Backed(f.ledger, f.sent[j].reservationId);
    }
    TotalByRow(f.ledger.reservations, f.sent);
  }

  /** An uncertain attempt stops the spending: while a row of at least 600 cents is not settled, it stays charged in full
      and no other row of at least 600 cents can be added by anyone. */
  lemma UncertainAttemptStops(w: World, actions: seq<Action>, i: nat, row: Reservation)
    requires Initial(w)
    requires var b := Exec(w, actions).files.ledger;
             i < |b.reservations| && b.reservations[i].maximumCostCents >= 600 && !IsSettled(b.settlements, b.reservations[i].id)
    ensures var b := Exec(w, actions).files.ledger;
            && ChargeOf(b.reservations[i], b.settlements) == b.reservations[i].maximumCostCents
            && (row.maximumCostCents >= 600 ==> !Valid(Reserve(b, row)))
  {
    hide Initial, Exec;
    var b := Exec(w, actions).files.ledger;
    RunKeepsInv(w, actions);
    SoundFiles(Exec(w, actions).files);
    ChargeIsSettlement(b.reservations[i], b.settlements);
    OneOpenReservation(b, i, row);
    if Valid(Reserve(b, row)) { UnsettledWhenNew(b, row); }
    hide Valid, ChargeOf;
  }
}
