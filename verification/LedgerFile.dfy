/** Rewriting the ledger file: read, change, compare with the file again, rename over it. The compare and the rename are
    two operations, and someone else may edit the file before either. */
module LedgerFile {
  import opened Outcomes
  import opened NativeBudget

  datatype UpdateError = InvalidLedger | Refused | InvalidChange | ConcurrentEdit

  /** What a change makes of the ledger; `None` when the change itself refuses. */
  type Change = Budget -> Option<Budget>

  function Reserving(row: Reservation): Change {
    (b: Budget) => Some(Reserve(b, row))
  }

  function Settling(id: string, cents: int): Change {
    (b: Budget) => if IsSettled(b.settlements, id) then None else Some(Settle(b, id, cents))
  }

  /** What an update answers and leaves in the file. `early` is an edit that lands before the comparison and stops the
      update; a `late` one lands before the rename and is overwritten by it. */
  function Updated(was: Budget, change: Change, early: Option<Budget>, late: Option<Budget>): (Result<(), UpdateError>, Budget) {
    var edited := if early.Some? then early.value else was;
    if !Valid(was) then (Err(InvalidLedger), edited)
    else if change(was).None? then (Err(Refused), edited)
    else if !Valid(change(was).value) then (Err(InvalidChange), edited)
    else if edited != was then (Err(ConcurrentEdit), edited)
    else (Ok(()), change(was).value)
  }

  /** Any change against any one edit that alters the ledger and is not the change itself: an edit before the comparison
      stops the update and stays; an edit after it is gone, and the update never hears of it. */
  lemma EditSurvivesExactlyWhenEarly(was: Budget, change: Change, edit: Budget, early: bool)
    requires Valid(was) && change(was).Some? && Valid(change(was).value) && edit != was && edit != change(was).value
    ensures var (r, now) := Updated(was, change, if early then Some(edit) else None, if early then None else Some(edit));
            && (now == edit <==> early) && (r == Err(ConcurrentEdit) <==> early) && (r == Ok(()) <==> !early)
            && (!early ==> now == change(was).value)
  {
  }

  /** A successful update leaves exactly its own change, whatever was edited meanwhile: of a late edit, only what the
      change would have written anyway. */
  lemma NothingOfALateEditIsLeft(was: Budget, change: Change, early: Option<Budget>, late: Option<Budget>, id: string)
    requires Updated(was, change, early, late).0.Ok?
    ensures var now := Updated(was, change, early, late).1;
            && Some(now) == change(was) && (early.Some? ==> early.value == was)
            && (HasRow(now, id) <==> HasRow(change(was).value, id))
            && (IsSettled(now.settlements, id) <==> IsSettled(change(was).value.settlements, id))
  {
  }

  /** A reservation that someone else adds while a cohort adds its own survives exactly when it lands before the
      comparison: then the cohort stops, and otherwise the other reservation is gone without a trace. */
  lemma ReservationSurvivesExactlyWhenEarly(was: Budget, row: Reservation, other: Reservation, early: bool)
    requires Valid(was) && Valid(Reserve(was, row)) && !HasRow(was, other.id) && other.id != row.id
    ensures var edit := Some(Reserve(was, other));
            var (r, now) := Updated(was, Reserving(row), if early then edit else None, if early then None else edit);
            && (HasRow(now, other.id) <==> early) && (r == Err(ConcurrentEdit) <==> early) && (HasRow(now, row.id) <== !early)
  {
    hide Valid;
    var edited, mine := Reserve(was, other), Reserve(was, row);
    assert edited.reservations[|was.reservations|] == other && mine.reservations[|was.reservations|] == row;
    assert forall i :: 0 <= i < |was.reservations| ==> mine.reservations[i] == was.reservations[i];
  }

  class File {
    var ledger: Budget

    constructor (ledger: Budget)
      ensures this.ledger == ledger
    {
      this.ledger := ledger;
    }

    method Update(change: Change, early: Option<Budget>, late: Option<Budget>) returns (r: Result<(), UpdateError>)
      modifies this
      ensures (r, ledger) == Updated(old(ledger), change, early, late)
    {
      var original := ledger;
      var next := change(original);
      var before := ValidateNativeBudget(original);
      var after := Validated(next);
      if early.Some? { ledger := early.value; }
      if before.Err? { return Err(InvalidLedger); }
      if next.None? { return Err(Refused); }
      if !after { return Err(InvalidChange); }
      if ledger != original { return Err(ConcurrentEdit); }
      if late.Some? { ledger := late.value; }
      ledger := next.value;
      r := Ok(());
    }
  }

  method Validated(b: Option<Budget>) returns (valid: bool)
    ensures valid <==> b.Some? && Valid(b.value)
  {
    if b.None? { return false; }
    var checked := ValidateNativeBudget(b.value);
    valid := checked.Ok?;
  }
}
