/** The shared spending ledger: its rows, its validity rules and the remaining budget.
    A number cell that is not a safe integer and an id cell that is not a string take the same branch as a
    negative number and the empty string, so they are represented by those values. */
module NativeBudget {
  import opened Outcomes
  import opened SafeIntegers

  const LIMIT_CENTS := 1000
  const MAX_TURNS := 64

  datatype Reservation = Reservation(
    id: string, package: string, turns: int, maximumCostCents: int,
    answerCaseId: Option<string>, driver: Option<string>)

  datatype Settlement = Settlement(reservationId: string, actualCostCents: int)

  /** `packages` holds each package's turn limit; `None` is a limit no number of turns exceeds. */
  datatype Budget = Budget(
    version: int, limitCents: int, maxTurns: int, reservationOwner: string,
    packages: map<string, Option<int>>,
    reservations: seq<Reservation>, settlements: seq<Settlement>)

  datatype Counters = Counters(remainingCents: int, remainingTurns: int, reservations: nat)

  datatype BudgetError =
    | NotAuthorized | BadReservation | BadSettlement | PackageTurnsExceeded | Exhausted

  // ---- what a valid ledger is ----

  predicate Authorized(b: Budget) {
    && b.version == 1 && b.limitCents == LIMIT_CENTS && b.maxTurns == MAX_TURNS && b.reservationOwner == "root"
    && "P07" in b.packages && b.packages["P07"] == Some(4)
    && "P10" in b.packages && b.packages["P10"] == Some(60)
  }

  predicate RowOk(b: Budget, row: Reservation) {
    && row.id != "" && row.package in b.packages
    && SafeCount(row.turns) && SafeCount(row.maximumCostCents) && row.turns >= 1
  }

  predicate DistinctIds(rows: seq<Reservation>) {
    forall i, j :: 0 <= i < j < |rows| ==> rows[i].id != rows[j].id
  }

  predicate DistinctSettlements(rows: seq<Settlement>) {
    forall i, j :: 0 <= i < j < |rows| ==> rows[i].reservationId != rows[j].reservationId
  }

  /** The settlement names a reservation and costs no more than it reserved. */
  predicate SettlementOk(b: Budget, row: Settlement) {
    && SafeCount(row.actualCostCents)
    && exists i :: 0 <= i < |b.reservations| && b.reservations[i].id == row.reservationId
                   && row.actualCostCents <= b.reservations[i].maximumCostCents
  }

  predicate IsSettled(settlements: seq<Settlement>, id: string) {
    exists i :: 0 <= i < |settlements| && settlements[i].reservationId == id
  }

  /** What a reservation is charged: its settlement when there is one, its full maximum otherwise. */
  function ChargeOf(row: Reservation, settlements: seq<Settlement>): int {
    if settlements == [] then row.maximumCostCents
    else
      var last := settlements[|settlements| - 1];
      if last.reservationId == row.id then last.actualCostCents
      else ChargeOf(row, settlements[..|settlements| - 1])
  }

  function Charged(rows: seq<Reservation>, settlements: seq<Settlement>): int {
    if rows == [] then 0
    else Charged(rows[..|rows| - 1], settlements) + ChargeOf(rows[|rows| - 1], settlements)
  }

  function TurnsOf(rows: seq<Reservation>): int {
    if rows == [] then 0 else TurnsOf(rows[..|rows| - 1]) + rows[|rows| - 1].turns
  }

  function PackageTurns(rows: seq<Reservation>, package: string): int {
    if rows == [] then 0
    else PackageTurns(rows[..|rows| - 1], package)
         + (if rows[|rows| - 1].package == package then rows[|rows| - 1].turns else 0)
  }

  predicate WithinPackage(b: Budget, package: string)
    requires package in b.packages
  {
    b.packages[package].Some? ==> PackageTurns(b.reservations, package) <= b.packages[package].value
  }

  predicate ReservationsOk(b: Budget) {
    && (forall i :: 0 <= i < |b.reservations| ==> RowOk(b, b.reservations[i]))
    && DistinctIds(b.reservations)
  }

  predicate SettlementsOk(b: Budget) {
    && (forall i :: 0 <= i < |b.settlements| ==> SettlementOk(b, b.settlements[i]))
    && DistinctSettlements(b.settlements)
  }

  predicate PackagesOk(b: Budget) {
    forall package :: package in b.packages ==> WithinPackage(b, package)
  }

  predicate Valid(b: Budget) {
    && Authorized(b)
    && ReservationsOk(b)
    && SettlementsOk(b)
    && PackagesOk(b)
    && Charged(b.reservations, b.settlements) <= LIMIT_CENTS
    && TurnsOf(b.reservations) <= MAX_TURNS
  }

  // ---- the validator, with its loops ----

  ghost predicate Indexes(byId: map<string, Reservation>, rows: seq<Reservation>) {
    && (forall k :: 0 <= k < |rows| ==> rows[k].id in byId && byId[rows[k].id] == rows[k])
    && (forall id :: id in byId ==> exists k :: 0 <= k < |rows| && rows[k].id == id)
  }

  ghost predicate Records(settled: map<string, int>, rows: seq<Settlement>) {
    && (forall id :: id in settled <==> IsSettled(rows, id))
    && (forall k :: 0 <= k < |rows| ==> rows[k].reservationId in settled && settled[rows[k].reservationId] == rows[k].actualCostCents)
  }

  lemma IndexStep(rows: seq<Reservation>, i: nat, index: map<string, Reservation>)
    requires i < |rows| && Indexes(index, rows[..i]) && DistinctIds(rows[..i])
    ensures rows[i].id in index ==> !DistinctIds(rows)
    ensures rows[i].id !in index ==> Indexes(index[rows[i].id := rows[i]], rows[..i + 1]) && DistinctIds(rows[..i + 1])
  {
    if rows[i].id in index {
      var k :| 0 <= k < i && rows[..i][k].id == rows[i].id;
      assert rows[k].id == rows[i].id;
    } else {
      assert rows[..i + 1] == rows[..i] + [rows[i]];
      assert forall k :: 0 <= k < i ==> rows[..i][k].id != rows[i].id;
    }
  }

  method IndexReservations(b: Budget) returns (byId: Option<map<string, Reservation>>)
    ensures byId.Some? <==> ReservationsOk(b)
    ensures byId.Some? ==> Indexes(byId.value, b.reservations) && |byId.value| == |b.reservations|
  {
    hide Indexes, DistinctIds, SafeCount;
    var index: map<string, Reservation> := map[];
    assert Indexes(index, b.reservations[..0]) && DistinctIds(b.reservations[..0]) by { NothingIndexed(b.reservations); }
    for i := 0 to |b.reservations|
      invariant forall k :: 0 <= k < i ==> RowOk(b, b.reservations[k])
      invariant DistinctIds(b.reservations[..i]) && Indexes(index, b.reservations[..i])
      invariant |index| == i
    {
      var entry := b.reservations[i];
      IndexStep(b.reservations, i, index);
      if entry.id in index { return None; }
      if entry.id == "" || entry.package !in b.packages { assert !RowOk(b, entry); return None; }
      if !SafeCount(entry.turns) || !SafeCount(entry.maximumCostCents) || entry.turns < 1 {
        assert !RowOk(b, entry);
        return None;
      }
      index := index[entry.id := entry];
    }
    assert b.reservations[..|b.reservations|] == b.reservations;
    byId := Some(index);
  }

  lemma NothingIndexed(rows: seq<Reservation>)
    ensures Indexes(map[], rows[..0]) && DistinctIds(rows[..0])
  {
  }

  method IndexSettlements(b: Budget, byId: map<string, Reservation>) returns (settled: Option<map<string, int>>)
    requires Indexes(byId, b.reservations) && ReservationsOk(b)
    ensures settled.Some? <==> SettlementsOk(b)
    ensures settled.Some? ==> Records(settled.value, b.settlements)
  {
    hide Indexes, Records, DistinctSettlements, SettlementOk, DistinctIds, RowOk, IsSettled;
    var index: map<string, int> := map[];
    assert Records(index, b.settlements[..0]) && DistinctSettlements(b.settlements[..0]) by { NothingRecorded(b.settlements); }
    for i := 0 to |b.settlements|
      invariant forall k :: 0 <= k < i ==> SettlementOk(b, b.settlements[k])
      invariant DistinctSettlements(b.settlements[..i]) && Records(index, b.settlements[..i])
    {
      var entry := b.settlements[i];
      SettlementChecked(b, byId, entry);
      RecordStep(b.settlements, i, index);
      if !SafeCount(entry.actualCostCents) { return None; }
      if entry.reservationId !in byId || entry.reservationId in index
         || entry.actualCostCents > byId[entry.reservationId].maximumCostCents {
        return None;
      }
      index := index[entry.reservationId := entry.actualCostCents];
    }
    assert b.settlements[..|b.settlements|] == b.settlements;
    settled := Some(index);
  }

  lemma NothingRecorded(rows: seq<Settlement>)
    ensures Records(map[], rows[..0]) && DistinctSettlements(rows[..0])
  {
  }

  lemma RecordStep(rows: seq<Settlement>, i: nat, index: map<string, int>)
    requires i < |rows| && Records(index, rows[..i]) && DistinctSettlements(rows[..i])
    ensures rows[i].reservationId in index ==> !DistinctSettlements(rows)
    ensures rows[i].reservationId !in index ==>
              && Records(index[rows[i].reservationId := rows[i].actualCostCents], rows[..i + 1])
              && DistinctSettlements(rows[..i + 1])
  {
    SettledStep(rows, i);
    if rows[i].reservationId in index {
      RepeatedSettlement(rows, i);
    } else {
      hide IsSettled;
      assert rows[..i + 1] == rows[..i] + [rows[i]];
    }
  }

  lemma SettlementChecked(b: Budget, byId: map<string, Reservation>, entry: Settlement)
    requires Indexes(byId, b.reservations) && DistinctIds(b.reservations)
    ensures SettlementOk(b, entry) <==>
            && SafeCount(entry.actualCostCents) && entry.reservationId in byId
            && entry.actualCostCents <= byId[entry.reservationId].maximumCostCents
  {
  }

  lemma RepeatedSettlement(rows: seq<Settlement>, i: nat)
    requires i < |rows| && IsSettled(rows[..i], rows[i].reservationId)
    ensures !DistinctSettlements(rows)
  {
    var k :| 0 <= k < i && rows[..i][k].reservationId == rows[i].reservationId;
    assert rows[k].reservationId == rows[i].reservationId;
  }

  method WithinEveryPackage(b: Budget) returns (within: bool)
    ensures within <==> PackagesOk(b)
  {
    var names := b.packages.Keys;
    while names != {}
      invariant names <= b.packages.Keys
      invariant forall package :: package in b.packages && package !in names ==> WithinPackage(b, package)
      decreases |names|
    {
      var name :| name in names;
      if !WithinPackage(b, name) { return false; }
      names := names - {name};
    }
    within := true;
  }

  lemma ChargeIsRecorded(row: Reservation, settlements: seq<Settlement>, settled: map<string, int>)
    requires Records(settled, settlements) && DistinctSettlements(settlements)
    ensures ChargeOf(row, settlements) == if row.id in settled then settled[row.id] else row.maximumCostCents
  {
    ChargeIsSettlement(row, settlements);
  }

  method Totals(rows: seq<Reservation>, settlements: seq<Settlement>, settled: map<string, int>) returns (charged: int, turns: int)
    requires Records(settled, settlements) && DistinctSettlements(settlements)
    ensures charged == Charged(rows, settlements)
    ensures turns == TurnsOf(rows)
  {
    charged, turns := 0, 0;
    for i := 0 to |rows|
      invariant charged == Charged(rows[..i], settlements)
      invariant turns == TurnsOf(rows[..i])
    {
      ChargeIsRecorded(rows[i], settlements, settled);
      charged := charged + (if rows[i].id in settled then settled[rows[i].id] else rows[i].maximumCostCents);
      turns := turns + rows[i].turns;
      assert rows[..i + 1][..i] == rows[..i];
    }
    assert rows[..|rows|] == rows;
  }

  /** Accepts a ledger exactly when it is valid, and then reports what is left of the budget. */
  method ValidateNativeBudget(b: Budget) returns (r: Result<Counters, BudgetError>)
    ensures r.Ok? <==> Valid(b)
    ensures r.Ok? ==> r.value == Counters(
                LIMIT_CENTS - Charged(b.reservations, b.settlements),
                MAX_TURNS - TurnsOf(b.reservations), |b.reservations|)
    ensures r == Err(NotAuthorized) <==> !Authorized(b)
    ensures r == Err(Exhausted) ==>
              Charged(b.reservations, b.settlements) > LIMIT_CENTS || TurnsOf(b.reservations) > MAX_TURNS
  {
    if !Authorized(b) { return Err(NotAuthorized); }
    var byId := IndexReservations(b);
    if byId.None? { return Err(BadReservation); }
    var settled := IndexSettlements(b, byId.value);
    if settled.None? { return Err(BadSettlement); }
    var charged, turns := Totals(b.reservations, b.settlements, settled.value);
    var within := WithinEveryPackage(b);
    if !within { return Err(PackageTurnsExceeded); }
    if charged > LIMIT_CENTS || turns > MAX_TURNS { return Err(Exhausted); }
    r := Ok(Counters(LIMIT_CENTS - charged, MAX_TURNS - turns, |byId.value|));
  }

  lemma SettledStep(settlements: seq<Settlement>, i: nat)
    requires i < |settlements|
    ensures forall id :: IsSettled(settlements[..i + 1], id) <==>
                         IsSettled(settlements[..i], id) || settlements[i].reservationId == id
  {
    forall id | IsSettled(settlements[..i], id) || settlements[i].reservationId == id
      ensures IsSettled(settlements[..i + 1], id)
    {
      var k :| 0 <= k <= i && settlements[k].reservationId == id;
      assert settlements[..i + 1][k].reservationId == id;
    }
  }

  // ---- charges ----

  /** A settled reservation is charged its one settlement, an unsettled one its maximum. */
  lemma {:induction false} ChargeIsSettlement(row: Reservation, settlements: seq<Settlement>)
    requires DistinctSettlements(settlements)
    ensures !IsSettled(settlements, row.id) ==> ChargeOf(row, settlements) == row.maximumCostCents
    ensures forall k :: 0 <= k < |settlements| && settlements[k].reservationId == row.id ==>
              ChargeOf(row, settlements) == settlements[k].actualCostCents
  {
    if settlements != [] {
      var front := settlements[..|settlements| - 1];
      ChargeIsSettlement(row, front);
      assert settlements[|settlements| - 1] in settlements;
      if IsSettled(front, row.id) {
        var k :| 0 <= k < |front| && front[k].reservationId == row.id;
        assert settlements[k].reservationId == row.id;
      }
      forall k | 0 <= k < |settlements| && settlements[k].reservationId == row.id
        ensures ChargeOf(row, settlements) == settlements[k].actualCostCents
      {
        if k < |front| { assert front[k] == settlements[k]; }
      }
    }
  }

  /** Appending a settlement changes the charge of the reservation it names, and of no other. */
  lemma {:induction false} ChargedAfterSettlement(rows: seq<Reservation>, settlements: seq<Settlement>, added: Settlement)
    requires DistinctIds(rows)
    ensures (forall i :: 0 <= i < |rows| ==> rows[i].id != added.reservationId) ==>
              Charged(rows, settlements + [added]) == Charged(rows, settlements)
    ensures forall i :: 0 <= i < |rows| && rows[i].id == added.reservationId ==>
              Charged(rows, settlements + [added])
              == Charged(rows, settlements) - ChargeOf(rows[i], settlements) + added.actualCostCents
  {
    hide ChargeOf;
    if rows != [] {
      var front, last := rows[..|rows| - 1], rows[|rows| - 1];
      ChargedAfterSettlement(front, settlements, added);
      ChargeAfterSettlement(last, settlements, added);
      forall i | 0 <= i < |front| ensures front[i] == rows[i] && front[i].id != last.id {}
    }
  }

  lemma ChargeAfterSettlement(row: Reservation, settlements: seq<Settlement>, added: Settlement)
    ensures ChargeOf(row, settlements + [added])
              == if row.id == added.reservationId then added.actualCostCents else ChargeOf(row, settlements)
  {
    var extended := settlements + [added];
    assert extended[..|extended| - 1] == settlements;
  }

  /** No row of a valid ledger is charged a negative amount, so any part of it is charged at most the whole. */
  lemma {:induction false} ChargeAtLeast(b: Budget, n: nat, i: nat, j: nat)
    requires Valid(b) && n <= |b.reservations|
    ensures Charged(b.reservations[..n], b.settlements) >= 0
    ensures i < n ==> Charged(b.reservations[..n], b.settlements) >= ChargeOf(b.reservations[i], b.settlements)
    ensures i < j < n ==>
              Charged(b.reservations[..n], b.settlements)
              >= ChargeOf(b.reservations[i], b.settlements) + ChargeOf(b.reservations[j], b.settlements)
  {
    if n > 0 {
      ChargeAtLeast(b, n - 1, i, j);
      assert b.reservations[..n][..n - 1] == b.reservations[..n - 1];
      ChargeNonNegative(b, n - 1);
    }
  }

  lemma ChargeNonNegative(b: Budget, i: nat)
    requires Valid(b) && i < |b.reservations|
    ensures 0 <= ChargeOf(b.reservations[i], b.settlements) <= b.reservations[i].maximumCostCents
  {
    var row := b.reservations[i];
    ChargeIsSettlement(row, b.settlements);
    assert RowOk(b, row);
    if IsSettled(b.settlements, row.id) {
      var k :| 0 <= k < |b.settlements| && b.settlements[k].reservationId == row.id;
      assert SettlementOk(b, b.settlements[k]);
    }
  }

  // ---- the two changes a cohort makes ----

  function Remaining(b: Budget): int {
    LIMIT_CENTS - Charged(b.reservations, b.settlements)
  }

  function Reserve(b: Budget, row: Reservation): Budget {
    b.(reservations := b.reservations + [row])
  }

  function Settle(b: Budget, id: string, cents: int): Budget {
    b.(settlements := b.settlements + [Settlement(id, cents)])
  }

  predicate HasRow(b: Budget, id: string) {
    exists i :: 0 <= i < |b.reservations| && b.reservations[i].id == id
  }

  /** Reserving on a valid ledger takes exactly the reserved cents off the remainder. The result is valid exactly
      when the id is new, the cents still fit, and the turns fit both the package and the whole. */
  lemma ReserveEffect(b: Budget, row: Reservation)
    requires Valid(b) && RowOk(b, row) && !IsSettled(b.settlements, row.id)
    ensures Remaining(Reserve(b, row)) == Remaining(b) - row.maximumCostCents
    ensures Valid(Reserve(b, row)) <==>
            && !HasRow(b, row.id)
            && row.maximumCostCents <= Remaining(b)
            && TurnsOf(b.reservations) + row.turns <= MAX_TURNS
            && (b.packages[row.package].Some? ==>
                  PackageTurns(b.reservations, row.package) + row.turns <= b.packages[row.package].value)
  {
    var next := Reserve(b, row);
    RowsAfterReserve(b, row);
    assert next.reservations[..|next.reservations| - 1] == b.reservations;
    ChargeIsSettlement(row, b.settlements);
    PackagesAfterReserve(b, row);
    SettlementsAfterReserve(b, row);
    hide ReservationsOk, PackagesOk, SettlementsOk, DistinctSettlements, ChargeOf, PackageTurns, HasRow, RowOk, IsSettled;
  }

  lemma SettlementsAfterReserve(b: Budget, row: Reservation)
    requires SettlementsOk(b)
    ensures SettlementsOk(Reserve(b, row))
  {
    var next := Reserve(b, row);
    forall k | 0 <= k < |b.settlements|
      ensures SettlementOk(next, b.settlements[k])
    {
      assert SettlementOk(b, b.settlements[k]);
      var i :| 0 <= i < |b.reservations| && b.reservations[i].id == b.settlements[k].reservationId
               && b.settlements[k].actualCostCents <= b.reservations[i].maximumCostCents;
      assert next.reservations[i] == b.reservations[i];
    }
  }

  lemma RowsAfterReserve(b: Budget, row: Reservation)
    requires ReservationsOk(b) && RowOk(b, row)
    ensures ReservationsOk(Reserve(b, row)) <==> !HasRow(b, row.id)
  {
    var next := Reserve(b, row);
    if HasRow(b, row.id) {
      var i :| 0 <= i < |b.reservations| && b.reservations[i].id == row.id;
      assert next.reservations[i].id == next.reservations[|b.reservations|].id;
    } else {
      forall i | 0 <= i < |next.reservations| ensures RowOk(next, next.reservations[i]) {
        if i < |b.reservations| { assert RowOk(b, b.reservations[i]); }
      }
    }
  }

  lemma PackagesAfterReserve(b: Budget, row: Reservation)
    requires PackagesOk(b) && row.package in b.packages
    ensures PackagesOk(Reserve(b, row)) <==>
            (b.packages[row.package].Some? ==>
               PackageTurns(b.reservations, row.package) + row.turns <= b.packages[row.package].value)
  {
    var next := Reserve(b, row);
    assert next.reservations[..|next.reservations| - 1] == b.reservations;
    forall package | package in b.packages
      ensures PackageTurns(next.reservations, package) ==
              PackageTurns(b.reservations, package) + if row.package == package then row.turns else 0
    {}
    hide PackageTurns;
    assert forall package :: package in b.packages && package != row.package ==>
             (WithinPackage(next, package) <==> WithinPackage(b, package));
  }

  /** Settling a reserved row at `cents` gives back exactly the difference, and the result is valid exactly when the
      row was unsettled and `cents` is a count no larger than what it reserved. */
  lemma SettleEffect(b: Budget, i: nat, cents: int)
    requires Valid(b) && i < |b.reservations|
    ensures var row := b.reservations[i];
            && (!IsSettled(b.settlements, row.id) ==>
                  Remaining(Settle(b, row.id, cents)) == Remaining(b) + (row.maximumCostCents - cents))
            && (Valid(Settle(b, row.id, cents)) <==>
                !IsSettled(b.settlements, row.id) && 0 <= cents <= row.maximumCostCents)
  {
    var row := b.reservations[i];
    assert RowOk(b, row);
    ChargeIsSettlement(row, b.settlements);
    ChargedAfterSettlement(b.reservations, b.settlements, Settlement(row.id, cents));
    SettlementsAfterSettle(b, i, cents);
    assert PackagesOk(Settle(b, row.id, cents)) by { PackagesAfterSettle(b, row.id, cents); }
    assert ReservationsOk(Settle(b, row.id, cents)) by { RowsAfterSettle(b, row.id, cents); }
    hide ReservationsOk, PackagesOk, SettlementsOk, DistinctSettlements, ChargeOf, Charged, IsSettled;
    assert SafeCount(row.maximumCostCents);
  }

  lemma PackagesAfterSettle(b: Budget, id: string, cents: int)
    requires PackagesOk(b)
    ensures PackagesOk(Settle(b, id, cents))
  {
    assert forall package :: package in b.packages ==> (WithinPackage(b, package) <==> WithinPackage(Settle(b, id, cents), package));
  }

  lemma RowsAfterSettle(b: Budget, id: string, cents: int)
    requires ReservationsOk(b)
    ensures ReservationsOk(Settle(b, id, cents))
  {
    assert forall k :: 0 <= k < |b.reservations| ==> RowOk(b, b.reservations[k]) && RowOk(Settle(b, id, cents), b.reservations[k]);
  }

  lemma SettlementsAfterSettle(b: Budget, i: nat, cents: int)
    requires ReservationsOk(b) && SettlementsOk(b) && i < |b.reservations|
    ensures var row := b.reservations[i];
            SettlementsOk(Settle(b, row.id, cents)) <==> !IsSettled(b.settlements, row.id) && 0 <= cents <= row.maximumCostCents
  {
    var row := b.reservations[i];
    var next := Settle(b, row.id, cents);
    assert RowOk(b, row) && next.settlements[|b.settlements|] == Settlement(row.id, cents);
    forall k | 0 <= k < |b.settlements| ensures SettlementOk(next, b.settlements[k]) {
      assert SettlementOk(b, b.settlements[k]);
    }
    if IsSettled(b.settlements, row.id) {
      var k :| 0 <= k < |b.settlements| && b.settlements[k].reservationId == row.id;
      assert next.settlements[k].reservationId == next.settlements[|b.settlements|].reservationId;
      assert !DistinctSettlements(next.settlements);
    } else if 0 <= cents <= row.maximumCostCents {
      assert SettlementOk(next, next.settlements[|b.settlements|]);
      assert DistinctSettlements(next.settlements);
    } else {
      assert forall k :: 0 <= k < |b.reservations| && b.reservations[k].id == row.id ==> k == i;
      assert !SettlementOk(next, next.settlements[|b.settlements|]);
    }
  }

  /** A settlement names a row, so a row that can be added has none. */
  lemma UnsettledWhenNew(b: Budget, row: Reservation)
    requires Valid(b) && Valid(Reserve(b, row))
    ensures !IsSettled(b.settlements, row.id)
  {
    var next := Reserve(b, row);
    assert next.reservations[|b.reservations|] == row;
    forall i | 0 <= i < |b.settlements| ensures b.settlements[i].reservationId != row.id {
      assert SettlementOk(b, b.settlements[i]);
      var j :| 0 <= j < |b.reservations| && b.reservations[j].id == b.settlements[i].reservationId;
      assert next.reservations[j] == b.reservations[j];
    }
  }

  /** A valid ledger has room for one open 600-cent reservation only: until it is settled, no other one fits. */
  lemma OneOpenReservation(b: Budget, i: nat, row: Reservation)
    requires Valid(b) && i < |b.reservations|
    requires b.reservations[i].maximumCostCents >= 600 && !IsSettled(b.settlements, b.reservations[i].id)
    ensures forall j :: 0 <= j < |b.reservations| && j != i && b.reservations[j].maximumCostCents >= 600 ==>
              IsSettled(b.settlements, b.reservations[j].id)
    ensures row.maximumCostCents >= 600 && !IsSettled(b.settlements, row.id) ==> !Valid(Reserve(b, row))
  {
    var n := |b.reservations|;
    assert b.reservations[..n] == b.reservations;
    ChargeIsSettlement(b.reservations[i], b.settlements);
    forall j | 0 <= j < n && j != i && b.reservations[j].maximumCostCents >= 600
      ensures IsSettled(b.settlements, b.reservations[j].id)
    {
      ChargeIsSettlement(b.reservations[j], b.settlements);
      ChargeAtLeast(b, n, if i < j then i else j, if i < j then j else i);
    }
    if row.maximumCostCents >= 600 && !IsSettled(b.settlements, row.id) {
      ChargeAtLeast(b, n, i, i);
      var next := Reserve(b, row);
      assert next.reservations[..n] == b.reservations;
      ChargeIsSettlement(row, b.settlements);
    }
  }
}
