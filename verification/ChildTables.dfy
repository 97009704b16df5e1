/** Tables whose rows belong to a room request: the one-time rebuild that gives them a cascade, and the sweep that removes
    rows whose request is gone. */
module ChildTables {
  import opened Outcomes

  /** A row by column; a cell is `None` where it holds NULL. */
  type Row = map<string, Option<string>>

  /** `cascades` says whether the definition references the parent. */
  datatype Table = Table(cascades: bool, columns: seq<string>, rows: seq<Row>)

  type Tables = map<string, Table>

  /** A child entry names its parent, the column that leads to it, and the columns of its current definition. */
  datatype Entry = Child(parent: string, column: string, columns: seq<string>) | NotChild

  type Lifecycle = map<string, Entry>

  datatype TableError = NotRegistered | StepFailed(step: nat)

  /** Every child has its column, and no parent is itself a child or a child's working copy. */
  ghost predicate Registry(lc: Lifecycle) {
    && (forall name :: name in lc && lc[name].Child? ==> lc[name].column in lc[name].columns)
    && (forall name, child :: name in lc && child in lc && lc[name].Child? && lc[child].Child? ==>
          lc[name].parent != child && lc[name].parent != OldName(child) && OldName(name) != child)
  }

  function OldName(name: string): string {
    name + "__old"
  }

  // ---- rows whose request exists ----

  predicate HasRequest(parents: seq<Row>, column: string, row: Row) {
    column in row && row[column].Some? && exists p :: p in parents && "id" in p && p["id"] == row[column]
  }

  function Kept(parents: seq<Row>, column: string, rows: seq<Row>): seq<Row> {
    if rows == [] then []
    else if HasRequest(parents, column, rows[0]) then [rows[0]] + Kept(parents, column, rows[1..])
    else Kept(parents, column, rows[1..])
  }

  function Orphans(parents: seq<Row>, column: string, rows: seq<Row>): seq<Row> {
    if rows == [] then []
    else if HasRequest(parents, column, rows[0]) then Orphans(parents, column, rows[1..])
    else [rows[0]] + Orphans(parents, column, rows[1..])
  }

  /** Keeping and dropping split the rows: nothing is lost, doubled or moved to the other side. */
  lemma {:induction false} KeptAndOrphans(parents: seq<Row>, column: string, rows: seq<Row>)
    ensures multiset(rows) == multiset(Kept(parents, column, rows)) + multiset(Orphans(parents, column, rows))
    ensures forall r :: r in Kept(parents, column, rows) ==> r in rows && HasRequest(parents, column, r)
    ensures forall r :: r in Orphans(parents, column, rows) ==> !HasRequest(parents, column, r)
    ensures |rows| == |Kept(parents, column, rows)| + |Orphans(parents, column, rows)|
  {
    hide HasRequest;
    if rows != [] {
      KeptAndOrphans(parents, column, rows[1..]);
      assert rows == [rows[0]] + rows[1..];
    }
  }

  /** Keeping twice is keeping once, and leaves no orphan. */
  lemma {:induction false} KeptTwice(parents: seq<Row>, column: string, rows: seq<Row>)
    ensures Kept(parents, column, Kept(parents, column, rows)) == Kept(parents, column, rows)
    ensures Orphans(parents, column, Kept(parents, column, rows)) == []
  {
    hide HasRequest;
    if rows != [] {
      KeptTwice(parents, column, rows[1..]);
      var kept := Kept(parents, column, rows);
      if HasRequest(parents, column, rows[0]) { assert kept[1..] == Kept(parents, column, rows[1..]); }
    }
  }

  predicate Fits(columns: seq<string>, row: Row) {
    forall c :: c in row ==> c in columns
  }

  function Project(columns: seq<string>, row: Row): Row {
    map c | c in row && c in columns :: row[c]
  }

  function ProjectAll(columns: seq<string>, rows: seq<Row>): seq<Row> {
    if rows == [] then [] else [Project(columns, rows[0])] + ProjectAll(columns, rows[1..])
  }

  lemma {:induction false} KeptProjects(parents: seq<Row>, column: string, columns: seq<string>, rows: seq<Row>)
    requires column in columns
    ensures Kept(parents, column, ProjectAll(columns, rows)) == ProjectAll(columns, Kept(parents, column, rows))
  {
    if rows != [] {
      KeptProjects(parents, column, columns, rows[1..]);
      assert HasRequest(parents, column, Project(columns, rows[0])) <==> HasRequest(parents, column, rows[0]);
      assert ProjectAll(columns, rows)[1..] == ProjectAll(columns, rows[1..]);
    }
  }

  // ---- what the two operations are for ----

  function RowsToKeep(tables: Tables, e: Entry, rows: seq<Row>): seq<Row>
    requires e.Child?
  {
    if e.parent in tables then Kept(tables[e.parent].rows, e.column, rows) else []
  }

  /** The tables once `name` carries the cascade: created when missing, rebuilt with the rows whose request exists when
      it was made without one, and otherwise as they were. */
  function Ensured(tables: Tables, e: Entry, name: string): Tables
    requires e.Child?
  {
    if name !in tables then tables[name := Table(true, e.columns, [])]
    else if tables[name].cascades then tables
    else tables[name := Table(true, e.columns, ProjectAll(e.columns, RowsToKeep(tables, e, tables[name].rows)))]
  }

  predicate Sweepable(tables: Tables, lc: Lifecycle, name: string) {
    name in lc && lc[name].Child? && name in tables && lc[name].parent in tables
  }

  /** The tables without the orphans of the children in `names`. */
  function Swept(tables: Tables, lc: Lifecycle, names: set<string>): Tables {
    map t | t in tables ::
      if t in names && Sweepable(tables, lc, t)
      then tables[t].(rows := Kept(tables[lc[t].parent].rows, lc[t].column, tables[t].rows))
      else tables[t]
  }

  function NameSet(names: seq<string>): set<string> {
    set n | n in names
  }

  function OrphanCount(tables: Tables, lc: Lifecycle, name: string): nat {
    if Sweepable(tables, lc, name) then |Orphans(tables[lc[name].parent].rows, lc[name].column, tables[name].rows)| else 0
  }

  function TotalOrphans(tables: Tables, lc: Lifecycle, names: seq<string>): nat {
    if names == [] then 0
    else TotalOrphans(tables, lc, names[..|names| - 1]) + OrphanCount(tables, lc, names[|names| - 1])
  }

  /** No working copy is in the way, and the legacy table has every column the rebuilt one needs. */
  predicate Rebuildable(tables: Tables, e: Entry, name: string)
    requires e.Child?
  {
    && OldName(name) !in tables
    && (name in tables ==> forall c :: c in e.columns ==> c in tables[name].columns)
  }

  // ---- the database, changed step by step ----

  class Database {
    var tables: Tables

    constructor (tables: Tables)
      ensures this.tables == tables
    {
      this.tables := tables;
    }

    /** The statements inside the savepoint. Each of them may fail: by itself, when it is among `faults`, or because of
        what it finds. */
    method Rebuild(name: string, e: Entry, faults: set<nat>) returns (failed: Option<nat>)
      requires e.Child? && name in tables
      requires e.parent != name && e.parent != OldName(name)
      modifies this
      ensures failed.None? ==> tables == old(tables)[name := Table(true, e.columns, ProjectAll(e.columns, RowsToKeep(old(tables), e, old(tables)[name].rows)))]
      ensures failed.None? <==> (forall k :: 1 <= k <= 5 ==> k !in faults) && OldName(name) !in old(tables) && forall c :: c in e.columns ==> c in old(tables)[name].columns
    {
      var oldName := OldName(name);
      var hadParent := e.parent in tables;
      if 1 in faults || oldName in tables { return Some(1); }
      var legacy := tables[name];
      tables := (tables - {name})[oldName := legacy];
      if 2 in faults { return Some(2); }
      tables := tables[name := Table(true, e.columns, [])];
      if 3 in faults || !(forall c :: c in e.columns ==> c in legacy.columns) { return Some(3); }
      var kept := if hadParent then Kept(tables[e.parent].rows, e.column, legacy.rows) else [];
      tables := tables[name := Table(true, e.columns, ProjectAll(e.columns, kept))];
      if 4 in faults { return Some(4); }
      tables := tables - {oldName};
      if 5 in faults { return Some(5); }
      failed := None;
      assert tables.Keys == old(tables).Keys;
    }

    /** Gives a registered child its cascade, or leaves the database exactly as it was. */
    method EnsureChildTable(lc: Lifecycle, name: string, faults: set<nat>) returns (r: Result<(), TableError>)
      requires Registry(lc)
      modifies this
      ensures r == Err(NotRegistered) <==> name !in lc || lc[name].NotChild?
      ensures r.Ok? ==> tables == Ensured(old(tables), lc[name], name)
      ensures r.Err? ==> tables == old(tables)
      ensures faults == {} && name in lc && lc[name].Child? && Rebuildable(old(tables), lc[name], name) ==> r.Ok?
    {
      if name !in lc || lc[name].NotChild? { return Err(NotRegistered); }
      var e := lc[name];
      if name !in tables {
        if 0 in faults { return Err(StepFailed(0)); }
        tables := tables[name := Table(true, e.columns, [])];
        return Ok(());
      }
      if tables[name].cascades { return Ok(()); }
      var savepoint := tables;
      var failed := Rebuild(name, e, faults);
      if failed.Some? {
        tables := savepoint;
        return Err(StepFailed(failed.value));
      }
      r := Ok(());
    }

    /** Removes the orphans of every registered child and returns how many there were. */
    method SweepAddedOrphans(lc: Lifecycle, names: seq<string>) returns (removed: nat)
      requires Registry(lc)
      requires forall i, j :: 0 <= i < j < |names| ==> names[i] != names[j]
      modifies this
      ensures tables == Swept(old(tables), lc, NameSet(names))
      ensures removed == TotalOrphans(old(tables), lc, names)
    {
      removed := 0;
      SweptNone(tables, lc, names);
      for i := 0 to |names|
        invariant tables == Swept(old(tables), lc, NameSet(names[..i]))
        invariant removed == TotalOrphans(old(tables), lc, names[..i])
      {
        var name := names[i];
        SweptStep(old(tables), lc, names, i);
        if name in lc && lc[name].Child? && name in tables && lc[name].parent in tables {
          var before := tables[name].rows;
          KeptAndOrphans(tables[lc[name].parent].rows, lc[name].column, before);
          var after := Kept(tables[lc[name].parent].rows, lc[name].column, before);
          tables := tables[name := tables[name].(rows := after)];
          removed := removed + (|before| - |after|);
        }
        assert names[..i + 1][..i] == names[..i];
      }
      assert names[..|names|] == names;
    }
  }

  lemma SweptNone(tables: Tables, lc: Lifecycle, names: seq<string>)
    ensures Swept(tables, lc, NameSet(names[..0])) == tables
  {
  }

  /** One more name in the sweep changes that child's rows only. */
  lemma SweptStep(tables: Tables, lc: Lifecycle, names: seq<string>, i: nat)
    requires Registry(lc) && i < |names| && forall i, j :: 0 <= i < j < |names| ==> names[i] != names[j]
    ensures var so := Swept(tables, lc, NameSet(names[..i]));
            && (Sweepable(so, lc, names[i]) <==> Sweepable(tables, lc, names[i]))
            && (Sweepable(tables, lc, names[i]) ==>
                  so[names[i]] == tables[names[i]] && so[lc[names[i]].parent] == tables[lc[names[i]].parent]
                  && Swept(tables, lc, NameSet(names[..i + 1]))
                     == so[names[i] := tables[names[i]].(rows := Kept(tables[lc[names[i]].parent].rows, lc[names[i]].column, tables[names[i]].rows))])
            && (!Sweepable(tables, lc, names[i]) ==> Swept(tables, lc, NameSet(names[..i + 1])) == so)
  {
    hide Kept, HasRequest;
    assert names[..i + 1] == names[..i] + [names[i]];
    assert names[i] !in names[..i];
  }

  // ---- how they agree ----

  /** Ensuring twice is ensuring once. */
  lemma {:induction false} EnsureIsIdempotent(tables: Tables, e: Entry, name: string)
    requires e.Child?
    ensures Ensured(Ensured(tables, e, name), e, name) == Ensured(tables, e, name)
    ensures name in Ensured(tables, e, name)
    ensures (name !in tables || !tables[name].cascades) ==> Ensured(tables, e, name)[name].cascades
    ensures forall t :: t in tables && t != name ==> t in Ensured(tables, e, name) && Ensured(tables, e, name)[t] == tables[t]
  {
  }

  /** A rebuilt table holds a legacy row exactly when its request exists; without a parent table it holds none. */
  lemma RebuiltRows(tables: Tables, e: Entry, name: string)
    requires e.Child? && name in tables && !tables[name].cascades
    requires forall r :: r in tables[name].rows ==> Fits(e.columns, r)
    ensures var rows := Ensured(tables, e, name)[name].rows;
            if e.parent !in tables then rows == []
            else multiset(tables[name].rows) == multiset(rows) + multiset(Orphans(tables[e.parent].rows, e.column, tables[name].rows))
                 && (forall r :: r in rows ==> HasRequest(tables[e.parent].rows, e.column, r))
  {
    hide HasRequest;
    if e.parent in tables {
      KeptAndOrphans(tables[e.parent].rows, e.column, tables[name].rows);
      ProjectKeepsAll(e.columns, Kept(tables[e.parent].rows, e.column, tables[name].rows));
    }
  }

  lemma {:induction false} ProjectKeepsAll(columns: seq<string>, rows: seq<Row>)
    requires forall r :: r in rows ==> Fits(columns, r)
    ensures ProjectAll(columns, rows) == rows
  {
    if rows != [] {
      ProjectKeepsAll(columns, rows[1..]);
      assert rows[0] in rows;
      assert Project(columns, rows[0]) == rows[0];
    }
  }

  /** After a sweep no child has an orphan, so a second sweep changes nothing and counts none. */
  lemma {:induction false} SecondSweepRemovesNone(tables: Tables, lc: Lifecycle, names: seq<string>, part: seq<string>)
    requires Registry(lc) && forall n :: n in part ==> n in names
    ensures var swept := Swept(tables, lc, NameSet(names));
            TotalOrphans(swept, lc, part) == 0 && Swept(swept, lc, NameSet(part)) == swept
  {
    hide Kept, Orphans, HasRequest;
    var swept := Swept(tables, lc, NameSet(names));
    forall t | t in part && Sweepable(swept, lc, t)
      ensures Kept(swept[lc[t].parent].rows, lc[t].column, swept[t].rows) == swept[t].rows && OrphanCount(swept, lc, t) == 0
    {
      assert Sweepable(tables, lc, t) && swept[lc[t].parent] == tables[lc[t].parent];
      KeptTwice(tables[lc[t].parent].rows, lc[t].column, tables[t].rows);
    }
    if part != [] { SecondSweepRemovesNone(tables, lc, names, part[..|part| - 1]); }
  }

  /** Rebuilding a table and sweeping may come in either order: the tables end up the same. */
  lemma EnsureAndSweepCommute(tables: Tables, lc: Lifecycle, names: set<string>, name: string)
    requires Registry(lc) && name in lc && lc[name].Child?
    ensures Swept(Ensured(tables, lc[name], name), lc, names) == Ensured(Swept(tables, lc, names), lc[name], name)
  {
    hide Kept, ProjectAll, HasRequest;
    var e := lc[name];
    var left, right := Swept(Ensured(tables, e, name), lc, names), Ensured(Swept(tables, lc, names), e, name);
    assert left.Keys == right.Keys;
    forall t | t in left ensures left[t] == right[t] {
      if t == name { CommuteAtName(tables, lc, names, name); } else { CommuteElsewhere(tables, lc, names, name, t); }
    }
  }

  lemma CommuteElsewhere(tables: Tables, lc: Lifecycle, names: set<string>, name: string, t: string)
    requires Registry(lc) && name in lc && lc[name].Child? && t in tables && t != name
    ensures t in Swept(Ensured(tables, lc[name], name), lc, names) && t in Ensured(Swept(tables, lc, names), lc[name], name)
    ensures Swept(Ensured(tables, lc[name], name), lc, names)[t] == Ensured(Swept(tables, lc, names), lc[name], name)[t]
  {
    hide Kept, ProjectAll, HasRequest, Orphans;
    if t in lc && lc[t].Child? { assert lc[t].parent != name; }
  }

  lemma CommuteAtName(tables: Tables, lc: Lifecycle, names: set<string>, name: string)
    requires Registry(lc) && name in lc && lc[name].Child?
    ensures name in Swept(Ensured(tables, lc[name], name), lc, names) && name in Ensured(Swept(tables, lc, names), lc[name], name)
    ensures Swept(Ensured(tables, lc[name], name), lc, names)[name] == Ensured(Swept(tables, lc, names), lc[name], name)[name]
  {
    hide HasRequest, Orphans;
    var e := lc[name];
    var swept := Swept(tables, lc, names);
    assert e.parent != name;
    if e.parent in tables {
      assert swept[e.parent] == tables[e.parent];
      if name in tables {
        var parents, rows := tables[e.parent].rows, tables[name].rows;
        KeptTwice(parents, e.column, rows);
        KeptProjects(parents, e.column, e.columns, Kept(parents, e.column, rows));
      }
    }
  }
}
