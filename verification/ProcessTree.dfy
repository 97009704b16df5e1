/** The memory sample of a server process and its descendants, taken from one process table. */
module ProcessTree {
  import opened Outcomes

  datatype Row = Row(pid: nat, ppid: nat, rssKiB: nat, started: string)
  datatype Usage = Usage(serverKiB: int, descendantsKiB: int, totalKiB: int, processes: nat)

  // ---- what a descendant is ----

  predicate Link(rows: seq<Row>, parent: nat, child: nat) {
    exists r :: r in rows && r.ppid == parent && r.pid == child
  }

  /** Each process of the path is the parent of the next. */
  predicate Chain(rows: seq<Row>, path: seq<nat>) {
    path != [] && forall i :: 0 < i < |path| ==> Link(rows, path[i - 1], path[i])
  }

  ghost predicate Reachable(rows: seq<Row>, root: nat, pid: nat) {
    exists path :: Chain(rows, path) && path[0] == root && path[|path| - 1] == pid
  }

  function Pids(rows: seq<Row>): set<nat> {
    set r | r in rows :: r.pid
  }

  /** The root and everything its parent links reach. */
  ghost function Tree(rows: seq<Row>, root: nat): set<nat> {
    set pid | pid in Pids(rows) + {root} && Reachable(rows, root, pid)
  }

  lemma RootIsReachable(rows: seq<Row>, root: nat)
    ensures Reachable(rows, root, root)
  {
    assert Chain(rows, [root]) && [root][0] == root;
  }

  lemma OneLinkFurther(rows: seq<Row>, root: nat, parent: nat, child: nat)
    requires Reachable(rows, root, parent) && Link(rows, parent, child)
    ensures Reachable(rows, root, child)
  {
    var path :| Chain(rows, path) && path[0] == root && path[|path| - 1] == parent;
    var longer := path + [child];
    assert Chain(rows, longer) && longer[0] == root && longer[|longer| - 1] == child;
  }

  predicate Closed(rows: seq<Row>, ids: set<nat>) {
    forall r :: r in rows && r.ppid in ids ==> r.pid in ids
  }

  lemma {:induction false} ClosedKeepsChain(rows: seq<Row>, ids: set<nat>, path: seq<nat>)
    requires Closed(rows, ids) && Chain(rows, path) && path[0] in ids
    ensures path[|path| - 1] in ids
  {
    if |path| > 1 {
      assert Link(rows, path[0], path[1]);
      assert Chain(rows, path[1..]);
      ClosedKeepsChain(rows, ids, path[1..]);
    }
  }

  /** A set of reachable processes that holds the root and every child of its members is the whole tree. */
  lemma ClosedIsTree(rows: seq<Row>, root: nat, ids: set<nat>)
    requires root in ids && Closed(rows, ids) && ids <= Pids(rows) + {root}
    requires forall pid :: pid in ids ==> Reachable(rows, root, pid)
    ensures ids == Tree(rows, root)
  {
    forall pid | pid in Tree(rows, root) ensures pid in ids {
      var path :| Chain(rows, path) && path[0] == root && path[|path| - 1] == pid;
      ClosedKeepsChain(rows, ids, path);
    }
  }

  /** Nothing reachable is missing from the tree, although it only ranges over the pids the table lists. */
  lemma TreeHasAllReachable(rows: seq<Row>, root: nat, pid: nat)
    ensures pid in Tree(rows, root) <==> Reachable(rows, root, pid)
  {
    if Reachable(rows, root, pid) {
      var path :| Chain(rows, path) && path[0] == root && path[|path| - 1] == pid;
      if |path| > 1 { assert Link(rows, path[|path| - 2], pid); }
    }
  }

  /** The order of the rows does not matter, nor do repeated ones. */
  lemma {:induction false} RowOrderIsIrrelevant(rows: seq<Row>, other: seq<Row>, root: nat)
    requires forall r :: r in rows <==> r in other
    ensures Tree(rows, root) == Tree(other, root)
  {
    forall pid ensures Reachable(rows, root, pid) <==> Reachable(other, root, pid) {
      assert forall path :: Chain(rows, path) <==> Chain(other, path) by {
        assert forall p, c :: Link(rows, p, c) <==> Link(other, p, c);
      }
    }
  }

  // ---- what a sample reports ----

  function RowsOf(rows: seq<Row>, ids: set<nat>): seq<Row> {
    if rows == [] then []
    else
      var front := RowsOf(rows[..|rows| - 1], ids);
      if rows[|rows| - 1].pid in ids then front + [rows[|rows| - 1]] else front
  }

  function TotalRss(rows: seq<Row>): nat {
    if rows == [] then 0 else TotalRss(rows[..|rows| - 1]) + rows[|rows| - 1].rssKiB
  }

  /** The memory of the first row of a process, 0 when the table has none. */
  function RssOf(rows: seq<Row>, pid: nat): nat {
    if rows == [] then 0 else if rows[0].pid == pid then rows[0].rssKiB else RssOf(rows[1..], pid)
  }

  function Recorded(owned: map<nat, string>, found: seq<Row>): map<nat, string> {
    if found == [] then owned else Recorded(owned, found[..|found| - 1])[found[|found| - 1].pid := found[|found| - 1].started]
  }

  function UsageOf(found: seq<Row>, root: nat): Usage {
    var server, total := RssOf(found, root), TotalRss(found);
    Usage(server, total - server, total, |found|)
  }

  class Sampler {
    /** Every process seen under the server so far, with its start time. */
    var owned: map<nat, string>

    constructor ()
      ensures owned == map[]
    {
      owned := map[];
    }

    /** One pass adds the children of the processes already in the set, in row order. */
    static method AddChildren(rows: seq<Row>, root: nat, start: set<nat>) returns (ids: set<nat>, changed: bool)
      requires root in start && start <= Pids(rows) + {root} && forall pid :: pid in start ==> Reachable(rows, root, pid)
      ensures start <= ids <= Pids(rows) + {root} && forall pid :: pid in ids ==> Reachable(rows, root, pid)
      ensures changed <==> ids != start
      ensures !changed ==> Closed(rows, ids)
    {
      ids, changed := start, false;
      for i := 0 to |rows|
        invariant start <= ids <= Pids(rows) + {root} && forall pid :: pid in ids ==> Reachable(rows, root, pid)
        invariant changed <==> ids != start
        invariant !changed ==> Closed(rows[..i], ids)
      {
        var row := rows[i];
        if row.ppid in ids && row.pid !in ids {
          assert Link(rows, row.ppid, row.pid);
          OneLinkFurther(rows, root, row.ppid, row.pid);
          ids, changed := ids + {row.pid}, true;
        }
        assert rows[..i + 1] == rows[..i] + [row];
      }
      assert rows[..|rows|] == rows;
    }

    /** Passes until one changes nothing; every changing pass takes a process out of those not yet in the set. */
    static method Descendants(rows: seq<Row>, root: nat) returns (ids: set<nat>)
      ensures ids == Tree(rows, root)
    {
      RootIsReachable(rows, root);
      ids := {root};
      var changed := true;
      while changed
        invariant root in ids && ids <= Pids(rows) + {root} && forall pid :: pid in ids ==> Reachable(rows, root, pid)
        invariant !changed ==> Closed(rows, ids)
        decreases Pids(rows) + {root} - ids, changed
      {
        ids, changed := AddChildren(rows, root, ids);
      }
      ClosedIsTree(rows, root, ids);
    }

    method Sample(rows: seq<Row>, child: Option<nat>) returns (usage: Usage)
      modifies this
      ensures child.None? || child.value == 0 ==> usage == Usage(0, 0, 0, 0) && owned == old(owned)
      ensures child.Some? && child.value != 0 ==>
                && usage == UsageOf(RowsOf(rows, Tree(rows, child.value)), child.value)
                && owned == Recorded(old(owned), RowsOf(rows, Tree(rows, child.value)))
    {
      if child.None? || child.value == 0 { return Usage(0, 0, 0, 0); }
      var ids := Descendants(rows, child.value);
      var found := RowsOf(rows, ids);
      for i := 0 to |found|
        invariant owned == Recorded(old(owned), found[..i])
      {
        assert found[..i + 1][..i] == found[..i];
        owned := owned[found[i].pid := found[i].started];
      }
      assert found[..|found|] == found;
      usage := UsageOf(found, child.value);
    }
  }

  // ---- every process of the tree is counted exactly once ----

  predicate UniquePids(rows: seq<Row>) {
    forall i, j :: 0 <= i < j < |rows| ==> rows[i].pid != rows[j].pid
  }

  /** The memory of a set of processes, each counted once. */
  ghost function RssOver(rows: seq<Row>, pids: set<nat>): nat {
    if pids == {} then 0 else var pid :| pid in pids; RssOf(rows, pid) + RssOver(rows, pids - {pid})
  }

  lemma {:induction false} RssOverAnyFirst(rows: seq<Row>, pids: set<nat>, pid: nat)
    requires pid in pids
    ensures RssOver(rows, pids) == RssOf(rows, pid) + RssOver(rows, pids - {pid})
    decreases |pids|
  {
    var first :| first in pids && RssOver(rows, pids) == RssOf(rows, first) + RssOver(rows, pids - {first});
    if first != pid {
      RssOverAnyFirst(rows, pids - {first}, pid);
      RssOverAnyFirst(rows, pids - {pid}, first);
      assert pids - {first} - {pid} == pids - {pid} - {first};
    }
  }

  lemma {:induction false} RssOfAppended(rows: seq<Row>, last: Row, pid: nat)
    ensures RssOf(rows + [last], pid) == if pid in Pids(rows) then RssOf(rows, pid) else if pid == last.pid then last.rssKiB else 0
  {
    if rows != [] {
      assert (rows + [last])[1..] == rows[1..] + [last];
      RssOfAppended(rows[1..], last, pid);
    }
  }

  lemma {:induction false} RssOverAppended(rows: seq<Row>, last: Row, pids: set<nat>)
    requires pids <= Pids(rows)
    ensures RssOver(rows + [last], pids) == RssOver(rows, pids)
    decreases |pids|
  {
    if pids != {} {
      var pid :| pid in pids;
      RssOverAnyFirst(rows, pids, pid);
      RssOverAnyFirst(rows + [last], pids, pid);
      RssOfAppended(rows, last, pid);
      RssOverAppended(rows, last, pids - {pid});
    }
  }

  lemma LastIsNew(rows: seq<Row>)
    requires rows != [] && UniquePids(rows)
    ensures var front, last := rows[..|rows| - 1], rows[|rows| - 1];
            && UniquePids(front) && last.pid !in Pids(front) && Pids(rows) == Pids(front) + {last.pid}
            && rows == front + [last]
  {
    var front, last := rows[..|rows| - 1], rows[|rows| - 1];
    assert rows == front + [last];
    forall r | r in front ensures r.pid != last.pid {}
    assert last in rows;
  }

  lemma {:induction false} FoundRows(rows: seq<Row>, ids: set<nat>)
    requires UniquePids(rows)
    ensures UniquePids(RowsOf(rows, ids)) && Pids(RowsOf(rows, ids)) == Pids(rows) * ids
    ensures TotalRss(RowsOf(rows, ids)) == RssOver(rows, Pids(rows) * ids)
    ensures |RowsOf(rows, ids)| == |Pids(rows) * ids|
  {
    hide UniquePids, Pids, RssOf, TotalRss, RssOver;
    if rows == [] {
      NoneFound(ids);
    } else {
      var front, last := rows[..|rows| - 1], rows[|rows| - 1];
      LastIsNew(rows);
      FoundRows(front, ids);
      RssOverAppended(front, last, Pids(front) * ids);
      if last.pid in ids {
        FoundLast(RowsOf(front, ids), last);
        OneMoreListed(front, last, ids);
      } else {
        assert Pids(rows) * ids == Pids(front) * ids;
      }
    }
  }

  lemma NoneFound(ids: set<nat>)
    ensures UniquePids([]) && Pids([]) == {} && TotalRss([]) == 0 && RssOver([], Pids([]) * ids) == 0
  {
    assert Pids([]) * ids == {};
  }

  lemma OneMoreListed(front: seq<Row>, last: Row, ids: set<nat>)
    requires last.pid in ids && last.pid !in Pids(front)
    requires Pids(front + [last]) == Pids(front) + {last.pid}
    requires RssOver(front + [last], Pids(front) * ids) == RssOver(front, Pids(front) * ids)
    ensures Pids(front + [last]) * ids == Pids(front) * ids + {last.pid}
    ensures |Pids(front + [last]) * ids| == |Pids(front) * ids| + 1
    ensures RssOver(front + [last], Pids(front + [last]) * ids) == RssOver(front, Pids(front) * ids) + last.rssKiB
  {
    hide Pids, RssOver, RssOf;
    var listed := Pids(front + [last]) * ids;
    assert listed == Pids(front) * ids + {last.pid};
    assert listed - {last.pid} == Pids(front) * ids;
    RssOverAnyFirst(front + [last], listed, last.pid);
    RssOfAppended(front, last, last.pid);
  }

  lemma FoundLast(found: seq<Row>, last: Row)
    requires UniquePids(found) && last.pid !in Pids(found)
    ensures UniquePids(found + [last]) && Pids(found + [last]) == Pids(found) + {last.pid}
    ensures TotalRss(found + [last]) == TotalRss(found) + last.rssKiB
  {
    assert (found + [last])[..|found|] == found;
    forall pid | pid in Pids(found) + {last.pid} ensures pid in Pids(found + [last]) {
      if pid == last.pid { assert last in found + [last]; }
    }
  }

  /** In a table that lists each process once, the total is the server's memory plus that of each of its descendants,
      each taken once, and the process count is the number of those the table lists. */
  lemma EachProcessOnce(rows: seq<Row>, root: nat)
    requires UniquePids(rows)
    ensures var usage, listed := UsageOf(RowsOf(rows, Tree(rows, root)), root), Pids(rows) * Tree(rows, root);
            && usage.serverKiB == RssOf(rows, root)
            && usage.descendantsKiB == RssOver(rows, listed - {root})
            && usage.totalKiB == usage.serverKiB + usage.descendantsKiB
            && usage.processes == |listed|
  {
    RootIsReachable(rows, root);
    TreeHasAllReachable(rows, root, root);
    var ids := Tree(rows, root);
    FoundRows(rows, ids);
    FirstFound(rows, ids, root);
    if root in Pids(rows) {
      RssOverAnyFirst(rows, Pids(rows) * ids, root);
    } else {
      NoRowNoRss(rows, root);
      assert Pids(rows) * ids - {root} == Pids(rows) * ids;
    }
  }

  lemma {:induction false} FirstFound(rows: seq<Row>, ids: set<nat>, pid: nat)
    requires pid in ids
    ensures RssOf(RowsOf(rows, ids), pid) == RssOf(rows, pid)
    ensures pid in Pids(RowsOf(rows, ids)) <==> pid in Pids(rows)
  {
    if rows != [] {
      var front, last := rows[..|rows| - 1], rows[|rows| - 1];
      FirstFound(front, ids, pid);
      assert rows == front + [last];
      RssOfAppended(front, last, pid);
      RssOfAppended(RowsOf(front, ids), last, pid);
      if pid !in Pids(RowsOf(front, ids)) { NoRowNoRss(RowsOf(front, ids), pid); }
      assert Pids(rows) == Pids(front) + {last.pid};
      assert Pids(RowsOf(front, ids) + [last]) == Pids(RowsOf(front, ids)) + {last.pid} by {
        assert last in RowsOf(front, ids) + [last];
      }
    }
  }

  lemma {:induction false} NoRowNoRss(rows: seq<Row>, pid: nat)
    requires pid !in Pids(rows)
    ensures RssOf(rows, pid) == 0
  {
    if rows != [] {
      assert rows[0] in rows;
      NoRowNoRss(rows[1..], pid);
    }
  }

  /** A sample records the start time of each process found and forgets none recorded before. */
  lemma {:induction false} RecordedStarts(owned: map<nat, string>, found: seq<Row>)
    requires UniquePids(found)
    ensures Recorded(owned, found).Keys == owned.Keys + Pids(found)
    ensures forall r :: r in found ==> r.pid in Recorded(owned, found) && Recorded(owned, found)[r.pid] == r.started
    ensures forall pid :: pid in owned && pid !in Pids(found) ==> Recorded(owned, found)[pid] == owned[pid]
  {
    if found == [] {
      NoneFound({});
    } else {
      var front, last := found[..|found| - 1], found[|found| - 1];
      LastIsNew(found);
      RecordedStarts(owned, front);
      forall r | r in front ensures r.pid in Pids(front) {}
      hide UniquePids, Pids;
      assert forall r :: r in found ==> r in front || r == last;
    }
  }
}
