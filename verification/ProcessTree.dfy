/** The processes counted for a set of measured roots: two closure loops over a process table. */
module ProcessTree {

  datatype Row = Row(pid: int, parent: int, group: int)

  function Pids(rows: seq<Row>): set<int> {
    set row | row in rows :: row.pid
  }

  /** Children of a member, and members of an included process group, are members. */
  ghost predicate Closed(rows: seq<Row>, groups: set<int>, s: set<int>) {
    forall row :: row in rows && (row.parent in s || row.group in groups) ==> row.pid in s
  }

  /** The least closed set that contains the roots. */
  ghost predicate Least(rows: seq<Row>, groups: set<int>, roots: set<int>, s: set<int>) {
    && roots <= s && Closed(rows, groups, s)
    && forall t: set<int> :: roots <= t && Closed(rows, groups, t) ==> s <= t
  }

  lemma LeastIsUnique(rows: seq<Row>, groups: set<int>, roots: set<int>, s: set<int>, t: set<int>)
    requires Least(rows, groups, roots, s) && Least(rows, groups, roots, t)
    ensures s == t
  {
  }

  /** The groups that a measured root itself leads. */
  function Groups(rows: seq<Row>, roots: set<int>): set<int> {
    set row | row in rows && row.pid in roots && row.pid == row.group :: row.group
  }

  /** One round of the first loop: every row looks at the set as it was. */
  function Expand(rows: seq<Row>, groups: set<int>, included: set<int>): set<int> {
    included + set row | row in rows && (row.parent in included || row.group in groups) :: row.pid
  }

  /** `process_tree_pss_kb`: terminates on any table, cyclic parents included, with the least closed set. */
  method IncludedProcesses(rows: seq<Row>, roots: set<int>) returns (included: set<int>)
    ensures Least(rows, Groups(rows, roots), roots, included)
  {
    var groups := Groups(rows, roots);
    included := roots;
    var expanded := Expand(rows, groups, included);
    while expanded != included
      invariant roots <= included <= expanded <= roots + Pids(rows)
      invariant expanded == Expand(rows, groups, included)
      invariant forall t: set<int> :: roots <= t && Closed(rows, groups, t) ==> included <= t
      decreases (roots + Pids(rows)) - included
    {
      assert !(expanded <= included);
      included := expanded;
      expanded := Expand(rows, groups, included);
    }
    forall row | row in rows && (row.parent in included || row.group in groups)
      ensures row.pid in included
    {
      assert row.pid in expanded;
    }
  }

  ghost predicate Enumerates(order: seq<int>, parents: map<int, int>) {
    (forall i :: 0 <= i < |order| ==> order[i] in parents) && forall pid :: pid in parents ==> pid in order
  }

  /** The table of the second loop, in the order its dictionary is walked. */
  function Table(parents: map<int, int>, order: seq<int>): seq<Row>
    requires Enumerates(order, parents)
  {
    seq(|order|, i requires 0 <= i < |order| => Row(order[i], parents[order[i]], 0))
  }

  /** `live_pss_kib`: each round grows the set while it walks the table, so a row sees what earlier rows added. */
  method LiveProcesses(parents: map<int, int>, order: seq<int>, root: int) returns (ids: set<int>)
    requires Enumerates(order, parents)
    ensures Least(Table(parents, order), {}, {root}, ids)
  {
    ghost var rows := Table(parents, order);
    assert forall row :: row in rows ==> row.pid in parents.Keys;
    ids := {root};
    var changed := true;
    while changed
      invariant root in ids && ids <= {root} + parents.Keys
      invariant forall t: set<int> :: {root} <= t && Closed(rows, {}, t) ==> ids <= t
      invariant !changed ==> Closed(rows, {}, ids)
      decreases ({root} + parents.Keys) - ids, changed
    {
      var before := ids;
      for k := 0 to |order|
        invariant before <= ids <= {root} + parents.Keys
        invariant forall t: set<int> :: {root} <= t && Closed(rows, {}, t) ==> ids <= t
        invariant forall i :: 0 <= i < k && rows[i].parent in before ==> rows[i].pid in ids
      {
        assert rows[k] in rows;
        if parents[order[k]] in ids {
          ids := ids + {order[k]};
        }
      }
      changed := |ids| != |before|;
      SameSize(before, ids);
    }
  }

  lemma SameSize(s: set<int>, t: set<int>)
    requires s <= t
    ensures |s| == |t| <==> s == t
  {
    assert t == s + (t - s);
    assert |t| == |s| + |t - s|;
  }

  ghost predicate Lists(rows: seq<Row>, pid: int, parent: int) {
    exists row :: row in rows && row.pid == pid && row.parent == parent
  }

  /** Both tables give the same processes the same parents. */
  ghost predicate SameTable(rows: seq<Row>, parents: map<int, int>) {
    && (forall row :: row in rows ==> row.pid in parents && parents[row.pid] == row.parent)
    && (forall pid :: pid in parents ==> Lists(rows, pid, parents[pid]))
  }

  /** When no root leads a group, both loops compute the same set. */
  lemma LoopsAgree(rows: seq<Row>, parents: map<int, int>, order: seq<int>, root: int, s: set<int>, t: set<int>)
    requires Enumerates(order, parents)
    requires SameTable(rows, parents)
    requires Groups(rows, {root}) == {}
    requires Least(rows, Groups(rows, {root}), {root}, s) && Least(Table(parents, order), {}, {root}, t)
    ensures s == t
  {
    forall u: set<int>
      ensures Closed(rows, {}, u) <==> Closed(Table(parents, order), {}, u)
    {
      SameClosure(rows, parents, order, u);
    }
    assert Least(rows, {}, {root}, t);
    LeastIsUnique(rows, {}, {root}, s, t);
  }

  lemma SameClosure(rows: seq<Row>, parents: map<int, int>, order: seq<int>, u: set<int>)
    requires Enumerates(order, parents)
    requires SameTable(rows, parents)
    ensures Closed(rows, {}, u) <==> Closed(Table(parents, order), {}, u)
  {
    var table := Table(parents, order);
    if Closed(table, {}, u) {
      forall row | row in rows && row.parent in u
        ensures row.pid in u
      {
        assert parents[row.pid] == row.parent;
        var i :| 0 <= i < |order| && order[i] == row.pid;
        assert table[i] in table;
      }
    }
    if Closed(rows, {}, u) {
      forall row | row in table && row.parent in u
        ensures row.pid in u
      {
        assert Lists(rows, row.pid, row.parent);
      }
    }
  }

  /** In general, including a group is the same as measuring its members as further roots. */
  lemma GroupsAreExtraRoots(rows: seq<Row>, roots: set<int>, s: set<int>)
    ensures
      var groups := Groups(rows, roots);
      var members := set row | row in rows && row.group in groups :: row.pid;
      Least(rows, groups, roots, s) <==> Least(rows, {}, roots + members, s)
  {
    var groups := Groups(rows, roots);
    var members := set row | row in rows && row.group in groups :: row.pid;
    forall t: set<int>
      ensures roots <= t && Closed(rows, groups, t) <==> roots + members <= t && Closed(rows, {}, t)
    {
      if roots + members <= t && Closed(rows, {}, t) {
        forall row | row in rows && row.group in groups
          ensures row.pid in t
        {
          assert row.pid in members;
        }
      }
    }
  }

  /* Who is counted. */

  /** A measured root leads the row's process group. */
  ghost predicate Led(rows: seq<Row>, roots: set<int>, row: Row) {
    exists leader :: leader in rows && leader.pid in roots && leader.pid == leader.group == row.group
  }

  ghost predicate Starts(rows: seq<Row>, roots: set<int>, pid: int) {
    pid in roots || exists row :: row in rows && row.pid == pid && Led(rows, roots, row)
  }

  /** A line of descent, parent before child. */
  ghost predicate Line(rows: seq<Row>, roots: set<int>, line: seq<int>, pid: int) {
    && line != [] && Starts(rows, roots, line[0]) && line[|line| - 1] == pid
    && forall i :: 0 < i < |line| ==> Lists(rows, line[i], line[i - 1])
  }

  ghost predicate HasLine(rows: seq<Row>, roots: set<int>, pid: int) {
    exists line :: Line(rows, roots, line, pid)
  }

  lemma GroupsAreLed(rows: seq<Row>, roots: set<int>, row: Row)
    ensures row.group in Groups(rows, roots) <==> Led(rows, roots, row)
  {
  }

  lemma {:induction false} LineIsIncluded(rows: seq<Row>, roots: set<int>, s: set<int>, line: seq<int>, pid: int)
    requires roots <= s && Closed(rows, Groups(rows, roots), s) && Line(rows, roots, line, pid)
    ensures pid in s
    decreases |line|
  {
    if |line| == 1 {
      if pid !in roots {
        var row :| row in rows && row.pid == pid && Led(rows, roots, row);
        GroupsAreLed(rows, roots, row);
      }
    } else {
      var front := line[..|line| - 1];
      LineIsIncluded(rows, roots, s, front, front[|front| - 1]);
      assert Lists(rows, line[|line| - 1], line[|line| - 2]);
    }
  }

  lemma LineGrows(rows: seq<Row>, roots: set<int>, line: seq<int>, pid: int, child: int)
    requires Line(rows, roots, line, pid) && Lists(rows, child, pid)
    ensures HasLine(rows, roots, child)
  {
    var longer := line + [child];
    assert forall i :: 0 <= i < |line| ==> longer[i] == line[i];
    assert Line(rows, roots, longer, child);
  }

  /** Counted are exactly the descendants of the roots and of the members of the groups they lead. */
  lemma IncludedAreDescendants(rows: seq<Row>, roots: set<int>, s: set<int>, pid: int)
    requires Least(rows, Groups(rows, roots), roots, s)
    ensures pid in s <==> HasLine(rows, roots, pid)
  {
    if HasLine(rows, roots, pid) {
      var line :| Line(rows, roots, line, pid);
      LineIsIncluded(rows, roots, s, line, pid);
    }
    var t := set p | p in s && HasLine(rows, roots, p);
    forall p | p in roots
      ensures p in t
    {
      assert Line(rows, roots, [p], p);
    }
    forall row | row in rows && (row.parent in t || row.group in Groups(rows, roots))
      ensures row.pid in t
    {
      if row.parent in t {
        var line :| Line(rows, roots, line, row.parent);
        LineGrows(rows, roots, line, row.parent, row.pid);
      } else {
        GroupsAreLed(rows, roots, row);
        assert Starts(rows, roots, row.pid);
        assert Line(rows, roots, [row.pid], row.pid);
      }
    }
    assert Closed(rows, Groups(rows, roots), t);
  }
}
