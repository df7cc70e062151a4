/** Descendants of an owned process: the in-place closure and the set-expansion closure over one snapshot. */
module ProcessClosure {

  /** One row of the process listing; a start time tells two users of one process id apart. */
  datatype Row = Row(ppid: int, started: string, zombie: bool)

  type Table = map<int, Row>

  /** The process known under q is the one that holds q in the snapshot; one not yet known is taken from it. */
  predicate SameHolder(known: Table, table: Table, q: int) {
    q in table && (q in known ==> known[q].started == table[q].started)
  }

  /** Child to parent, over every row. */
  function AllLinks(table: Table): map<int, int> {
    map pid <- table :: table[pid].ppid
  }

  /** Child to parent, where the parent's identity holds. */
  function CheckedLinks(known: Table, table: Table): map<int, int> {
    map pid <- table | SameHolder(known, table, table[pid].ppid) :: table[pid].ppid
  }

  predicate IsClosed(s: set<int>, links: map<int, int>) {
    forall pid <- links :: links[pid] in s ==> pid in s
  }

  /** The least set that contains base and, with each parent, its children. */
  ghost predicate IsLeast(s: set<int>, base: set<int>, links: map<int, int>) {
    base <= s && IsClosed(s, links) && forall t :: base <= t && IsClosed(t, links) ==> s <= t
  }

  /** Climbs from a process to the base along the links, in at most n steps. */
  predicate Climbs(pid: int, base: set<int>, links: map<int, int>, n: nat)
    decreases n
  {
    pid in base || (n > 0 && pid in links && Climbs(links[pid], base, links, n - 1))
  }

  lemma {:induction false} ClimbersBelong(pid: int, base: set<int>, links: map<int, int>, n: nat, s: set<int>)
    requires Climbs(pid, base, links, n) && base <= s && IsClosed(s, links)
    ensures pid in s
    decreases n
  {
    if pid !in base {
      ClimbersBelong(links[pid], base, links, n - 1, s);
    }
  }

  /** Some chain of parents leads from the process into the base. */
  ghost predicate Descends(pid: int, base: set<int>, links: map<int, int>) {
    exists n: nat :: Climbs(pid, base, links, n)
  }

  lemma DescendsAgain(pid: int, base: set<int>, links: map<int, int>)
    ensures pid in base ==> Descends(pid, base, links)
    ensures pid in links && Descends(links[pid], base, links) ==> Descends(pid, base, links)
  {
    if pid in base {
      assert Climbs(pid, base, links, 0);
    }
    if pid in links && Descends(links[pid], base, links) {
      var n: nat :| Climbs(links[pid], base, links, n);
      assert Climbs(pid, base, links, n + 1);
    }
  }

  /** The least closed set is exactly the processes with a chain of parents into the base. */
  lemma LeastIsDescendants(s: set<int>, base: set<int>, links: map<int, int>, pid: int)
    requires IsLeast(s, base, links)
    ensures pid in s <==> Descends(pid, base, links)
  {
    if Descends(pid, base, links) {
      var n: nat :| Climbs(pid, base, links, n);
      ClimbersBelong(pid, base, links, n, s);
    }
    var climbers := set p | p in s && Descends(p, base, links);
    forall p ensures (p in base ==> p in climbers) && (p in links && links[p] in climbers ==> p in climbers) {
      DescendsAgain(p, base, links);
    }
    assert IsClosed(climbers, links) && base <= climbers;
  }

  lemma NewMember<T>(s: set<T>, t: set<T>) returns (pid: T)
    requires s < t
    ensures pid in t && pid !in s
  {
    var added := t - s;
    assert t == added + s;
    assert |added| > 0;
    pid :| pid in added;
  }

  /** The rows kept for a closure: what was known stays, what is new comes from the snapshot. */
  predicate Extends(after: Table, known: Table, table: Table) {
    && known.Keys <= after.Keys
    && forall pid <- after :: if pid in known then after[pid] == known[pid] else pid in table && after[pid] == table[pid]
  }

  /** One pass over the rows; it reports a change exactly when it added a process. */
  method Pass(known: Table, before: Table, table: Table, order: seq<int>) returns (after: Table, changed: bool)
    requires forall pid :: pid in order <==> pid in table
    requires Extends(before, known, table)
    ensures Extends(after, known, table) && before.Keys <= after.Keys
    ensures forall t :: before.Keys <= t && IsClosed(t, CheckedLinks(known, table)) ==> after.Keys <= t
    ensures changed ==> before.Keys < after.Keys
    ensures !changed ==> after == before && IsClosed(after.Keys, CheckedLinks(known, table))
  {
    ghost var links := CheckedLinks(known, table);
    after, changed := before, false;
    for i := 0 to |order|
      invariant Extends(after, known, table) && before.Keys <= after.Keys
      invariant forall t :: before.Keys <= t && IsClosed(t, links) ==> after.Keys <= t
      invariant changed ==> before.Keys < after.Keys
      invariant !changed ==> after == before
      invariant !changed ==> forall pid <- order[..i] :: pid in links && links[pid] in after ==> pid in after
    {
      var pid := order[i];
      assert order[..i + 1] == order[..i] + [pid] && pid in order;
      var row := table[pid];
      if pid !in after && row.ppid in after && row.ppid in table && after[row.ppid].started == table[row.ppid].started {
        assert pid in links && links[pid] == row.ppid;
        after, changed := after[pid := row], true;
      }
    }
    assert order[..|order|] == order;
  }

  /**
   * The closure of bounded_run: whatever the order of the listing, the processes known in the end are the
   * least set that holds those known before and every child of an identity-checked parent.
   */
  method CloseInPlace(before: Table, table: Table, order: seq<int>) returns (known: Table)
    requires forall pid :: pid in order <==> pid in table
    ensures Extends(known, before, table)
    ensures IsLeast(known.Keys, before.Keys, CheckedLinks(before, table))
  {
    known := before;
    var changed := true;
    while changed
      invariant Extends(known, before, table)
      invariant forall t :: before.Keys <= t && IsClosed(t, CheckedLinks(before, table)) ==> known.Keys <= t
      invariant !changed ==> IsClosed(known.Keys, CheckedLinks(before, table))
      decreases table.Keys - known.Keys, changed
    {
      ghost var prior := known;
      known, changed := Pass(before, known, table, order);
      if changed {
        ghost var pid := NewMember(prior.Keys, known.Keys);
        assert pid in table.Keys - prior.Keys && pid !in table.Keys - known.Keys;
      }
    }
  }

  /** The set expansion of run_stub and of the fault injector: the least set under every parent link. */
  method ExpandDescendants(root: int, table: Table) returns (descendants: set<int>)
    ensures IsLeast(descendants, {root}, AllLinks(table))
  {
    ghost var links := AllLinks(table);
    descendants := {root};
    while true
      invariant root in descendants
      invariant forall t :: {root} <= t && IsClosed(t, links) ==> descendants <= t
      decreases table.Keys - descendants
    {
      var expanded := descendants + set pid | pid in table && table[pid].ppid in descendants;
      forall t | {root} <= t && IsClosed(t, links) ensures expanded <= t {
        forall pid | pid in expanded ensures pid in t {
          if pid !in descendants {
            assert pid in links && links[pid] in t;
          }
        }
      }
      if expanded == descendants {
        assert IsClosed(descendants, links);
        return;
      }
      ghost var pid := NewMember(descendants, expanded);
      assert pid in table.Keys - descendants && pid !in table.Keys - expanded;
      descendants := expanded;
    }
  }

  lemma LeastIsUnique(s: set<int>, t: set<int>, base: set<int>, links: map<int, int>)
    requires IsLeast(s, base, links) && IsLeast(t, base, links)
    ensures s == t
  {}

  /** Whatever the order in which a table is listed, the in-place closure knows the same processes by the same rows. */
  lemma ClosureIgnoresOrder(before: Table, table: Table, known: Table, again: Table)
    requires Extends(known, before, table) && IsLeast(known.Keys, before.Keys, CheckedLinks(before, table))
    requires Extends(again, before, table) && IsLeast(again.Keys, before.Keys, CheckedLinks(before, table))
    ensures known == again
  {
    LeastIsUnique(known.Keys, again.Keys, before.Keys, CheckedLinks(before, table));
    forall pid ensures pid in known <==> pid in again {}
    assert forall pid <- known :: known[pid] == again[pid];
  }

  /** Started from a process whose identity holds, both closures are one set. */
  lemma LiveRootAgrees(root: int, row: Row, table: Table, s: set<int>)
    requires SameHolder(map[root := row], table, root)
    ensures IsLeast(s, {root}, CheckedLinks(map[root := row], table)) <==> IsLeast(s, {root}, AllLinks(table))
  {
    var known := map[root := row];
    var checked, all := CheckedLinks(known, table), AllLinks(table);
    forall t ensures {root} <= t && IsClosed(t, all) ==> IsClosed(t, checked) {}
    forall t: set<int> | {root} <= t && IsClosed(t, checked) ensures IsClosed(t * table.Keys, all) {
      forall pid | pid in all && all[pid] in t * table.Keys ensures pid in t * table.Keys {
        assert pid in checked && checked[pid] in t;
      }
    }
  }

  /**
   * The two closures agree exactly when the root still holds its process id or nothing claims it as parent:
   * the expansion, which checks no identity, otherwise follows a later holder's children.
   */
  lemma ClosuresAgreeIff(root: int, row: Row, table: Table, s: set<int>, t: set<int>)
    requires IsLeast(s, {root}, CheckedLinks(map[root := row], table))
    requires IsLeast(t, {root}, AllLinks(table))
    ensures s == t <==>
      SameHolder(map[root := row], table, root) || forall pid <- table :: table[pid].ppid == root ==> pid == root
  {
    var known := map[root := row];
    if SameHolder(known, table, root) {
      LiveRootAgrees(root, row, table, t);
    } else {
      assert IsClosed({root}, CheckedLinks(known, table));
      assert s == {root};
      if forall pid <- table :: table[pid].ppid == root ==> pid == root {
        assert IsClosed({root}, AllLinks(table));
      } else {
        var pid :| pid in table && table[pid].ppid == root && pid != root;
        assert pid in AllLinks(table) && AllLinks(table)[pid] in t;
      }
    }
  }
}
