/** What a bounded run holds to be its own over many snapshots, and whom its sweep signals. */
module ProcessOwnership {
  import opened ProcessClosure

  /** One poll: the process listing in its order, and the identities registered for this run so far. */
  datatype Poll = Poll(table: Table, order: seq<int>, registered: Table)

  ghost predicate IsListing(poll: Poll) {
    forall pid :: pid in poll.order <==> pid in poll.table
  }

  /** In this poll the process is listed below a parent that still holds its id. */
  predicate IsChildOf(poll: Poll, pid: int, row: Row, parent: Row) {
    && pid in poll.table && poll.table[pid] == row
    && row.ppid in poll.table && poll.table[row.ppid].started == parent.started
  }

  /** A process of its own right: registered, or listed under the id of the child that was spawned. */
  predicate IsRoot(poll: Poll, child: int, pid: int, row: Row) {
    || (pid in poll.registered && poll.registered[pid] == row)
    || (pid == child && pid in poll.table && poll.table[pid] == row)
  }

  /** A root, or the child of an owned process in some poll; n bounds the length of the argument. */
  ghost predicate IsOwnedIn(polls: seq<Poll>, child: int, pid: int, row: Row, n: nat)
    decreases n
  {
    || (exists poll <- polls :: IsRoot(poll, child, pid, row))
    || (n > 0 && exists poll <- polls, parent ::
          IsChildOf(poll, pid, row, parent) && IsOwnedIn(polls, child, row.ppid, parent, n - 1))
  }

  ghost predicate IsOwned(polls: seq<Poll>, child: int, pid: int, row: Row) {
    exists n: nat :: IsOwnedIn(polls, child, pid, row, n)
  }

  ghost predicate AllOwned(polls: seq<Poll>, child: int, known: Table) {
    forall pid <- known :: IsOwned(polls, child, pid, known[pid])
  }

  lemma {:induction false} OwnedStays(polls: seq<Poll>, more: seq<Poll>, child: int, pid: int, row: Row, n: nat)
    requires IsOwnedIn(polls, child, pid, row, n) && forall poll <- polls :: poll in more
    ensures IsOwnedIn(more, child, pid, row, n)
    decreases n
  {
    if !exists poll <- polls :: IsRoot(poll, child, pid, row) {
      var poll, parent :| poll in polls
        && IsChildOf(poll, pid, row, parent) && IsOwnedIn(polls, child, row.ppid, parent, n - 1);
      OwnedStays(polls, more, child, row.ppid, parent, n - 1);
    }
  }

  lemma AllOwnedStays(polls: seq<Poll>, poll: Poll, child: int, known: Table)
    requires AllOwned(polls, child, known)
    ensures AllOwned(polls + [poll], child, known)
  {
    forall pid | pid in known ensures IsOwned(polls + [poll], child, pid, known[pid]) {
      var n: nat :| IsOwnedIn(polls, child, pid, known[pid], n);
      OwnedStays(polls, polls + [poll], child, pid, known[pid], n);
    }
  }

  lemma ChildIsOwned(polls: seq<Poll>, poll: Poll, child: int, pid: int, row: Row, parent: Row)
    requires poll in polls && IsChildOf(poll, pid, row, parent) && IsOwned(polls, child, row.ppid, parent)
    ensures IsOwned(polls, child, pid, row)
  {
    var n: nat :| IsOwnedIn(polls, child, row.ppid, parent, n);
    assert IsOwnedIn(polls, child, pid, row, n + 1);
  }

  lemma RootIsOwned(polls: seq<Poll>, poll: Poll, child: int, pid: int, row: Row)
    requires poll in polls && IsRoot(poll, child, pid, row)
    ensures IsOwned(polls, child, pid, row)
  {
    assert IsOwnedIn(polls, child, pid, row, 0);
  }

  lemma {:induction false} ClimberIsOwned(polls: seq<Poll>, poll: Poll, child: int, before: Table, known: Table, pid: int, n: nat)
    requires poll in polls && AllOwned(polls, child, before) && Extends(known, before, poll.table)
    requires IsClosed(known.Keys, CheckedLinks(before, poll.table))
    requires Climbs(pid, before.Keys, CheckedLinks(before, poll.table), n)
    ensures pid in known && IsOwned(polls, child, pid, known[pid])
    decreases n
  {
    if pid !in before {
      var parent := poll.table[pid].ppid;
      ClimberIsOwned(polls, poll, child, before, known, parent, n - 1);
      ChildIsOwned(polls, poll, child, pid, poll.table[pid], known[parent]);
    }
  }

  /** The closure of owned processes over one snapshot adds only owned processes. */
  lemma ClosureIsOwned(polls: seq<Poll>, poll: Poll, child: int, before: Table, known: Table)
    requires poll in polls && AllOwned(polls, child, before) && Extends(known, before, poll.table)
    requires IsLeast(known.Keys, before.Keys, CheckedLinks(before, poll.table))
    ensures AllOwned(polls, child, known)
  {
    var links := CheckedLinks(before, poll.table);
    forall pid | pid in known ensures IsOwned(polls, child, pid, known[pid]) {
      LeastIsDescendants(known.Keys, before.Keys, links, pid);
      var n: nat :| Climbs(pid, before.Keys, links, n);
      ClimberIsOwned(polls, poll, child, before, known, pid, n);
    }
  }

  // ----- What each poll makes known -----

  /** Before its closure a poll adds the child, unless it is known, and the registered identities. */
  function Based(before: Table, poll: Poll, child: int): Table {
    (if child in poll.table && child !in before then before[child := poll.table[child]] else before) + poll.registered
  }

  /** One poll: exactly the base and whatever descends from it in the listing become known. */
  ghost predicate IsPolled(before: Table, poll: Poll, child: int, after: Table) {
    var base := Based(before, poll, child);
    Extends(after, base, poll.table) && IsLeast(after.Keys, base.Keys, CheckedLinks(base, poll.table))
  }

  /** What is known before the first poll and after each. */
  ghost predicate IsHistory(polls: seq<Poll>, child: int, history: seq<Table>) {
    && |history| == |polls| + 1 && history[0] == map[]
    && forall i :: 0 <= i < |polls| ==> IsPolled(history[i], polls[i], child, history[i + 1])
  }

  lemma BaseIsOwned(polls: seq<Poll>, poll: Poll, child: int, before: Table)
    requires poll in polls && AllOwned(polls, child, before)
    ensures AllOwned(polls, child, Based(before, poll, child))
  {
    var base := Based(before, poll, child);
    forall pid | pid in base ensures IsOwned(polls, child, pid, base[pid]) {
      if pid in poll.registered || pid !in before {
        RootIsOwned(polls, poll, child, pid, base[pid]);
      }
    }
  }

  /** A process whose parent is known and still holds its id in the listing is known too. */
  lemma PolledIsClosed(before: Table, poll: Poll, child: int, after: Table)
    requires IsPolled(before, poll, child, after)
    ensures IsClosed(after.Keys, CheckedLinks(after, poll.table))
    ensures before.Keys <= after.Keys && poll.registered.Keys <= after.Keys
    ensures child in poll.table ==> child in after
  {
    var base := Based(before, poll, child);
    assert forall q :: q in after ==> (SameHolder(after, poll.table, q) <==> SameHolder(base, poll.table, q));
    forall pid | pid in CheckedLinks(after, poll.table) && CheckedLinks(after, poll.table)[pid] in after
      ensures pid in after
    {
      assert pid in CheckedLinks(base, poll.table);
    }
  }

  /** Nothing that is known is ever lost. */
  lemma {:induction false} NothingIsLost(polls: seq<Poll>, child: int, history: seq<Table>, i: nat, j: nat)
    requires IsHistory(polls, child, history) && i <= j <= |polls|
    ensures history[i].Keys <= history[j].Keys
  {
    if i < j {
      NothingIsLost(polls, child, history, i, j - 1);
      PolledIsClosed(history[j - 1], polls[j - 1], child, history[j]);
    }
  }

  /**
   * No descendant escapes: a process that any poll lists below a process known by then, by a chain of parents that
   * hold their ids, is known from then on.
   */
  lemma NoDescendantEscapes(polls: seq<Poll>, child: int, history: seq<Table>, i: nat, j: nat, pid: int)
    requires IsHistory(polls, child, history) && i < j <= |polls|
    requires Descends(pid, Based(history[i], polls[i], child).Keys, CheckedLinks(history[i + 1], polls[i].table))
    ensures pid in history[j]
  {
    var base := Based(history[i], polls[i], child);
    var n: nat :| Climbs(pid, base.Keys, CheckedLinks(history[i + 1], polls[i].table), n);
    PolledIsClosed(history[i], polls[i], child, history[i + 1]);
    ClimbersBelong(pid, base.Keys, CheckedLinks(history[i + 1], polls[i].table), n, history[i + 1].Keys);
    NothingIsLost(polls, child, history, i + 1, j);
  }

  /** What a run knows is decided by its polls, whatever the order of each listing. */
  lemma {:induction false} HistoryIsUnique(polls: seq<Poll>, child: int, a: seq<Table>, b: seq<Table>, i: nat)
    requires IsHistory(polls, child, a) && IsHistory(polls, child, b) && i <= |polls|
    ensures a[i] == b[i]
  {
    if i > 0 {
      HistoryIsUnique(polls, child, a, b, i - 1);
      assert IsPolled(a[i - 1], polls[i - 1], child, a[i]) && IsPolled(b[i - 1], polls[i - 1], child, b[i]);
      ClosureIgnoresOrder(Based(a[i - 1], polls[i - 1], child), polls[i - 1].table, a[i], b[i]);
    }
  }

  lemma PolledIsOwned(polls: seq<Poll>, poll: Poll, child: int, before: Table, after: Table)
    requires AllOwned(polls, child, before) && IsPolled(before, poll, child, after)
    ensures AllOwned(polls + [poll], child, after)
  {
    AllOwnedStays(polls, poll, child, before);
    BaseIsOwned(polls + [poll], poll, child, before);
    ClosureIsOwned(polls + [poll], poll, child, Based(before, poll, child), after);
  }

  lemma HistoryGrows(polls: seq<Poll>, poll: Poll, child: int, history: seq<Table>, after: Table)
    requires IsHistory(polls, child, history) && IsPolled(history[|polls|], poll, child, after)
    ensures IsHistory(polls + [poll], child, history + [after])
  {
    var all, more := polls + [poll], history + [after];
    forall i | 0 <= i < |all| ensures IsPolled(more[i], all[i], child, more[i + 1]) {
      if i < |polls| {
        assert more[i] == history[i] && all[i] == polls[i] && more[i + 1] == history[i + 1];
      }
    }
  }

  /**
   * The polling loop of bounded_run: each poll makes known exactly the child, the registered processes and their
   * descendants beside what was known, so the processes known are owned, and closed under the last listing.
   */
  method Track(child: int, polls: seq<Poll>) returns (known: Table, ghost history: seq<Table>)
    requires forall poll <- polls :: IsListing(poll)
    ensures IsHistory(polls, child, history) && known == history[|polls|]
    ensures AllOwned(polls, child, known)
    ensures polls != [] ==> IsClosed(known.Keys, CheckedLinks(known, polls[|polls| - 1].table))
  {
    known := map[];
    history := [known];
    for i := 0 to |polls|
      invariant IsHistory(polls[..i], child, history) && known == history[i]
      invariant AllOwned(polls[..i], child, known)
    {
      var poll := polls[i];
      ghost var before := known;
      assert polls[..i + 1] == polls[..i] + [poll] && poll in polls;
      if child in poll.table && child !in known {
        known := known[child := poll.table[child]];
      }
      known := known + poll.registered;
      known := CloseInPlace(known, poll.table, poll.order);
      PolledIsOwned(polls[..i], poll, child, before, known);
      HistoryGrows(polls[..i], poll, child, history, known);
      history := history + [known];
    }
    assert polls[..|polls|] == polls;
    if polls != [] {
      PolledIsClosed(history[|polls| - 1], polls[|polls| - 1], child, known);
    }
  }

  predicate SameProcess(row: Row, table: Table, pid: int) {
    pid in table && row.started == table[pid].started
  }

  /** living: the known processes that still hold their id and are no zombies. */
  function Living(known: Table, table: Table): Table {
    map pid <- known | SameProcess(known[pid], table, pid) && !table[pid].zombie :: known[pid]
  }

  /** signal_owned: each process is checked against a listing of its own; an id that was reused is not signalled. */
  method SignalOwned(rows: seq<(int, Row)>, listing: nat -> Table) returns (sent: seq<int>)
    ensures forall pid <- sent :: exists i ::
      && 0 <= i < |rows|
      && rows[i].0 == pid && pid in listing(i) && listing(i)[pid].started == rows[i].1.started
    ensures forall i ::
      && 0 <= i < |rows|
      && rows[i].0 in listing(i) && listing(i)[rows[i].0].started == rows[i].1.started
      ==> rows[i].0 in sent
  {
    sent := [];
    for i := 0 to |rows|
      invariant forall pid <- sent :: exists j ::
        && 0 <= j < i
        && rows[j].0 == pid && pid in listing(j) && listing(j)[pid].started == rows[j].1.started
      invariant forall j ::
        && 0 <= j < i
        && rows[j].0 in listing(j) && listing(j)[rows[j].0].started == rows[j].1.started
        ==> rows[j].0 in sent
    {
      if SameProcess(rows[i].1, listing(i), rows[i].0) {
        sent := sent + [rows[i].0];
      }
    }
  }

  /** A process is shown under the start time known for it, and not as a zombie. */
  predicate IsAlive(known: Table, now: Table, pid: int) {
    pid in known && pid in now && now[pid].started == known[pid].started && !now[pid].zombie
  }

  /** The survivors of a known table in some order, each once, under what is known of them. */
  predicate Survive(survivors: seq<(int, Row)>, known: Table, now: Table) {
    && (forall pair <- survivors :: IsAlive(known, now, pair.0) && pair.1 == known[pair.0])
    && (forall pid <- known :: IsAlive(known, now, pid) ==> (pid, known[pid]) in survivors)
    && (forall i, j :: 0 <= i < j < |survivors| ==> survivors[i].0 != survivors[j].0)
  }

  /** The process is the i-th survivor, and the listing made for it shows the start time known for it. */
  predicate IsConfirmed(known: Table, survivors: seq<(int, Row)>, listing: nat -> Table, i: nat, pid: int) {
    && i < |survivors| && survivors[i].0 == pid
    && pid in known && pid in listing(i) && listing(i)[pid].started == known[pid].started
  }

  /** One round of the sweep: who is alive now, and whom the listings made since confirm. */
  method Round(known: Table, now: Table, listing: nat -> Table) returns (survivors: seq<(int, Row)>, sent: seq<int>)
    ensures Survive(survivors, known, now)
    ensures forall pid :: pid in sent <==> exists i: nat :: IsConfirmed(known, survivors, listing, i, pid)
  {
    var living := Living(known, now);
    survivors := [];
    var todo := living.Keys;
    while todo != {}
      invariant todo <= living.Keys
      invariant forall pair <- survivors :: pair.0 in living && pair.1 == living[pair.0] && pair.0 !in todo
      invariant forall i, j :: 0 <= i < j < |survivors| ==> survivors[i].0 != survivors[j].0
      invariant forall pid <- living :: pid !in todo ==> (pid, living[pid]) in survivors
      decreases todo
    {
      var pid :| pid in todo;
      survivors := survivors + [(pid, living[pid])];
      todo := todo - {pid};
    }
    assert forall pid :: pid in living <==> IsAlive(known, now, pid);
    sent := SignalOwned(survivors, listing);
    forall pid ensures pid in sent <==> exists i: nat :: IsConfirmed(known, survivors, listing, i, pid) {
      if pid in sent {
        var i :| && 0 <= i < |survivors|
                 && survivors[i].0 == pid && pid in listing(i) && listing(i)[pid].started == survivors[i].1.started;
        assert survivors[i] in survivors;
        assert IsConfirmed(known, survivors, listing, i, pid);
      }
      if i: nat :| IsConfirmed(known, survivors, listing, i, pid) {
        assert survivors[i] in survivors;
      }
    }
  }

  /** Whoever is alive and confirmed by every listing made since is signalled. */
  lemma ConfirmedAreSignalled(known: Table, now: Table, listing: nat -> Table, survivors: seq<(int, Row)>, sent: seq<int>)
    requires Survive(survivors, known, now)
    requires forall pid :: pid in sent <==> exists i: nat :: IsConfirmed(known, survivors, listing, i, pid)
    ensures forall pid <- sent :: pid in known && exists i ::
      && 0 <= i < |survivors| && survivors[i] == (pid, known[pid])
      && pid in now && now[pid].started == known[pid].started && !now[pid].zombie
      && pid in listing(i) && listing(i)[pid].started == known[pid].started
    ensures forall pid <- known ::
      && pid in now && now[pid].started == known[pid].started && !now[pid].zombie
      && (forall i :: 0 <= i < |survivors| ==> pid in listing(i) && listing(i)[pid].started == known[pid].started)
      ==> pid in sent
  {
    forall pid | pid in sent ensures pid in known && exists i ::
      && 0 <= i < |survivors| && survivors[i] == (pid, known[pid])
      && pid in now && now[pid].started == known[pid].started && !now[pid].zombie
      && pid in listing(i) && listing(i)[pid].started == known[pid].started
    {
      var i: nat :| IsConfirmed(known, survivors, listing, i, pid);
      assert survivors[i] in survivors;
    }
    forall pid | pid in known && IsAlive(known, now, pid)
      && (forall i :: 0 <= i < |survivors| ==> pid in listing(i) && listing(i)[pid].started == known[pid].started)
      ensures pid in sent
    {
      var i :| 0 <= i < |survivors| && survivors[i] == (pid, known[pid]);
      assert IsConfirmed(known, survivors, listing, i, pid);
    }
  }

  /** What the sweep knows: what the polls made known, under the identities registered last. */
  function Swept(known: Table, registered: Table): Table {
    known + registered
  }

  /** The last reading of the registered identities, as a poll without a listing. */
  function LastReading(registered: Table): Poll {
    Poll(map[], [], registered)
  }

  lemma SweptIsOwned(polls: seq<Poll>, child: int, known: Table, registered: Table)
    requires AllOwned(polls, child, known)
    ensures AllOwned(polls + [LastReading(registered)], child, Swept(known, registered))
  {
    AllOwnedStays(polls, LastReading(registered), child, known);
    BaseIsOwned(polls + [LastReading(registered)], LastReading(registered), child, known);
  }

  /**
   * The two rounds of signals: all that is known is owned; each round takes every known process that is listed under
   * its start time and is no zombie, no other, and signals it if and only if the listing made for it confirms that
   * start time; whoever all listings of a round confirm is signalled.
   */
  method Sweep(child: int, polls: seq<Poll>, registered: Table, first: Table, firstListing: nat -> Table,
      second: Table, secondListing: nat -> Table)
    returns (known: Table, survivors: seq<(int, Row)>, terminated: seq<int>, stubborn: seq<(int, Row)>, killed: seq<int>,
      ghost history: seq<Table>)
    requires forall poll <- polls :: IsListing(poll)
    ensures IsHistory(polls, child, history) && known == Swept(history[|polls|], registered)
    ensures AllOwned(polls + [LastReading(registered)], child, known)
    ensures Survive(survivors, known, first) && Survive(stubborn, known, second)
    ensures forall pid <- terminated :: pid in known && exists i ::
      && 0 <= i < |survivors| && survivors[i] == (pid, known[pid])
      && pid in first && first[pid].started == known[pid].started && !first[pid].zombie
      && pid in firstListing(i) && firstListing(i)[pid].started == known[pid].started
    ensures forall pid <- known ::
      && pid in first && first[pid].started == known[pid].started && !first[pid].zombie
      && (forall i :: 0 <= i < |survivors| ==>
            pid in firstListing(i) && firstListing(i)[pid].started == known[pid].started)
      ==> pid in terminated
    ensures forall pid <- killed :: pid in known && exists i ::
      && 0 <= i < |stubborn| && stubborn[i] == (pid, known[pid])
      && pid in second && second[pid].started == known[pid].started && !second[pid].zombie
      && pid in secondListing(i) && secondListing(i)[pid].started == known[pid].started
    ensures forall pid <- known ::
      && pid in second && second[pid].started == known[pid].started && !second[pid].zombie
      && (forall i :: 0 <= i < |stubborn| ==>
            pid in secondListing(i) && secondListing(i)[pid].started == known[pid].started)
      ==> pid in killed
    ensures forall pid :: pid in terminated <==> exists i: nat :: IsConfirmed(known, survivors, firstListing, i, pid)
    ensures forall pid :: pid in killed <==> exists i: nat :: IsConfirmed(known, stubborn, secondListing, i, pid)
  {
    known, history := Track(child, polls);
    SweptIsOwned(polls, child, known, registered);
    known := known + registered;
    survivors, terminated := Round(known, first, firstListing);
    stubborn, killed := Round(known, second, secondListing);
    ConfirmedAreSignalled(known, first, firstListing, survivors, terminated);
    ConfirmedAreSignalled(known, second, secondListing, stubborn, killed);
  }
}
