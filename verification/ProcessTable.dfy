/**
  The kernel's process table, as far as process groups and PID reuse are concerned.

  PIDs are reused, so a process is identified by its birth number, which never is.
  A zombie keeps its entry, and with it its PID and group, until it is reaped; a PID is
  free only when no process bears it and no process group does (section 4.14, Process ID
  Reuse, of the Base Definitions of POSIX.1-2017).
*/
module ProcessTable {

  type Pid = nat

  /**
    group is the process group ID; founder and session are the birth numbers of the
    processes that founded the group and the session. strayed records that the process,
    or an ancestor since its session began, has changed group of its own accord.
  */
  datatype Proc = Proc(born: nat, group: Pid, founder: nat, session: nat, alive: bool, strayed: bool)

  datatype Table = Table(procs: map<Pid, Proc>, births: nat)

  /** What any two entries of a table agree on. */
  predicate Fits(p: Pid, x: Proc, q: Pid, y: Proc) {
    && (x.born == y.born ==> p == q)
    && (x.group == y.group ==> x.founder == y.founder && x.session == y.session)
    // whoever bears the PID of an existing group founded that group
    && (y.group == p ==> x.born == y.founder && x.session == y.session)
  }

  ghost predicate WellFormed(t: Table) {
    && (forall p <- t.procs ::
          t.procs[p].session <= t.procs[p].born < t.births && t.procs[p].founder < t.births)
    && (forall p <- t.procs, q <- t.procs :: Fits(p, t.procs[p], q, t.procs[q]))
  }

  predicate Alive(t: Table, p: Pid) {
    p in t.procs && t.procs[p].alive
  }

  predicate Zombie(t: Table, p: Pid) {
    p in t.procs && !t.procs[p].alive
  }

  predicate Free(t: Table, p: Pid) {
    p !in t.procs && forall q <- t.procs :: t.procs[q].group != p
  }

  /** The processes killpg(g) reaches. */
  function Recipients(t: Table, g: Pid): set<Pid> {
    set p <- t.procs | t.procs[p].group == g && t.procs[p].alive
  }

  function Described(t: Table, ps: set<Pid>): set<Proc> {
    set p <- ps | p in t.procs :: t.procs[p]
  }

  // ----- System calls -----

  function Fork(t: Table, parent: Pid, child: Pid): Table
    requires Alive(t, parent)
  {
    Table(t.procs[child := t.procs[parent].(born := t.births)], t.births + 1)
  }

  /** A fork whose child calls setsid before the parent continues. */
  function Spawn(t: Table, child: Pid): Table {
    Table(t.procs[child := Proc(t.births, child, t.births, t.births, true, false)], t.births + 1)
  }

  function Kill(t: Table, victims: set<Pid>): Table {
    t.(procs := map p <- t.procs :: if p in victims then t.procs[p].(alive := false) else t.procs[p])
  }

  function Reap(t: Table, p: Pid): Table {
    t.(procs := t.procs - {p})
  }

  predicate MaySetsid(t: Table, p: Pid) {
    Alive(t, p) && forall q <- t.procs :: t.procs[q].group != p
  }

  function Setsid(t: Table, p: Pid): Table
    requires MaySetsid(t, p)
  {
    var born := t.procs[p].born;
    t.(procs := t.procs[p := Proc(born, p, born, born, true, true)])
  }

  /** setpgid: a process that leads no session may found a group of its own ... */
  predicate MayFoundGroup(t: Table, p: Pid) {
    Alive(t, p) && t.procs[p].session != t.procs[p].born && t.procs[p].group != p
  }

  function FoundGroup(t: Table, p: Pid): Table
    requires MayFoundGroup(t, p)
  {
    t.(procs := t.procs[p := t.procs[p].(group := p, founder := t.procs[p].born, strayed := true)])
  }

  /** ... or join the group of a peer in its session, even a zombie's. */
  predicate MayJoinGroup(t: Table, p: Pid, peer: Pid) {
    && Alive(t, p) && peer in t.procs
    && t.procs[p].session != t.procs[p].born
    && t.procs[p].session == t.procs[peer].session
    && t.procs[p].group != t.procs[peer].group
  }

  function JoinGroup(t: Table, p: Pid, peer: Pid): Table
    requires MayJoinGroup(t, p, peer)
  {
    var target := t.procs[peer];
    t.(procs := t.procs[p := t.procs[p].(group := target.group, founder := target.founder, strayed := true)])
  }

  // ----- Calls as data -----

  datatype Call =
    | CFork(parent: Pid, child: Pid) | CExit(p: Pid) | CReap(p: Pid)
    | CSetsid(p: Pid) | CFoundGroup(p: Pid) | CJoinGroup(p: Pid, peer: Pid)

  predicate Possible(t: Table, e: Call) {
    match e
    case CFork(parent, child) => Alive(t, parent) && Free(t, child)
    case CExit(p) => Alive(t, p)
    case CReap(p) => Zombie(t, p)
    case CSetsid(p) => MaySetsid(t, p)
    case CFoundGroup(p) => MayFoundGroup(t, p)
    case CJoinGroup(p, peer) => MayJoinGroup(t, p, peer)
  }

  function After(t: Table, e: Call): Table
    requires Possible(t, e)
  {
    match e
    case CFork(parent, child) => Fork(t, parent, child)
    case CExit(p) => Kill(t, {p})
    case CReap(p) => Reap(t, p)
    case CSetsid(p) => Setsid(t, p)
    case CFoundGroup(p) => FoundGroup(t, p)
    case CJoinGroup(p, peer) => JoinGroup(t, p, peer)
  }

  // ----- What the calls keep -----

  /** Birth number b still has its entry, at PID a. */
  predicate Bears(t: Table, a: Pid, b: nat) {
    a in t.procs && t.procs[a].born == b
  }

  predicate Runs(t: Table, a: Pid, b: nat) {
    Bears(t, a, b) && t.procs[a].alive
  }

  /** Birth number b is a session and group leader's, and its PID is a for as long as it has an entry. */
  ghost predicate Leads(t: Table, a: Pid, b: nat) {
    && b < t.births
    && (forall p <- t.procs :: t.procs[p].born == b ==>
          p == a && t.procs[p].group == a && t.procs[p].founder == b && t.procs[p].session == b)
    && (forall p <- t.procs :: t.procs[p].founder == b ==> t.procs[p].group == a && t.procs[p].session == b)
  }

  /** Nobody but b itself is in the session b leads. */
  ghost predicate Alone(t: Table, b: nat) {
    forall p <- t.procs :: t.procs[p].session == b ==> t.procs[p].born == b
  }

  /** The members of b's group that never left it and are still running. */
  function Loyal(t: Table, b: nat): set<Pid> {
    set p <- t.procs | t.procs[p].founder == b && t.procs[p].alive && !t.procs[p].strayed
  }

  lemma RegroupingKeepsTable(t: Table, e: Call)
    requires WellFormed(t) && Possible(t, e) && (e.CSetsid? || e.CFoundGroup? || e.CJoinGroup?)
    ensures WellFormed(After(t, e))
  {
    var u := After(t, e);
    forall q <- u.procs
      ensures Fits(e.p, u.procs[e.p], q, u.procs[q]) && Fits(q, u.procs[q], e.p, u.procs[e.p])
    {
      assert Fits(e.p, t.procs[e.p], q, t.procs[q]) && Fits(q, t.procs[q], e.p, t.procs[e.p]);
      if e.CJoinGroup? {
        assert Fits(e.peer, t.procs[e.peer], q, t.procs[q]) && Fits(q, t.procs[q], e.peer, t.procs[e.peer]);
      }
    }
  }

  lemma CallKeepsTable(t: Table, e: Call)
    requires WellFormed(t) && Possible(t, e)
    ensures WellFormed(After(t, e)) && t.births <= After(t, e).births
  {
    if e.CSetsid? || e.CFoundGroup? || e.CJoinGroup? {
      RegroupingKeepsTable(t, e);
    }
  }

  lemma CallKeepsLeader(t: Table, e: Call, a: Pid, b: nat)
    requires WellFormed(t) && Possible(t, e) && Leads(t, a, b)
    ensures Leads(After(t, e), a, b)
  {
    match e case CFork(_, _) => case CExit(_) => case CReap(_) => case CSetsid(_) => case CFoundGroup(_) => case CJoinGroup(_, _) =>
  }

  lemma CallKeepsEntry(t: Table, e: Call, a: Pid, b: nat)
    requires WellFormed(t) && Possible(t, e) && b < t.births
    ensures Bears(After(t, e), a, b) <==> Bears(t, a, b) && e != CReap(a)
    ensures Runs(After(t, e), a, b) <==> Runs(t, a, b) && e != CExit(a)
  {}

  lemma CallKeepsLoyalty(t: Table, e: Call, a: Pid, b: nat)
    requires WellFormed(t) && Possible(t, e) && Leads(t, a, b)
    ensures Loyal(t, b) == {} ==> Loyal(After(t, e), b) == {}
    ensures Alone(t, b) && !(e.CFork? && t.procs[e.parent].born == b) ==> Alone(After(t, e), b)
  {
    forall p <- Loyal(After(t, e), b)
      ensures (if e.CFork? && p == e.child then e.parent else p) in Loyal(t, b)
    {}
  }

  /**
    Whatever a process does, a leader keeps its place and gains no loyal member except by
    the fork of one, nor any companion in its session except by its own fork.
  */
  lemma CallKeeps(t: Table, e: Call, a: Pid, b: nat)
    requires WellFormed(t) && Possible(t, e) && Leads(t, a, b)
    ensures WellFormed(After(t, e)) && Leads(After(t, e), a, b)
    ensures Bears(After(t, e), a, b) <==> Bears(t, a, b) && e != CReap(a)
    ensures Runs(After(t, e), a, b) <==> Runs(t, a, b) && e != CExit(a)
    ensures Loyal(t, b) == {} ==> Loyal(After(t, e), b) == {}
    ensures Alone(t, b) && !(e.CFork? && t.procs[e.parent].born == b) ==> Alone(After(t, e), b)
  {
    CallKeepsTable(t, e);
    CallKeepsLeader(t, e, a, b);
    CallKeepsEntry(t, e, a, b);
    CallKeepsLoyalty(t, e, a, b);
  }

  /** A leader's session gains nobody except by a fork inside it. */
  lemma SessionGrowsByForks(t: Table, e: Call, a: Pid, b: nat)
    requires WellFormed(t) && Possible(t, e) && Leads(t, a, b)
    ensures var u := After(t, e);
            forall p <- u.procs | u.procs[p].session == b ::
              || (p in t.procs && t.procs[p].born == u.procs[p].born && t.procs[p].session == b)
              || (e.CFork? && p == e.child && t.procs[e.parent].session == b)
  {
    if e.CSetsid? {
      assert t.procs[e.p].born != b;
    }
  }

  lemma SpawnKeeps(t: Table, child: Pid)
    requires WellFormed(t) && Free(t, child)
    ensures WellFormed(Spawn(t, child)) && Leads(Spawn(t, child), child, t.births) && Alone(Spawn(t, child), t.births)
    ensures Runs(Spawn(t, child), child, t.births)
  {}

  lemma SpawnKeepsOthers(t: Table, child: Pid, a: Pid, b: nat)
    requires WellFormed(t) && Free(t, child) && Leads(t, a, b)
    ensures WellFormed(Spawn(t, child)) && Leads(Spawn(t, child), a, b)
    ensures Bears(Spawn(t, child), a, b) <==> Bears(t, a, b)
    ensures Runs(Spawn(t, child), a, b) <==> Runs(t, a, b)
    ensures Alone(t, b) ==> Alone(Spawn(t, child), b)
    ensures Loyal(Spawn(t, child), b) == Loyal(t, b)
  {
    SpawnKeeps(t, child);
  }

  lemma KillKeeps(t: Table, victims: set<Pid>, a: Pid, b: nat)
    requires WellFormed(t)
    ensures WellFormed(Kill(t, victims)) && Kill(t, victims).births == t.births
    ensures Leads(t, a, b) ==> Leads(Kill(t, victims), a, b)
    ensures Bears(Kill(t, victims), a, b) <==> Bears(t, a, b)
    ensures Runs(Kill(t, victims), a, b) <==> Runs(t, a, b) && a !in victims
    ensures Alone(t, b) ==> Alone(Kill(t, victims), b)
    ensures Loyal(Kill(t, victims), b) == Loyal(t, b) - victims
  {}

  /** A leader that still has its entry is one of the group's, so the group is the one it founded. */
  lemma RecipientsAreFollowers(t: Table, a: Pid, b: nat)
    requires WellFormed(t) && Leads(t, a, b) && Bears(t, a, b)
    ensures forall x <- Described(t, Recipients(t, a)) :: x.group == a && x.founder == b && x.session == b && x.alive
    ensures Runs(t, a, b) ==> a in Recipients(t, a)
    ensures Loyal(t, b) <= Recipients(t, a)
  {}
}
