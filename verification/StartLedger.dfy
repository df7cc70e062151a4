/** The locked quota ledgers: inference starts with overlapping limits, and reserved turns. */
module StartLedger {
  import opened Values

  const TOTAL: nat := 60
  const API_TOTAL: nat := 4

  const CASE_LIMITS: map<string, nat> := map[
    "G0" := 11, "G1" := 2, "G2" := 2, "G3" := 2, "G4" := 1, "G5" := 2, "G6" := 2, "G7" := 2, "G8" := 2, "G9" := 2,
    "G10" := 1, "G11" := 2, "G12" := 4, "G13" := 1, "G14" := 1, "P1" := 8, "P2" := 4, "R" := 11]

  const CASES: seq<string> := [
    "G0", "G1", "G2", "G3", "G4", "G5", "G6", "G7", "G8", "G9", "G10", "G11", "G12", "G13", "G14", "P1", "P2", "R"]

  /** Cases whose starts all go to reviewers, and cases split evenly between reviewers and the rest. */
  const REVIEWER_ONLY: set<string> :=
    {"G1", "G2", "G3", "G4", "G5", "G6", "G7", "G8", "G9", "G10", "G11", "G13", "G14"}
  const SPLIT: set<string> := {"G12", "P1", "P2"}
  const ROLES: set<string> := {"source", "executor", "reviewer"}
  const REVIEWER: string := "reviewer"
  const API: string := "api"

  datatype Start = Start(case_: string, role: string, model: string, authMode: string)

  /** What the caller's environment and the authorization file say. */
  datatype Request = Request(start: Start, gateApproved: bool, extraUsageOff: bool, apiAuthorized: int)

  /** The rows that satisfy a condition. */
  function Count(rows: seq<Start>, p: Start -> bool): nat {
    if rows == [] then 0 else Count(rows[..|rows| - 1], p) + if p(rows[|rows| - 1]) then 1 else 0
  }

  function InCase(c: string): Start -> bool {
    (row: Start) => row.case_ == c
  }

  function InShare(c: string, reviewer: bool): Start -> bool {
    (row: Start) => row.case_ == c && (row.role == REVIEWER) == reviewer
  }

  function IsApi(): Start -> bool {
    (row: Start) => row.authMode == API
  }

  function ShareLimit(c: string): nat
    requires c in CASE_LIMITS
  {
    if c in SPLIT then CASE_LIMITS[c] / 2 else CASE_LIMITS[c]
  }

  /** What is asked before the ledger is opened. */
  predicate IsEligible(r: Request) {
    && r.start.case_ in CASE_LIMITS && r.start.model != "" && r.start.role in ROLES
    && (r.start.case_ in {"P1", "P2"} ==> r.gateApproved)
    && (r.start.case_ == "G0" ==> r.start.role != REVIEWER)
    && (r.start.case_ in REVIEWER_ONLY ==> r.start.role == REVIEWER)
    && (r.start.authMode != API ==> r.extraUsageOff)
  }

  /** Whether every quota still has room for this start. */
  predicate HasRoom(rows: seq<Start>, r: Request) {
    var c := r.start.case_;
    && |rows| < TOTAL && c in CASE_LIMITS && Count(rows, InCase(c)) < CASE_LIMITS[c]
    && Count(rows, InShare(c, r.start.role == REVIEWER)) < ShareLimit(c)
    && (r.start.authMode == API ==> Count(rows, IsApi()) < API_TOTAL && Count(rows, IsApi()) < r.apiAuthorized)
  }

  /** Every quota the ledger is kept within. */
  ghost predicate IsWithinQuotas(rows: seq<Start>) {
    && |rows| <= TOTAL
    && (forall row <- rows :: row.case_ in CASE_LIMITS)
    && (forall c <- CASE_LIMITS :: Count(rows, InCase(c)) <= CASE_LIMITS[c])
    && (forall c <- CASE_LIMITS, reviewer: bool :: Count(rows, InShare(c, reviewer)) <= ShareLimit(c))
    && (forall row <- rows :: row.case_ == "G0" ==> row.role != REVIEWER)
    && (forall row <- rows :: row.case_ in REVIEWER_ONLY ==> row.role == REVIEWER)
    && Count(rows, IsApi()) <= API_TOTAL
  }

  /** The ledger file under its lock. */
  class Ledger {
    var rows: seq<Start>

    constructor ()
      ensures rows == [] && IsWithinQuotas(rows)
    {
      rows := [];
    }

    /** reserve_start: the start is recorded exactly when it is eligible and every quota has room. */
    method ReserveStart(r: Request) returns (ok: bool)
      requires IsWithinQuotas(rows)
      modifies this
      ensures ok <==> IsEligible(r) && HasRoom(old(rows), r)
      ensures rows == if ok then old(rows) + [r.start] else old(rows)
      ensures IsWithinQuotas(rows)
    {
      var c := r.start.case_;
      if c !in CASE_LIMITS || r.start.model == "" || r.start.role !in ROLES { return false; }
      if c in {"P1", "P2"} && !r.gateApproved { return false; }
      var reviewer := r.start.role == REVIEWER;
      var shareLimit := CASE_LIMITS[c];
      if (c == "G0" && reviewer) || (c in REVIEWER_ONLY && !reviewer) { return false; }
      if c in SPLIT { shareLimit := shareLimit / 2; }
      if r.start.authMode != API && !r.extraUsageOff { return false; }
      var inCase := CountRows(rows, InCase(c));
      if |rows| >= TOTAL || inCase >= CASE_LIMITS[c] { return false; }
      var inShare := CountRows(rows, InShare(c, reviewer));
      if inShare >= shareLimit { return false; }
      if r.start.authMode == API {
        var api := CountRows(rows, IsApi());
        if api >= API_TOTAL || api >= r.apiAuthorized { return false; }
      }
      ReservationKeepsQuotas(rows, r);
      rows := rows + [r.start];
      ok := true;
    }
  }

  method CountRows(rows: seq<Start>, p: Start -> bool) returns (n: nat)
    ensures n == Count(rows, p)
  {
    n := 0;
    for i := 0 to |rows|
      invariant n == Count(rows[..i], p)
    {
      assert rows[..i + 1][..i] == rows[..i];
      if p(rows[i]) { n := n + 1; }
    }
    assert rows[..|rows|] == rows;
  }

  lemma CountStep(rows: seq<Start>, row: Start, p: Start -> bool)
    ensures Count(rows + [row], p) == Count(rows, p) + if p(row) then 1 else 0
  {
    assert (rows + [row])[..|rows|] == rows;
  }

  lemma ReservationKeepsQuotas(rows: seq<Start>, r: Request)
    requires IsWithinQuotas(rows) && IsEligible(r) && HasRoom(rows, r)
    ensures IsWithinQuotas(rows + [r.start])
  {
    var all := rows + [r.start];
    forall c | c in CASE_LIMITS ensures Count(all, InCase(c)) <= CASE_LIMITS[c] {
      CountStep(rows, r.start, InCase(c));
    }
    forall c, reviewer: bool | c in CASE_LIMITS ensures Count(all, InShare(c, reviewer)) <= ShareLimit(c) {
      CountStep(rows, r.start, InShare(c, reviewer));
    }
    CountStep(rows, r.start, IsApi());
  }

  /** The limits of these cases added up. */
  function Allocated(cases: seq<string>): nat
    requires forall c <- cases :: c in CASE_LIMITS
  {
    if cases == [] then 0 else CASE_LIMITS[cases[0]] + Allocated(cases[1..])
  }

  /** The rows of these cases added up. */
  function Recorded(rows: seq<Start>, cases: seq<string>): nat {
    if cases == [] then 0 else Count(rows, InCase(cases[0])) + Recorded(rows, cases[1..])
  }

  predicate IsListing(cases: seq<string>) {
    forall i, j :: 0 <= i < j < |cases| ==> cases[i] != cases[j]
  }

  lemma {:induction false} RecordedStep(rows: seq<Start>, row: Start, cases: seq<string>)
    requires IsListing(cases)
    ensures Recorded(rows + [row], cases) == Recorded(rows, cases) + if row.case_ in cases then 1 else 0
  {
    if cases != [] {
      CountStep(rows, row, InCase(cases[0]));
      RecordedStep(rows, row, cases[1..]);
      assert cases == [cases[0]] + cases[1..];
      if row.case_ == cases[0] {
        assert row.case_ !in cases[1..];
      }
    }
  }

  lemma {:induction false} NothingRecorded(cases: seq<string>)
    ensures Recorded([], cases) == 0
  {
    if cases != [] {
      NothingRecorded(cases[1..]);
    }
  }

  /** Every row belongs to exactly one case. */
  lemma {:induction false} CasesPartition(rows: seq<Start>, cases: seq<string>)
    requires IsListing(cases) && forall row <- rows :: row.case_ in cases
    ensures Recorded(rows, cases) == |rows|
  {
    if rows == [] {
      NothingRecorded(cases);
    } else {
      var front, last := rows[..|rows| - 1], rows[|rows| - 1];
      assert rows == front + [last];
      CasesPartition(front, cases);
      RecordedStep(front, last, cases);
    }
  }

  lemma {:induction false} RecordedBound(rows: seq<Start>, cases: seq<string>)
    requires forall c <- cases :: c in CASE_LIMITS && Count(rows, InCase(c)) <= CASE_LIMITS[c]
    ensures Recorded(rows, cases) <= Allocated(cases)
    ensures Recorded(rows, cases) == Allocated(cases) <==> forall c <- cases :: Count(rows, InCase(c)) == CASE_LIMITS[c]
  {
    if cases != [] {
      RecordedBound(rows, cases[1..]);
      assert cases == [cases[0]] + cases[1..];
    }
  }

  lemma CasesListTheLimits()
    ensures IsListing(CASES) && forall c :: c in CASES <==> c in CASE_LIMITS
  {}

  function Sum(xs: seq<nat>): nat {
    if xs == [] then 0 else xs[0] + Sum(xs[1..])
  }

  lemma SumOfThree(a: nat, b: nat, c: nat, rest: seq<nat>)
    ensures Sum([a, b, c] + rest) == a + b + c + Sum(rest)
  {
    var three, two, one := [a, b, c] + rest, [b, c] + rest, [c] + rest;
    assert three[1..] == two && two[1..] == one && one[1..] == rest;
    assert Sum(two) == b + Sum(one);
  }

  lemma {:induction false} AllocatedIsSum(cases: seq<string>, limits: seq<nat>)
    requires |limits| == |cases|
    requires forall c <- cases :: c in CASE_LIMITS
    requires forall i :: 0 <= i < |cases| ==> CASE_LIMITS[cases[i]] == limits[i]
    ensures Allocated(cases) == Sum(limits)
  {
    if cases != [] {
      AllocatedIsSum(cases[1..], limits[1..]);
    }
  }

  const LIMITS: seq<nat> := [11, 2, 2] + ([2, 1, 2] + ([2, 2, 2] + ([2, 1, 2] + ([4, 1, 1] + ([8, 4, 11] + [])))))

  lemma LimitsSum()
    ensures Sum(LIMITS) == TOTAL
  {
    SumOfThree(8, 4, 11, []);
    SumOfThree(4, 1, 1, [8, 4, 11] + []);
    SumOfThree(2, 1, 2, [4, 1, 1] + ([8, 4, 11] + []));
    SumOfThree(2, 2, 2, [2, 1, 2] + ([4, 1, 1] + ([8, 4, 11] + [])));
    SumOfThree(2, 1, 2, [2, 2, 2] + ([2, 1, 2] + ([4, 1, 1] + ([8, 4, 11] + []))));
    SumOfThree(11, 2, 2, [2, 1, 2] + ([2, 2, 2] + ([2, 1, 2] + ([4, 1, 1] + ([8, 4, 11] + [])))));
  }

  lemma LimitsFillTheTotal()
    ensures forall c <- CASES :: c in CASE_LIMITS
    ensures Allocated(CASES) == TOTAL
  {
    AllocatedIsSum(CASES, LIMITS);
    LimitsSum();
  }

  /** The limits add up to the total, so the total is reached exactly when every case is exhausted. */
  lemma TotalMeansEveryCase(rows: seq<Start>)
    requires IsWithinQuotas(rows)
    ensures |rows| >= TOTAL <==> forall c <- CASE_LIMITS :: Count(rows, InCase(c)) == CASE_LIMITS[c]
  {
    LimitsFillTheTotal();
    CasesListTheLimits();
    CasesPartition(rows, CASES);
    RecordedBound(rows, CASES);
  }

  lemma {:induction false} SharesAddUp(rows: seq<Start>, c: string)
    ensures Count(rows, InCase(c)) == Count(rows, InShare(c, true)) + Count(rows, InShare(c, false))
  {
    if rows != [] {
      SharesAddUp(rows[..|rows| - 1], c);
    }
  }

  lemma SplitEvenly(c: string)
    requires c in CASE_LIMITS
    ensures if c in SPLIT then ShareLimit(c) + ShareLimit(c) == CASE_LIMITS[c] else ShareLimit(c) == CASE_LIMITS[c]
    ensures c in SPLIT ==> c != "G0" && c !in REVIEWER_ONLY
    ensures c in REVIEWER_ONLY ==> c != "G0"
  {}

  /** A case with room has a role with room that may use it. */
  lemma RoleWithRoom(rows: seq<Start>, c: string) returns (reviewer: bool)
    requires IsWithinQuotas(rows) && c in CASE_LIMITS && Count(rows, InCase(c)) < CASE_LIMITS[c]
    ensures Count(rows, InShare(c, reviewer)) < ShareLimit(c)
    ensures (c == "G0" ==> !reviewer) && (c in REVIEWER_ONLY ==> reviewer)
  {
    SplitEvenly(c);
    SharesAddUp(rows, c);
    var limit := ShareLimit(c);
    if c in SPLIT {
      reviewer := Count(rows, InShare(c, true)) < limit;
    } else {
      reviewer := c in REVIEWER_ONLY;
    }
  }

  /** The quotas never wedge the ledger: below the total, some eligible start still has room. */
  lemma RoomUntilFull(rows: seq<Start>) returns (r: Request)
    requires IsWithinQuotas(rows) && |rows| < TOTAL
    ensures IsEligible(r) && HasRoom(rows, r)
  {
    TotalMeansEveryCase(rows);
    var c :| c in CASE_LIMITS && Count(rows, InCase(c)) < CASE_LIMITS[c];
    var reviewer := RoleWithRoom(rows, c);
    r := Request(Start(c, if reviewer then REVIEWER else "source", "model", "subscription"), true, true, 0);
  }

  /** The ledger after one request. */
  function Requested(rows: seq<Start>, r: Request): seq<Start> {
    if IsEligible(r) && HasRoom(rows, r) then rows + [r.start] else rows
  }

  /** The ledger after the requests of all processes, in whatever order the lock admits them. */
  function Served(requests: seq<Request>): seq<Start> {
    if requests == [] then [] else Requested(Served(requests[..|requests| - 1]), requests[|requests| - 1])
  }

  lemma {:induction false} EveryInterleavingIsWithinQuotas(requests: seq<Request>)
    ensures IsWithinQuotas(Served(requests))
  {
    if requests != [] {
      var before, r := Served(requests[..|requests| - 1]), requests[|requests| - 1];
      EveryInterleavingIsWithinQuotas(requests[..|requests| - 1]);
      if IsEligible(r) && HasRoom(before, r) {
        ReservationKeepsQuotas(before, r);
      }
    }
  }

  /** This request may use this case, in this role and mode of authorization. */
  predicate MayStart(r: Request) {
    && r.start.model != "" && (r.start.role == "source" || r.start.role == "executor" || r.start.role == "reviewer")
    && (r.start.case_ == "P1" || r.start.case_ == "P2" ==> r.gateApproved)
    && (r.start.authMode == "api" ==> r.apiAuthorized >= 1)
    && (r.start.authMode != "api" ==> r.extraUsageOff)
  }

  /** Every recorded start was asked for by a request that was allowed to make it. */
  lemma {:induction false} EveryRowWasAllowed(requests: seq<Request>, row: Start)
    requires row in Served(requests)
    ensures exists r <- requests :: r.start == row && MayStart(r)
  {
    var n := |requests| - 1;
    var before, r := Served(requests[..n]), requests[n];
    assert requests == requests[..n] + [r];
    if row in before {
      EveryRowWasAllowed(requests[..n], row);
      var q :| q in requests[..n] && q.start == row && MayStart(q);
      assert q in requests;
    } else {
      assert MayStart(r) && r in requests;
    }
  }

  /** The API starts of a run never exceed what one of their own requests was authorized for. */
  lemma {:induction false} ApiStartsAreAuthorized(requests: seq<Request>)
    ensures Count(Served(requests), IsApi()) == 0 || exists r <- requests ::
      r.start.authMode == "api" && Count(Served(requests), IsApi()) <= r.apiAuthorized
  {
    if requests != [] {
      var n := |requests| - 1;
      var before, r := Served(requests[..n]), requests[n];
      assert requests == requests[..n] + [r];
      ApiStartsAreAuthorized(requests[..n]);
      CountStep(before, r.start, IsApi());
      if r.start.authMode == API && IsEligible(r) && HasRoom(before, r) {
        assert r in requests && Count(before, IsApi()) + 1 <= r.apiAuthorized;
      } else if Count(before, IsApi()) != 0 {
        var q :| q in requests[..n] && q.start.authMode == "api" && Count(before, IsApi()) <= q.apiAuthorized;
        assert q in requests;
      }
    }
  }

  /** The turns a ledger of reservations has used. */
  function Used(reservations: seq<int>): int {
    if reservations == [] then 0
    else Used(reservations[..|reservations| - 1]) + reservations[|reservations| - 1]
  }

  /** The reserved-turn ledger under its lock. */
  class TurnLedger {
    var reservations: seq<int>

    /** reserve_turn: a reservation is recorded exactly when it is positive and fits under a positive ceiling. */
    method ReserveTurn(ceiling: int, count: int) returns (ok: bool)
      modifies this
      ensures ok <==> ceiling >= 1 && count >= 1 && Used(old(reservations)) + count <= ceiling
      ensures reservations == if ok then old(reservations) + [count] else old(reservations)
      ensures ok ==> Used(reservations) == Used(old(reservations)) + count <= ceiling
      ensures !ok ==> Used(reservations) == Used(old(reservations))
    {
      if ceiling < 1 || count < 1 { return false; }
      var used := 0;
      for i := 0 to |reservations|
        invariant used == Used(reservations[..i])
      {
        assert reservations[..i + 1][..i] == reservations[..i];
        used := used + reservations[i];
      }
      assert reservations[..|reservations|] == reservations;
      if used + count > ceiling { return false; }
      assert (reservations + [count])[..|reservations|] == reservations;
      reservations := reservations + [count];
      ok := true;
    }
  }
}
