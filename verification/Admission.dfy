/** Native-history admission: the one-pass boundary scan and the lenient scanner of prefix copies. */
module Admission {
  import opened Values
  import opened Records

  /** What the scans look at in a record. */
  datatype Item =
    | Call(id: Json) | Output(id: Json) | Unreadable
    | Said(payload: map<string, Json>) | Started(turn: Json) | Finished(turn: Json) | Other

  datatype Scan = Scan(pending: set<string>, start: Json, finish: Json, message: Option<map<string, Json>>)

  datatype Scanned = Clean(scan: Scan) | Raised(why: string)

  datatype Verdict = Admitted | Refused(why: string)

  const NO_IDENTITY := "Missing native call identity"
  const UNMATCHED := "Unmatched native call output"
  const DUPLICATE := "Duplicate native call"
  const UNHASHABLE := "unhashable type"
  const UNFINISHED := "Unfinished native tool exchange"
  const NO_TURN := "Unknown native turn boundary"
  const INCOMPLETE := "Native turn is not complete"
  const NO_MATCH := "Stop boundary does not match captured native final answer"

  predicate Hashable(j: Json) {
    !j.Arr? && !j.Obj?
  }

  /** A kind that cannot be hashed raises in the membership test of a response item. */
  function Read(row: Row): Item {
    var kind := Field(row.payload, "type");
    if row.kind == Str("response_item") then
      if !Hashable(kind) then Unreadable
      else if kind == Str("function_call") || kind == Str("custom_tool_call") then Call(Field(row.payload, "call_id"))
      else if kind == Str("function_call_output") || kind == Str("custom_tool_call_output") then
        Output(Field(row.payload, "call_id"))
      else if kind == Str("message") && Field(row.payload, "role") == Str("assistant") then Said(row.payload)
      else Other
    else if row.kind == Str("event_msg") then
      if kind == Str("task_started") then Started(Field(row.payload, "turn_id"))
      else if kind == Str("task_complete") then Finished(Field(row.payload, "turn_id"))
      else Other
    else Other
  }

  predicate IsTool(item: Item) {
    item.Call? || item.Output?
  }

  predicate IsName(id: Json) {
    id.Str? && id.s != ""
  }

  function Items(rows: seq<Row>): (r: seq<Item>) {
    seq(|rows|, i requires 0 <= i < |rows| => Read(rows[i]))
  }

  /** Every record is readable and every tool record names its exchange. */
  predicate Named(items: seq<Item>) {
    forall item <- items :: !item.Unreadable? && (IsTool(item) ==> IsName(item.id))
  }

  /** The tool records of one exchange in order: true is a call, false an output. */
  function Exchange(items: seq<Item>, id: string): seq<bool> {
    if items == [] then []
    else Exchange(items[..|items| - 1], id) + Turn(items[|items| - 1], id)
  }

  function Turn(item: Item, id: string): seq<bool> {
    if IsTool(item) && item.id == Str(id) then [item.Call?] else []
  }

  /** Call, output, call, output, and so on. */
  predicate Alternates(s: seq<bool>) {
    forall i :: 0 <= i < |s| ==> (s[i] <==> i % 2 == 0)
  }

  ghost predicate Orderly(items: seq<Item>) {
    Named(items) && forall id :: Alternates(Exchange(items, id))
  }

  /** Alternation ending with an output leaves nothing open. */
  ghost predicate Settled(items: seq<Item>) {
    Orderly(items) && forall id :: |Exchange(items, id)| % 2 == 0
  }

  predicate IsStart(item: Item) { item.Started? }

  predicate IsFinish(item: Item) { item.Finished? }

  predicate IsMessage(item: Item) { item.Said? }

  /** Item i is the last of its sort, and not before from. */
  predicate IsLast(items: seq<Item>, p: Item -> bool, from: int, i: int) {
    0 <= from <= i < |items| && p(items[i]) && forall j :: i < j < |items| ==> !p(items[j])
  }

  predicate HasNone(items: seq<Item>, p: Item -> bool, from: int) {
    forall j :: 0 <= from <= j < |items| ==> !p(items[j])
  }

  predicate IsFinalAnswer(message: map<string, Json>, said: Json) {
    && Field(message, "phase") == Str("final_answer")
    && MessageText(message).Some? && MessageText(message).value != "" && said == Str(MessageText(message).value)
  }

  /** The hook event names this thread, this turn and this file. */
  predicate Addresses(stop: map<string, Json>, session: Json, turn: Json, path: string) {
    && Field(stop, "hook_event_name") == Str("Stop")
    && SameValue(Field(stop, "session_id"), session)
    && SameValue(Field(stop, "turn_id"), turn)
    && Field(stop, "transcript_path") == Str(path)
  }

  /** The last turn started, named, and completed under the same name. */
  ghost predicate TurnComplete(items: seq<Item>) {
    exists i, j ::
      && IsLast(items, IsStart, 0, i) && IsLast(items, IsFinish, i, j)
      && Truthy(items[i].turn) && SameValue(items[j].turn, items[i].turn)
  }

  /** The last turn starts at i and is open, and its last message at k is the final answer the hook event quotes. */
  ghost predicate StoppedWith(rows: seq<Row>, stop: map<string, Json>, path: string, i: int, k: int) {
    var items := Items(rows);
    && IsLast(items, IsStart, 0, i) && IsLast(items, IsMessage, i, k)
    && Truthy(items[i].turn)
    && (forall j :: IsLast(items, IsFinish, i, j) ==> items[j].turn == Null)
    && "id" in rows[0].payload
    && Addresses(stop, rows[0].payload["id"], items[i].turn, path)
    && IsFinalAnswer(items[k].payload, Field(stop, "last_assistant_message"))
  }

  ghost predicate StoppedAt(rows: seq<Row>, stop: map<string, Json>, path: string) {
    exists i, k :: StoppedWith(rows, stop, path, i, k)
  }

  ghost predicate Admissible(rows: seq<Row>, stop: Option<map<string, Json>>, path: string) {
    Settled(Items(rows)) && if stop.None? then TurnComplete(Items(rows)) else StoppedAt(rows, stop.value, path)
  }

  lemma {:induction false} ExchangePrefix(items: seq<Item>, n: nat, id: string)
    requires n <= |items|
    ensures Exchange(items[..n], id) <= Exchange(items, id)
    decreases |items| - n
  {
    if n < |items| {
      ExchangePrefix(items, n + 1, id);
      assert items[..n + 1][..n] == items[..n];
    } else {
      assert items[..n] == items;
    }
  }

  /** A prefix that is out of order cannot be repaired by what follows it. */
  lemma OrderlyPrefix(items: seq<Item>, n: nat)
    requires n <= |items| && Orderly(items)
    ensures Orderly(items[..n])
  {
    forall id ensures Alternates(Exchange(items[..n], id)) {
      ExchangePrefix(items, n, id);
      var s, t := Exchange(items[..n], id), Exchange(items, id);
      assert forall i :: 0 <= i < |s| ==> s[i] == t[i];
    }
  }

  /** The turn variables since the start at i: null or nothing where no record has set them. */
  ghost predicate TracksFrom(items: seq<Item>, i: int, scan: Scan) {
    && IsLast(items, IsStart, 0, i) && scan.start == items[i].turn
    && ((HasNone(items, IsFinish, i) && scan.finish == Null)
        || exists j :: IsLast(items, IsFinish, i, j) && scan.finish == items[j].turn)
    && ((HasNone(items, IsMessage, i) && scan.message == None)
        || exists k :: IsLast(items, IsMessage, i, k) && scan.message == Some(items[k].payload))
  }

  /** What the scan's turn variables hold after these records. */
  ghost predicate Tracks(items: seq<Item>, scan: Scan) {
    (HasNone(items, IsStart, 0) && scan.start == Null) || exists i :: TracksFrom(items, i, scan)
  }

  /** The exchanges left open are those with an odd number of records. */
  ghost predicate Pends(items: seq<Item>, pending: set<string>) {
    forall id :: id in pending <==> |Exchange(items, id)| % 2 == 1
  }

  /** The scan's state after one more record that does not raise. */
  function After(scan: Scan, item: Item): Scan {
    match item
    case Call(Str(id)) => scan.(pending := scan.pending + {id})
    case Output(Str(id)) => scan.(pending := scan.pending - {id})
    case Said(payload) => scan.(message := Some(payload))
    case Started(turn) => scan.(start := turn, finish := Null, message := None)
    case Finished(turn) => scan.(finish := turn)
    case _ => scan
  }

  lemma LastStep(items: seq<Item>, item: Item, p: Item -> bool, from: nat)
    requires from <= |items|
    ensures p(item) ==> IsLast(items + [item], p, from, |items|)
    ensures !p(item) ==> forall j :: IsLast(items, p, from, j) ==> IsLast(items + [item], p, from, j)
    ensures !p(item) && HasNone(items, p, from) ==> HasNone(items + [item], p, from)
  {
    assert forall j :: 0 <= j < |items| ==> (items + [item])[j] == items[j];
  }

  lemma TracksStep(items: seq<Item>, item: Item, scan: Scan)
    requires Tracks(items, scan)
    ensures Tracks(items + [item], After(scan, item))
  {
    var all, n, next := items + [item], |items|, After(scan, item);
    LastStep(items, item, IsStart, 0);
    assert all[n] == item;
    if item.Started? {
      assert TracksFrom(all, n, next);
    } else if i :| TracksFrom(items, i, scan) {
      LastStep(items, item, IsFinish, i);
      LastStep(items, item, IsMessage, i);
      assert forall j :: 0 <= j < n ==> all[j] == items[j];
      assert TracksFrom(all, i, next);
    }
  }

  /** Which records let the scan go on. */
  predicate Accepts(pending: set<string>, item: Item) {
    match item
    case Unreadable => false
    case Call(id) => IsName(id) && id.s !in pending
    case Output(id) => IsName(id) && id.s in pending
    case _ => true
  }

  lemma ExchangeStep(items: seq<Item>, item: Item)
    ensures forall id :: Exchange(items + [item], id) == Exchange(items, id) + Turn(item, id)
    ensures Named(items + [item]) <==> Named(items) && Named([item])
  {
    assert (items + [item])[..|items|] == items;
  }

  lemma AlternatesStep(s: seq<bool>, call: bool)
    requires Alternates(s)
    ensures Alternates(s + [call]) <==> (call <==> |s| % 2 == 0)
  {
    var t := s + [call];
    assert t[|s|] == call;
    assert forall i :: 0 <= i < |s| ==> t[i] == s[i];
  }

  /** Which records keep an orderly log in order: a call needs an even exchange, an output an odd one. */
  predicate Fits(items: seq<Item>, item: Item) {
    match item
    case Unreadable => false
    case Call(id) => IsName(id) && |Exchange(items, id.s)| % 2 == 0
    case Output(id) => IsName(id) && |Exchange(items, id.s)| % 2 == 1
    case _ => true
  }

  lemma ParityStep(items: seq<Item>, item: Item)
    requires Orderly(items)
    ensures Orderly(items + [item]) <==> Fits(items, item)
  {
    ExchangeStep(items, item);
    if IsTool(item) && IsName(item.id) {
      AlternatesStep(Exchange(items, item.id.s), item.Call?);
      assert Turn(item, item.id.s) == [item.Call?];
      assert Exchange(items + [item], item.id.s) == Exchange(items, item.id.s) + [item.Call?];
    }
    if Fits(items, item) {
      forall id ensures Alternates(Exchange(items + [item], id)) {
        if Turn(item, id) == [] {
          assert Exchange(items, id) + [] == Exchange(items, id);
        }
      }
    }
  }

  /** The scan goes on exactly when the records so far stay in order. */
  lemma OrderStep(items: seq<Item>, item: Item, pending: set<string>)
    requires Orderly(items) && Pends(items, pending)
    ensures Orderly(items + [item]) <==> Accepts(pending, item)
  {
    ParityStep(items, item);
  }

  lemma PendingAfter(scan: Scan, item: Item, id: string)
    requires Accepts(scan.pending, item)
    ensures Turn(item, id) == [] ==> (id in After(scan, item).pending <==> id in scan.pending)
    ensures Turn(item, id) != [] ==> (id in After(scan, item).pending <==> id !in scan.pending)
    ensures |Turn(item, id)| <= 1
  {}

  lemma PendsStep(items: seq<Item>, item: Item, scan: Scan)
    requires Pends(items, scan.pending) && Accepts(scan.pending, item)
    ensures Pends(items + [item], After(scan, item).pending)
  {
    var all, next := items + [item], After(scan, item).pending;
    ExchangeStep(items, item);
    forall id ensures id in next <==> |Exchange(all, id)| % 2 == 1 {
      PendingAfter(scan, item, id);
      assert Exchange(all, id) == Exchange(items, id) + Turn(item, id);
    }
  }

  /** Every prefix invariant of the scan at once. */
  ghost predicate ScannedTo(items: seq<Item>, scan: Scan) {
    Orderly(items) && Pends(items, scan.pending) && Tracks(items, scan)
  }

  lemma ScanStep(items: seq<Item>, n: nat, scan: Scan)
    requires n < |items| && ScannedTo(items[..n], scan)
    ensures !Accepts(scan.pending, items[n]) ==> !Orderly(items)
    ensures Accepts(scan.pending, items[n]) ==> ScannedTo(items[..n + 1], After(scan, items[n]))
  {
    var item := items[n];
    assert items[..n + 1] == items[..n] + [item];
    OrderStep(items[..n], item, scan.pending);
    if Accepts(scan.pending, item) {
      PendsStep(items[..n], item, scan);
      TracksStep(items[..n], item, scan);
    } else if Orderly(items) {
      OrderlyPrefix(items, n + 1);
    }
  }

  /** One turn of the loop of _check_boundary. */
  method Absorb(scan: Scan, row: Row) returns (r: Scanned)
    ensures r.Clean? <==> Accepts(scan.pending, Read(row))
    ensures r.Clean? ==> r.scan == After(scan, Read(row))
    ensures r != Raised(UNFINISHED)
    ensures r == Raised(DUPLICATE) <==> Read(row).Call? && IsName(Read(row).id) && !r.Clean?
    ensures r == Raised(UNMATCHED) <==> Read(row).Output? && IsName(Read(row).id) && !r.Clean?
  {
    var next := scan;
    match Read(row) {
      case Unreadable => return Raised(UNHASHABLE);
      case Call(id) =>
        if !IsName(id) { return Raised(NO_IDENTITY); }
        if id.s in scan.pending { return Raised(DUPLICATE); }
        next := next.(pending := scan.pending + {id.s});
      case Output(id) =>
        if !IsName(id) { return Raised(NO_IDENTITY); }
        if id.s !in scan.pending { return Raised(UNMATCHED); }
        next := next.(pending := scan.pending - {id.s});
      case Said(payload) => next := next.(message := Some(payload));
      case Started(turn) => next := next.(start := turn, finish := Null, message := None);
      case Finished(turn) => next := next.(finish := turn);
      case Other =>
    }
    r := Clean(next);
  }

  /**
   * The loop of _check_boundary: it runs to the end exactly when every exchange alternates, and then
   * pending holds the exchanges that end with a call.
   */
  method ScanRows(rows: seq<Row>) returns (r: Scanned)
    ensures r.Clean? <==> Orderly(Items(rows))
    ensures r.Clean? ==> Pends(Items(rows), r.scan.pending) && Tracks(Items(rows), r.scan)
    ensures r != Raised(UNFINISHED)
  {
    var scan := Scan({}, Null, Null, None);
    var i := 0;
    ghost var items := Items(rows);
    while i < |rows|
      invariant 0 <= i <= |rows| == |items|
      invariant ScannedTo(items[..i], scan)
    {
      var next := Absorb(scan, rows[i]);
      ScanStep(items, i, scan);
      if next.Raised? { return next; }
      scan := next.scan;
      i := i + 1;
    }
    assert items[..i] == items;
    r := Clean(scan);
  }

  lemma LastIsUnique(items: seq<Item>, p: Item -> bool, from: int, i: int, j: int)
    requires IsLast(items, p, from, i) && IsLast(items, p, from, j)
    ensures i == j
  {}

  lemma TracksTheLastStart(items: seq<Item>, i: int, scan: Scan)
    requires Tracks(items, scan) && IsLast(items, IsStart, 0, i)
    ensures TracksFrom(items, i, scan)
  {
    var k :| TracksFrom(items, k, scan);
    LastIsUnique(items, IsStart, 0, i, k);
  }

  lemma CompleteIff(items: seq<Item>, scan: Scan)
    requires Tracks(items, scan)
    ensures TurnComplete(items) <==> Truthy(scan.start) && SameValue(scan.finish, scan.start)
  {
    if TurnComplete(items) {
      var i, j :|
        && IsLast(items, IsStart, 0, i) && IsLast(items, IsFinish, i, j)
        && Truthy(items[i].turn) && SameValue(items[j].turn, items[i].turn);
      TracksTheLastStart(items, i, scan);
      var k :| IsLast(items, IsFinish, i, k) && scan.finish == items[k].turn;
      LastIsUnique(items, IsFinish, i, j, k);
    }
    if Truthy(scan.start) && SameValue(scan.finish, scan.start) {
      var i :| TracksFrom(items, i, scan);
      var j :| IsLast(items, IsFinish, i, j) && scan.finish == items[j].turn;
    }
  }

  lemma StoppedIff(rows: seq<Row>, stop: map<string, Json>, path: string, scan: Scan)
    requires Tracks(Items(rows), scan)
    ensures StoppedAt(rows, stop, path) <==>
      && Truthy(scan.start) && scan.finish == Null && scan.message.Some?
      && "id" in rows[0].payload && Addresses(stop, rows[0].payload["id"], scan.start, path)
      && IsFinalAnswer(scan.message.value, Field(stop, "last_assistant_message"))
  {
    var items := Items(rows);
    if StoppedAt(rows, stop, path) {
      var i, k :| StoppedWith(rows, stop, path, i, k);
      TracksTheLastStart(items, i, scan);
      FinishIsNull(items, i, scan);
      var m :| IsLast(items, IsMessage, i, m) && scan.message == Some(items[m].payload);
      LastIsUnique(items, IsMessage, i, k, m);
    }
    if Truthy(scan.start) && scan.finish == Null && scan.message.Some? {
      var i :| TracksFrom(items, i, scan);
      FinishIsNull(items, i, scan);
      var k :| IsLast(items, IsMessage, i, k) && scan.message == Some(items[k].payload);
      if "id" in rows[0].payload && Addresses(stop, rows[0].payload["id"], scan.start, path)
        && IsFinalAnswer(scan.message.value, Field(stop, "last_assistant_message"))
      {
        assert StoppedWith(rows, stop, path, i, k);
      }
    }
  }

  lemma FinishIsNull(items: seq<Item>, i: int, scan: Scan)
    requires TracksFrom(items, i, scan)
    ensures scan.finish == Null <==> forall j :: IsLast(items, IsFinish, i, j) ==> items[j].turn == Null
  {
  }

  // ----- The items of a log, on the fields of its records -----

  lemma ReadsTools(row: Row)
    ensures Read(row).Unreadable? <==> !IsReadable(row)
    ensures Read(row).Call? <==> IsCall(row)
    ensures Read(row).Output? <==> IsOutput(row)
    ensures IsTool(Read(row)) ==> Read(row).id == CallId(row)
  {}

  lemma ReadsTurns(row: Row)
    ensures Read(row).Started? <==> IsEvent(row, "task_started")
    ensures Read(row).Finished? <==> IsEvent(row, "task_complete")
    ensures Read(row).Started? || Read(row).Finished? ==> Read(row).turn == TurnId(row)
    ensures Read(row).Said? <==> IsAnswer(row)
    ensures Read(row).Said? ==> Read(row).payload == row.payload
  {}

  lemma OpenIff(rows: seq<Row>, n: nat, id: Json)
    requires n <= |rows|
    ensures Unfinished(Items(rows)[..n], id) <==> IsOpen(rows, n, id)
  {
    var items := Items(rows)[..n];
    forall i | 0 <= i < n
      ensures items[i] == Call(id) <==> IsCall(rows[i]) && CallId(rows[i]) == id
      ensures items[i] == Output(id) <==> IsOutput(rows[i]) && CallId(rows[i]) == id
    {
      ReadsTools(rows[i]);
    }
    if i :| 0 <= i < n && IsCall(rows[i]) && CallId(rows[i]) == id
            && forall j :: i < j < n && IsOutput(rows[j]) ==> CallId(rows[j]) != id
    {
      assert items[i] == Call(id);
    }
  }

  lemma ContinuesIff(rows: seq<Row>, n: nat)
    requires n < |rows| && Orderly(Items(rows)[..n])
    ensures Orderly(Items(rows)[..n + 1]) <==> Continues(rows, n)
  {
    var front, item := Items(rows)[..n], Read(rows[n]);
    assert Items(rows)[..n + 1] == front + [item];
    ParityStep(front, item);
    ReadsTools(rows[n]);
    OpenIff(rows, n, CallId(rows[n]));
    ScansAgree(front, CallId(rows[n]));
  }

  lemma {:induction false} OrderIff(rows: seq<Row>, n: nat)
    requires n <= |rows|
    ensures Orderly(Items(rows)[..n]) <==> forall m :: 0 <= m < n ==> Continues(rows, m)
  {
    if n > 0 {
      OrderIff(rows, n - 1);
      if Orderly(Items(rows)[..n - 1]) {
        ContinuesIff(rows, n - 1);
      } else {
        assert Items(rows)[..n][..n - 1] == Items(rows)[..n - 1];
        if Orderly(Items(rows)[..n]) {
          OrderlyPrefix(Items(rows)[..n], n - 1);
        }
      }
    }
  }

  lemma FinishedIff(rows: seq<Row>)
    ensures Orderly(Items(rows)) <==> InOrder(rows)
    ensures Settled(Items(rows)) <==> IsFinished(rows)
  {
    var items := Items(rows);
    assert items[..|rows|] == items;
    OrderIff(rows, |rows|);
    if Orderly(items) {
      forall id: Json ensures Unfinished(items, id) <==> id.Str? && |Exchange(items, id.s)| % 2 == 1 {
        ScansAgree(items, id);
      }
      forall id: Json ensures Unfinished(items, id) <==> IsOpen(rows, |rows|, id) {
        OpenIff(rows, |rows|, id);
      }
      if IsFinished(rows) {
        forall id ensures |Exchange(items, id)| % 2 == 0 {
          assert !IsOpen(rows, |rows|, Str(id));
        }
      }
    }
  }

  lemma LastStartIff(rows: seq<Row>, i: int)
    ensures IsLast(Items(rows), IsStart, 0, i) && Truthy(Items(rows)[i].turn) <==> StartsLastTurn(rows, i)
  {
    forall j | 0 <= j < |rows|
      ensures IsStart(Items(rows)[j]) <==> IsEvent(rows[j], "task_started")
      ensures IsStart(Items(rows)[j]) ==> Items(rows)[j].turn == TurnId(rows[j])
    {
      ReadsTurns(rows[j]);
    }
  }

  lemma CompletesIff(rows: seq<Row>)
    ensures TurnComplete(Items(rows)) <==> EndsComplete(rows)
  {
    var items := Items(rows);
    forall i ensures IsLast(items, IsStart, 0, i) && Truthy(items[i].turn) <==> StartsLastTurn(rows, i) {
      LastStartIff(rows, i);
    }
    forall j | 0 <= j < |rows|
      ensures IsFinish(items[j]) <==> IsEvent(rows[j], "task_complete")
      ensures IsFinish(items[j]) || IsStart(items[j]) ==> items[j].turn == TurnId(rows[j])
    {
      ReadsTurns(rows[j]);
    }
    if TurnComplete(items) {
      var i, j :|
        && IsLast(items, IsStart, 0, i) && IsLast(items, IsFinish, i, j)
        && Truthy(items[i].turn) && SameValue(items[j].turn, items[i].turn);
      assert StartsLastTurn(rows, i);
      assert IsStart(items[i]) && IsFinish(items[j]) && i < j;
    }
    if EndsComplete(rows) {
      var i, j :|
        && StartsLastTurn(rows, i) && i < j < |rows| && IsEvent(rows[j], "task_complete")
        && (forall k :: j < k < |rows| ==> !IsEvent(rows[k], "task_complete"))
        && SameValue(TurnId(rows[j]), TurnId(rows[i]));
      assert IsLast(items, IsFinish, i, j);
      assert IsLast(items, IsStart, 0, i);
    }
  }

  /** Whether the last completion after the start at i names no turn, said once of items and once of records. */
  lemma NoNamedFinishIff(rows: seq<Row>, i: int)
    requires 0 <= i < |rows| && IsStart(Items(rows)[i])
    ensures (forall j :: IsLast(Items(rows), IsFinish, i, j) ==> Items(rows)[j].turn == Null) <==>
      forall j :: i < j < |rows| && IsEvent(rows[j], "task_complete") && TurnId(rows[j]) != Null ==>
        exists m :: j < m < |rows| && IsEvent(rows[m], "task_complete")
  {
    var items := Items(rows);
    forall j | 0 <= j < |rows|
      ensures IsFinish(items[j]) <==> IsEvent(rows[j], "task_complete")
      ensures IsFinish(items[j]) ==> items[j].turn == TurnId(rows[j])
    {
      ReadsTurns(rows[j]);
    }
    forall j | IsLast(items, IsFinish, i, j) && items[j].turn != Null
      ensures i < j && IsEvent(rows[j], "task_complete") && TurnId(rows[j]) != Null
      ensures !exists m :: j < m < |rows| && IsEvent(rows[m], "task_complete")
    {
      assert IsFinish(items[j]);
      forall m | j < m < |rows| ensures !IsEvent(rows[m], "task_complete") {
        assert !IsFinish(items[m]);
      }
    }
    forall j | i < j < |rows| && IsEvent(rows[j], "task_complete") && TurnId(rows[j]) != Null
               && !exists m :: j < m < |rows| && IsEvent(rows[m], "task_complete")
      ensures IsLast(items, IsFinish, i, j) && items[j].turn != Null
    {
      assert IsFinish(items[j]);
    }
  }

  lemma LastAnswerIff(rows: seq<Row>, i: int, k: int)
    requires 0 <= i < |rows| && IsStart(Items(rows)[i])
    ensures IsLast(Items(rows), IsMessage, i, k) <==>
      i < k < |rows| && IsAnswer(rows[k]) && forall m :: k < m < |rows| ==> !IsAnswer(rows[m])
    ensures i < k < |rows| && IsAnswer(rows[k]) ==> Items(rows)[k] == Said(rows[k].payload)
  {
    var items := Items(rows);
    forall j | 0 <= j < |rows| ensures IsMessage(items[j]) <==> IsAnswer(rows[j]) {
      ReadsTurns(rows[j]);
    }
    if i < k < |rows| {
      ReadsTurns(rows[k]);
    }
  }

  lemma StopsWithIff(rows: seq<Row>, stop: map<string, Json>, path: string, i: int, k: int)
    ensures StoppedWith(rows, stop, path, i, k) <==> StopsAt(rows, stop, path, i, k)
  {
    LastStartIff(rows, i);
    if 0 <= i < |rows| && IsStart(Items(rows)[i]) {
      LastAnswerIff(rows, i, k);
      NoNamedFinishIff(rows, i);
      ReadsTurns(rows[i]);
    }
  }

  lemma StopsIff(rows: seq<Row>, stop: map<string, Json>, path: string)
    ensures StoppedAt(rows, stop, path) <==> EndsStopped(rows, stop, path)
  {
    forall i, k ensures StoppedWith(rows, stop, path, i, k) <==> StopsAt(rows, stop, path, i, k) {
      StopsWithIff(rows, stop, path, i, k);
    }
  }

  /** What the scan admits is what a sound log is on the fields of its records. */
  lemma AdmissibleIff(rows: seq<Row>, stop: Option<map<string, Json>>, path: string)
    ensures Admissible(rows, stop, path) <==> IsSoundLog(rows, stop, path)
  {
    FinishedIff(rows);
    CompletesIff(rows);
    if stop.Some? {
      StopsIff(rows, stop.value, path);
    }
  }

  /** _check_boundary: a prefix is admitted exactly when it is settled and its last turn ended as required. */
  method CheckBoundary(rows: seq<Row>, stop: Option<map<string, Json>>, path: string) returns (r: Verdict)
    ensures r.Admitted? <==> Admissible(rows, stop, path)
    ensures r.Admitted? <==> IsSoundLog(rows, stop, path)
    ensures r == Refused(UNFINISHED) <==> InOrder(rows) && !IsFinished(rows)
  {
    AdmissibleIff(rows, stop, path);
    FinishedIff(rows);
    var scanned := ScanRows(rows);
    if scanned.Raised? { return Refused(scanned.why); }
    var scan := scanned.scan;
    CompleteIff(Items(rows), scan);
    if scan.pending != {} { return Refused(UNFINISHED); }
    if !Truthy(scan.start) { return Refused(NO_TURN); }
    if stop.None? {
      return if SameValue(scan.finish, scan.start) then Admitted else Refused(INCOMPLETE);
    }
    StoppedIff(rows, stop.value, path, scan);
    var message := scan.message;
    if "id" !in rows[0].payload
      || !Addresses(stop.value, rows[0].payload["id"], scan.start, path)
      || scan.finish != Null || message.None?
      || !IsFinalAnswer(message.value, Field(stop.value, "last_assistant_message"))
    {
      return Refused(NO_MATCH);
    }
    r := Admitted;
  }

  /** A turn with one finished tool exchange, of either sort, is admitted. */
  lemma FinishedExchangeIsAdmitted(rows: seq<Row>, path: string)
    requires |rows| == 4 && IsEvent(rows[0], "task_started") && IsEvent(rows[3], "task_complete")
    requires Truthy(TurnId(rows[0])) && TurnId(rows[3]) == TurnId(rows[0])
    requires IsCall(rows[1]) && IsOutput(rows[2]) && IsName(CallId(rows[1])) && CallId(rows[2]) == CallId(rows[1])
    ensures Admissible(rows, None, path)
  {
    FinishedExchange(rows);
    SameAsItself(TurnId(rows[0]));
    assert StartsLastTurn(rows, 0);
    AdmissibleIff(rows, None, path);
  }

  /** The last record of this exchange is a call. */
  ghost predicate Unfinished(items: seq<Item>, call: Json) {
    exists i :: 0 <= i < |items| && items[i] == Call(call) && forall j :: i < j < |items| ==> items[j] != Output(call)
  }

  lemma UnfinishedStep(items: seq<Item>, item: Item, call: Json)
    ensures Unfinished(items + [item], call) <==> item == Call(call) || (Unfinished(items, call) && item != Output(call))
  {
    var all, n := items + [item], |items|;
    assert all[n] == item;
    assert forall j :: 0 <= j < n ==> all[j] == items[j];
    if Unfinished(items, call) && item != Output(call) {
      var i :| 0 <= i < n && items[i] == Call(call) && forall j :: i < j < n ==> items[j] != Output(call);
      assert all[i] == Call(call);
    }
  }

  predicate Collectable(item: Item) {
    !item.Unreadable? && (IsTool(item) ==> Hashable(item.id))
  }

  /** pending_calls: the exchanges whose last record is a call; None where it raises. */
  method PendingCalls(rows: seq<Row>) returns (r: Option<set<Json>>)
    ensures r.Some? <==> forall row <- rows :: && IsReadable(row)
                                              && (IsCall(row) || IsOutput(row) ==> Hashable(CallId(row)))
    ensures r.Some? ==> forall id :: id in r.value <==> IsOpen(rows, |rows|, id)
  {
    var pending: set<Json> := {};
    ghost var items := Items(rows);
    for i := 0 to |rows|
      invariant forall item <- items[..i] :: Collectable(item)
      invariant forall call :: call in pending <==> Unfinished(items[..i], call)
    {
      var item := Read(rows[i]);
      ReadsTools(rows[i]);
      assert rows[i] in rows;
      assert items[i] == item && item in items && items[..i + 1] == items[..i] + [item];
      forall call {
        UnfinishedStep(items[..i], item, call);
      }
      match item {
        case Unreadable => return None;
        case Call(call) =>
          if !Hashable(call) { return None; }
          pending := pending + {call};
        case Output(call) =>
          if !Hashable(call) { return None; }
          pending := pending - {call};
        case _ =>
      }
    }
    assert items[..|rows|] == items;
    forall id ensures Unfinished(items, id) <==> IsOpen(rows, |rows|, id) {
      OpenIff(rows, |rows|, id);
    }
    forall row | row in rows ensures IsReadable(row) && (IsCall(row) || IsOutput(row) ==> Hashable(CallId(row))) {
      var i :| 0 <= i < |rows| && rows[i] == row;
      ReadsTools(row);
      assert items[i] in items;
    }
    r := Some(pending);
  }

  /** Where the strict scan does not raise, neither does the lenient one, and both leave the same calls open. */
  lemma {:induction false} ScansAgree(items: seq<Item>, call: Json)
    requires Orderly(items)
    ensures forall item <- items :: Collectable(item)
    ensures Unfinished(items, call) <==> call.Str? && |Exchange(items, call.s)| % 2 == 1
  {
    if items != [] {
      var n := |items| - 1;
      var front, item := items[..n], items[n];
      assert items == front + [item];
      OrderlyPrefix(items, n);
      ScansAgree(front, call);
      UnfinishedStep(front, item, call);
      if IsTool(item) && item.id == call {
        var s := Exchange(items, call.s);
        assert s == Exchange(front, call.s) + [item.Call?];
        assert s[|s| - 1] == item.Call?;
      }
    }
  }

  lemma {:induction false} NoExchange(items: seq<Item>, id: string)
    requires forall item <- items :: !IsTool(item)
    ensures Exchange(items, id) == []
  {
    if items != [] {
      NoExchange(items[..|items| - 1], id);
    }
  }

  function Event(name: string, turn: Json): (r: Row) {
    Row(Str("event_msg"), map["type" := Str(name), "turn_id" := turn])
  }

  function FinalAnswer(said: string): map<string, Json> {
    map["type" := Str("message"), "role" := Str("assistant"), "phase" := Str("final_answer"),
        "content" := Arr([Obj(map["type" := Str("output_text"), "text" := Str(said)])])]
  }

  lemma FinalAnswerQuotes(said: string)
    requires said != ""
    ensures IsFinalAnswer(FinalAnswer(said), Str(said))
    ensures Read(Row(Str("response_item"), FinalAnswer(said))) == Said(FinalAnswer(said))
  {
    var part := map["type" := Str("output_text"), "text" := Str(said)];
    assert [Obj(part)][1..] == [] && said + "" == said;
    assert Joined([Obj(part)]) == Some(said);
  }

  lemma EventReads(turn: Json)
    ensures Read(Event("task_started", turn)) == Started(turn)
    ensures Read(Event("task_complete", turn)) == Finished(turn)
  {}

  function StopEvent(session: string, turn: string, path: string, said: string): map<string, Json> {
    map["hook_event_name" := Str("Stop"), "session_id" := Str(session), "turn_id" := Str(turn),
        "transcript_path" := Str(path), "last_assistant_message" := Str(said)]
  }

  function CompletedTurn(turn: string, said: string): (rows: seq<Row>) {
    [Row(Str("session_meta"), map["id" := Str("thread")]), Event("task_started", Str(turn)),
     Row(Str("response_item"), FinalAnswer(said)),
     Event("task_complete", Str(turn)), Event("task_complete", Null)]
  }

  lemma CompletedTurnReads(turn: string, said: string)
    requires said != ""
    ensures Items(CompletedTurn(turn, said))
      == [Other, Started(Str(turn)), Said(FinalAnswer(said)), Finished(Str(turn)), Finished(Null)]
  {
    FinalAnswerQuotes(said);
    EventReads(Str(turn));
    EventReads(Null);
  }

  lemma OpenLook(items: seq<Item>, turn: Json, message: map<string, Json>)
    requires items == [Other, Started(turn), Said(message), Finished(turn), Finished(Null)]
    ensures Settled(items)
    ensures IsLast(items, IsStart, 0, 1) && IsLast(items, IsMessage, 1, 2) && IsLast(items, IsFinish, 1, 4)
  {
    forall id ensures Exchange(items, id) == [] {
      NoExchange(items, id);
    }
  }

  lemma StopEventAddresses(turn: string, path: string, said: string)
    ensures Addresses(StopEvent("thread", turn, path, said), Str("thread"), Str(turn), path)
    ensures Field(StopEvent("thread", turn, path, said), "last_assistant_message") == Str(said)
  {}

  lemma StopsWith(rows: seq<Row>, stop: map<string, Json>, path: string, turn: string, message: map<string, Json>)
    requires Items(rows) == [Other, Started(Str(turn)), Said(message), Finished(Str(turn)), Finished(Null)] && turn != ""
    requires "id" in rows[0].payload && Addresses(stop, rows[0].payload["id"], Str(turn), path)
    requires IsFinalAnswer(message, Field(stop, "last_assistant_message"))
    ensures StoppedAt(rows, stop, path)
  {
    var items := Items(rows);
    OpenLook(items, Str(turn), message);
    forall j | IsLast(items, IsFinish, 1, j) ensures items[j].turn == Null {
      LastIsUnique(items, IsFinish, 1, j, 4);
    }
    assert StoppedWith(rows, stop, path, 1, 2);
  }

  /**
   * A completion without a turn id hides an earlier one: the boundary is taken for an open turn although the
   * turn has completed under its own id.
   */
  lemma StopAdmitsACompletedTurn(turn: string, said: string, path: string)
    returns (rows: seq<Row>, stop: map<string, Json>)
    requires turn != "" && said != ""
    ensures Admissible(rows, Some(stop), path)
    ensures var items := Items(rows);
      exists i, j :: IsLast(items, IsStart, 0, i) && i < j < |rows| && items[j] == Finished(items[i].turn)
  {
    rows, stop := CompletedTurn(turn, said), StopEvent("thread", turn, path, said);
    var items := Items(rows);
    CompletedTurnReads(turn, said);
    FinalAnswerQuotes(said);
    OpenLook(items, Str(turn), FinalAnswer(said));
    StopEventAddresses(turn, path, said);
    StopsWith(rows, stop, path, turn, FinalAnswer(said));
    assert items[3] == Finished(items[1].turn);
  }

  lemma {:induction false} LastExists(items: seq<Item>, p: Item -> bool, from: nat) returns (j: int)
    requires from <= |items| && !HasNone(items, p, from)
    ensures IsLast(items, p, from, j)
  {
    j := |items| - 1;
    while !p(items[j])
      invariant from <= j < |items| && forall k :: j < k < |items| ==> !p(items[k])
      decreases j
    {
      assert exists k :: from <= k < j && p(items[k]);
      j := j - 1;
    }
  }

  /**
   * What a Stop admission says of the last turn: it is open, with no completion at all after its start, exactly
   * when no completion without a turn id follows the start.
   */
  lemma StopMeansOpenIff(rows: seq<Row>, stop: map<string, Json>, path: string, i: nat)
    requires Admissible(rows, Some(stop), path) && IsLast(Items(rows), IsStart, 0, i)
    ensures HasNone(Items(rows), IsFinish, i) <==> Finished(Null) !in Items(rows)[i..]
  {
    var items := Items(rows);
    assert StoppedAt(rows, stop, path);
    var m :| IsLast(items, IsStart, 0, m) && forall j :: IsLast(items, IsFinish, m, j) ==> items[j].turn == Null;
    LastIsUnique(items, IsStart, 0, i, m);
    if !HasNone(items, IsFinish, i) {
      var j := LastExists(items, IsFinish, i);
      assert items[i..][j - i] == Finished(Null);
    }
  }
}
