/** The records of a native log, and what a sound end of one is, on the fields of the records alone. */
module Records {
  import opened Values

  /** One parsed record: its type and its payload. */
  datatype Row = Row(kind: Json, payload: map<string, Json>)

  predicate IsCall(row: Row) {
    && row.kind == Str("response_item")
    && (Field(row.payload, "type") == Str("function_call") || Field(row.payload, "type") == Str("custom_tool_call"))
  }

  predicate IsOutput(row: Row) {
    && row.kind == Str("response_item")
    && (Field(row.payload, "type") == Str("function_call_output") || Field(row.payload, "type") == Str("custom_tool_call_output"))
  }

  function CallId(row: Row): Json {
    Field(row.payload, "call_id")
  }

  predicate IsAnswer(row: Row) {
    && row.kind == Str("response_item")
    && Field(row.payload, "type") == Str("message") && Field(row.payload, "role") == Str("assistant")
  }

  predicate IsEvent(row: Row, name: string) {
    row.kind == Str("event_msg") && Field(row.payload, "type") == Str(name)
  }

  function TurnId(row: Row): Json {
    Field(row.payload, "turn_id")
  }

  /** A kind that cannot be hashed raises in the membership test of a response item. */
  predicate IsReadable(row: Row) {
    row.kind == Str("response_item") ==> !Field(row.payload, "type").Arr? && !Field(row.payload, "type").Obj?
  }

  /** Among the first n records, some call under this id has no later output. */
  ghost predicate IsOpen(rows: seq<Row>, n: nat, id: Json)
    requires n <= |rows|
  {
    exists i :: 0 <= i < n && IsCall(rows[i]) && CallId(rows[i]) == id
                && forall j :: i < j < n && IsOutput(rows[j]) ==> CallId(rows[j]) != id
  }

  /** Record n continues the records before it: a call opens a closed exchange, an output closes an open one. */
  ghost predicate Continues(rows: seq<Row>, n: nat)
    requires n < |rows|
  {
    var row, id := rows[n], CallId(rows[n]);
    && IsReadable(row)
    && (IsCall(row) ==> id.Str? && id.s != "" && !IsOpen(rows, n, id))
    && (IsOutput(row) ==> id.Str? && id.s != "" && IsOpen(rows, n, id))
  }

  ghost predicate InOrder(rows: seq<Row>) {
    forall n :: 0 <= n < |rows| ==> Continues(rows, n)
  }

  ghost predicate IsFinished(rows: seq<Row>) {
    InOrder(rows) && forall id :: !IsOpen(rows, |rows|, id)
  }

  /** Record i starts the last turn. */
  predicate StartsLastTurn(rows: seq<Row>, i: int) {
    && 0 <= i < |rows| && IsEvent(rows[i], "task_started") && Truthy(TurnId(rows[i]))
    && forall j :: i < j < |rows| ==> !IsEvent(rows[j], "task_started")
  }

  /** The last turn is named, and its last completion names it again. */
  ghost predicate EndsComplete(rows: seq<Row>) {
    exists i, j ::
      && StartsLastTurn(rows, i) && i < j < |rows| && IsEvent(rows[j], "task_complete")
      && (forall k :: j < k < |rows| ==> !IsEvent(rows[k], "task_complete"))
      && SameValue(TurnId(rows[j]), TurnId(rows[i]))
  }

  /** The text of a message's output_text items, joined; None where the join raises. */
  function Text(content: Json): Option<string> {
    match content
    case Arr(items) => Joined(items)
    case Str(s) => if s == "" then Some("") else None
    case Obj(fields) => if fields == map[] then Some("") else None
    case _ => None
  }

  function Joined(items: seq<Json>): Option<string> {
    if items == [] then Some("")
    else if !items[0].Obj? then None
    else if Field(items[0].fields, "type") != Str("output_text") then Joined(items[1..])
    else
      var text := if "text" in items[0].fields then items[0].fields["text"] else Str("");
      if text.Str? && Joined(items[1..]).Some? then Some(text.s + Joined(items[1..]).value) else None
  }

  /** A missing content reads as an empty list. */
  function MessageText(message: map<string, Json>): Option<string> {
    Text(if "content" in message then message["content"] else Arr([]))
  }

  /** Only items of type output_text add to the text, each what its text says, in their order. */
  lemma {:induction false} JoinedAppends(front: seq<Json>, fields: map<string, Json>)
    requires Joined(front).Some?
    ensures Field(fields, "type") != Str("output_text") ==> Joined(front + [Obj(fields)]) == Joined(front)
    ensures Field(fields, "type") == Str("output_text") && "text" in fields && fields["text"].Str? ==>
      Joined(front + [Obj(fields)]) == Some(Joined(front).value + fields["text"].s)
  {
    var all := front + [Obj(fields)];
    if front == [] {
      assert all[0] == Obj(fields) && all[1..] == [];
      assert Joined(all[1..]) == Some("");
      if "text" in fields && fields["text"].Str? {
        assert fields["text"].s + "" == "" + fields["text"].s;
      }
    } else {
      JoinedAppends(front[1..], fields);
      assert all[0] == front[0] && all[1..] == front[1..] + [Obj(fields)];
      if Field(front[0].fields, "type") == Str("output_text") && "text" in fields && fields["text"].Str? {
        var text := if "text" in front[0].fields then front[0].fields["text"] else Str("");
        assert text.s + (Joined(front[1..]).value + fields["text"].s) == (text.s + Joined(front[1..]).value) + fields["text"].s;
      }
    }
  }

  /** The last turn starts at i and is open, and the hook event names this thread, turn and file and quotes record k. */
  ghost predicate StopsAt(rows: seq<Row>, stop: map<string, Json>, path: string, i: int, k: int) {
    && StartsLastTurn(rows, i) && i < k < |rows| && IsAnswer(rows[k])
    && (forall m :: k < m < |rows| ==> !IsAnswer(rows[m]))
    && (forall j :: i < j < |rows| && IsEvent(rows[j], "task_complete") && TurnId(rows[j]) != Null ==>
          exists m :: j < m < |rows| && IsEvent(rows[m], "task_complete"))
    && "id" in rows[0].payload
    && Field(stop, "hook_event_name") == Str("Stop") && Field(stop, "transcript_path") == Str(path)
    && SameValue(Field(stop, "session_id"), rows[0].payload["id"])
    && SameValue(Field(stop, "turn_id"), TurnId(rows[i]))
    && Field(rows[k].payload, "phase") == Str("final_answer")
    && MessageText(rows[k].payload).Some? && MessageText(rows[k].payload).value != ""
    && Field(stop, "last_assistant_message") == Str(MessageText(rows[k].payload).value)
  }

  ghost predicate EndsStopped(rows: seq<Row>, stop: map<string, Json>, path: string) {
    exists i, k :: StopsAt(rows, stop, path, i, k)
  }

  /** What an admitted prefix is, on its records. */
  ghost predicate IsSoundLog(rows: seq<Row>, stop: Option<map<string, Json>>, path: string) {
    IsFinished(rows) && if stop.None? then EndsComplete(rows) else EndsStopped(rows, stop.value, path)
  }

  /** In a finished log every call has a later output under its id, and every output an earlier call. */
  lemma ExchangesArePaired(rows: seq<Row>, n: nat)
    requires IsFinished(rows) && n < |rows|
    ensures IsCall(rows[n]) ==> exists m :: n < m < |rows| && IsOutput(rows[m]) && CallId(rows[m]) == CallId(rows[n])
    ensures IsOutput(rows[n]) ==> exists m :: 0 <= m < n && IsCall(rows[m]) && CallId(rows[m]) == CallId(rows[n])
  {
    assert Continues(rows, n);
    assert !IsOpen(rows, |rows|, CallId(rows[n]));
  }

  lemma FinishedExchange(rows: seq<Row>)
    requires |rows| == 4 && IsEvent(rows[0], "task_started") && IsEvent(rows[3], "task_complete")
    requires IsCall(rows[1]) && IsOutput(rows[2])
    requires CallId(rows[1]).Str? && CallId(rows[1]).s != "" && CallId(rows[2]) == CallId(rows[1])
    ensures IsFinished(rows)
  {
    assert IsOpen(rows, 2, CallId(rows[1]));
    forall n: nat | n < |rows| ensures Continues(rows, n) {
      assert n == 0 || n == 1 || n == 2 || n == 3;
    }
  }
}
