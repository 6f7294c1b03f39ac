/** The rendering pass of main: per-field fallbacks to "N/A", the dispatch on
    the `tasks` member, and one row per task in input order between the
    header and the closing separator. */
module Tasks {
  import opened CStrings
  import opened Json
  import opened Table
  import opened Assignees

  /** The fields main extracts from one element of `tasks`. */
  datatype Task = Task(id: CString, name: CString, status: CString, assignees: seq<Json>)

  /** What the program writes: nothing on standard output when json_loads
      fails or `tasks` is not an array (both exit with status 1), otherwise
      the text written to standard output. */
  datatype Rendering = ParseFailed | TasksNotArray | Printed(stdout: string)

  const NO_TASKS: string := "No tasks found.\n"

  /** The string behind a member that is present and a string, else "N/A". */
  function StringOr(v: Option<Json>): CString
  {
    match StringValue(v)
    case Some(s) => s
    case None => "N/A"
  }

  /** The `status` member of the task's `status` member, read only when the
      outer one is an object. */
  function StatusMember(task: Json): Option<Json>
  {
    var outer := ObjectGet(task, "status");
    if outer.Some? && outer.value.JObject? then ObjectGet(outer.value, "status") else None
  }

  /** The per-field extraction of main. */
  function DecodeTask(task: Json): (t: Task)
    ensures !task.JObject? ==> t == Task("N/A", "N/A", "N/A", [])
  {
    Task(StringOr(ObjectGet(task, "custom_id")),
         StringOr(ObjectGet(task, "name")),
         StringOr(StatusMember(task)),
         AssigneeItems(ObjectGet(task, "assignees")))
  }

  /** Every field degrades to "N/A" (the assignees to none) on its own and
      never aborts the pass: custom_id and name must be present strings,
      status must be an object whose own `status` member is a string, and
      assignees must be an array. (An element that is not an object yields
      only fallbacks, as DecodeTask states.) */
  lemma DecodeTaskFallbacks(task: Json)
    ensures task.JObject? ==>
      var m, t := task.members, DecodeTask(task);
      && t.id == (if "custom_id" in m && m["custom_id"].JString? then CStr(m["custom_id"].s) else "N/A")
      && t.name == (if "name" in m && m["name"].JString? then CStr(m["name"].s) else "N/A")
      && t.status == (if "status" in m && m["status"].JObject? && "status" in m["status"].members
                         && m["status"].members["status"].JString?
                      then CStr(m["status"].members["status"].s) else "N/A")
      && t.assignees == (if "assignees" in m && m["assignees"].JArray? then m["assignees"].elems else [])
  {
  }

  /** The row printed for one element of `tasks`. */
  function TaskRow(task: Json): (r: string)
    ensures |r| >= LINE_WIDTH
  {
    var t := DecodeTask(task);
    RowLine(t.id, t.name, t.status, AssigneesField(t.assignees))
  }

  /** The rows printed for tasks: one per task, in input order. */
  function TaskRows(tasks: seq<Json>): seq<string>
  {
    seq(|tasks|, i requires 0 <= i < |tasks| => TaskRow(tasks[i]))
  }

  /** How much a task's row overflows the nominal line width: the id and
      status columns widen for over-long values. */
  function RowExcess(task: Json): nat
  {
    var t := DecodeTask(task);
    Excess(|t.id|, ID_WIDTH) + Excess(|t.status|, STATUS_WIDTH)
  }

  function TotalExcess(tasks: seq<Json>): nat
  {
    if tasks == [] then 0 else TotalExcess(tasks[..|tasks| - 1]) + RowExcess(tasks[|tasks| - 1])
  }

  /** The output of main for the parser's result (None when json_loads fails). */
  function Render(parsed: Option<Json>): (r: Rendering)
    ensures r.Printed? <==>
      parsed.Some? && ObjectGet(parsed.value, "tasks").Some? && ObjectGet(parsed.value, "tasks").value.JArray?
  {
    if parsed.None? then ParseFailed
    else
      match ObjectGet(parsed.value, "tasks")
      case Some(JArray(tasks)) =>
        if tasks == [] then Printed(NO_TASKS)
        else Printed(HeaderBlock() + Concat(TaskRows(tasks)) + SeparatorLine())
      case _ => TasksNotArray
  }

  /** The text of the rows grows by one row per task. */
  lemma TaskRowsSnoc(tasks: seq<Json>, i: nat)
    requires i < |tasks|
    ensures Concat(TaskRows(tasks[..i + 1])) == Concat(TaskRows(tasks[..i])) + TaskRow(tasks[i])
  {
    var rows := TaskRows(tasks);
    assert TaskRows(tasks[..i]) == rows[..i];
    assert TaskRows(tasks[..i + 1]) == rows[..i + 1];
    ConcatPrefix(rows, i);
  }

  /** A row is one nominal line width long plus its overflow. */
  lemma TaskRowLength(task: Json)
    ensures |TaskRow(task)| == LINE_WIDTH + RowExcess(task)
  {
    var t := DecodeTask(task);
    AssigneesFieldSpec(t.assignees);
    RowWidth(t.id, t.name, t.status, AssigneesField(t.assignees));
  }

  lemma {:induction false} TaskRowsLength(tasks: seq<Json>)
    ensures |Concat(TaskRows(tasks))| == LINE_WIDTH * |tasks| + TotalExcess(tasks)
  {
    if tasks != [] {
      TaskRowsLength(tasks[..|tasks| - 1]);
      TaskRowsSnoc(tasks, |tasks| - 1);
      assert tasks[..|tasks|] == tasks;
      TaskRowLength(tasks[|tasks| - 1]);
      assert LINE_WIDTH * |tasks| == LINE_WIDTH * (|tasks| - 1) + LINE_WIDTH;
    }
  }

  /** The dispatch on `tasks`: a parse failure and a `tasks` member that is
      missing or not an array print nothing on standard output; an empty
      array prints only "No tasks found."; any other array prints the header
      block, its rows and the closing separator. */
  lemma RenderCases(parsed: Option<Json>)
    ensures Render(parsed) == ParseFailed <==> parsed.None?
    ensures Render(parsed) == TasksNotArray <==>
      parsed.Some? && !(ObjectGet(parsed.value, "tasks").Some? && ObjectGet(parsed.value, "tasks").value.JArray?)
    ensures Render(parsed) == Printed(NO_TASKS) <==>
      parsed.Some? && ObjectGet(parsed.value, "tasks") == Some(JArray([]))
    ensures (&& parsed.Some? && ObjectGet(parsed.value, "tasks").Some?
             && ObjectGet(parsed.value, "tasks").value.JArray?
             && ObjectGet(parsed.value, "tasks").value.elems != []) ==>
      Render(parsed) == Printed(HeaderBlock() + Concat(TaskRows(ObjectGet(parsed.value, "tasks").value.elems)) + SeparatorLine())
  {
    if parsed.Some? {
      var field := ObjectGet(parsed.value, "tasks");
      if field.Some? && field.value.JArray? && field.value.elems != [] {
        var text := HeaderBlock() + Concat(TaskRows(field.value.elems)) + SeparatorLine();
        assert text[0] == SeparatorLine()[0] == '+';
        assert text != NO_TASKS;
      }
    }
  }

  /** A table of n tasks is n + 4 lines of LINE_WIDTH characters, plus the
      overflow of over-long ids and statuses. */
  lemma TableLength(tasks: seq<Json>)
    ensures |HeaderBlock() + Concat(TaskRows(tasks)) + SeparatorLine()|
         == LINE_WIDTH * (|tasks| + 4) + TotalExcess(tasks)
  {
    HeaderAligns();
    TaskRowsLength(tasks);
    assert LINE_WIDTH * (|tasks| + 4) == 3 * LINE_WIDTH + LINE_WIDTH * |tasks| + LINE_WIDTH;
  }

  const ALICE: Json := JObject(map["username" := JString("alice")])
  const BOB: Json := JObject(map["username" := JString("bob")])

  /** A task with custom_id "T-1", name "Fix bug", status "open" and the
      assignees alice and bob. */
  const EXAMPLE_TASK: Json := JObject(map[
    "custom_id" := JString("T-1"),
    "name" := JString("Fix bug"),
    "status" := JObject(map["status" := JString("open")]),
    "assignees" := JArray([ALICE, BOB])])

  /** The assignees column for alice and bob. */
  lemma ExampleAssignees()
    ensures AssigneesField([ALICE, BOB]) == "alice, bob "
  {
    assert UsernameOf(ALICE) == Some("alice");
    assert UsernameOf(BOB) == Some("bob");
    assert [ALICE, BOB][..1] == [ALICE] && [ALICE][..0] == [];
    assert Joined([ALICE]) == "alice";
    assert Joined([ALICE, BOB]) == "alice, bob";
  }

  lemma ExampleId()
    ensures DecodeTask(EXAMPLE_TASK).id == "T-1"
  {
    assert ObjectGet(EXAMPLE_TASK, "custom_id") == Some(JString("T-1"));
  }

  lemma ExampleName()
    ensures DecodeTask(EXAMPLE_TASK).name == "Fix bug"
  {
    assert ObjectGet(EXAMPLE_TASK, "name") == Some(JString("Fix bug"));
  }

  lemma ExampleStatus()
    ensures DecodeTask(EXAMPLE_TASK).status == "open"
  {
    assert StatusMember(EXAMPLE_TASK) == Some(JString("open"));
  }

  lemma ExampleAssigneeItems()
    ensures DecodeTask(EXAMPLE_TASK).assignees == [ALICE, BOB]
  {
    assert ObjectGet(EXAMPLE_TASK, "assignees") == Some(JArray([ALICE, BOB]));
  }

  /** The row of the example task: its fields as given, assignees "alice, bob ". */
  lemma ExampleRow()
    ensures TaskRow(EXAMPLE_TASK) == RowLine("T-1", "Fix bug", "open", "alice, bob ")
  {
    ExampleId();
    ExampleName();
    ExampleStatus();
    ExampleAssigneeItems();
    ExampleAssignees();
  }

  /** One iteration of the tasks loop: the fields, the assignees column,
      then print_table_row. */
  method PrintTaskRow(task: Json) returns (row: string)
    ensures row == TaskRow(task)
  {
    var id := StringOr(ObjectGet(task, "custom_id"));
    var name := StringOr(ObjectGet(task, "name"));
    var status := StringOr(StatusMember(task));
    var assignees := BuildAssignees(ObjectGet(task, "assignees"));
    row := RowLine(id, name, status, assignees);
  }

  /** The loop over the elements of `tasks`, one row each, in order. */
  method PrintRows(arr: seq<Json>) returns (rows: string)
    ensures rows == Concat(TaskRows(arr))
  {
    rows := "";
    for i := 0 to |arr|
      invariant rows == Concat(TaskRows(arr[..i]))
    {
      var row := PrintTaskRow(arr[i]);
      TaskRowsSnoc(arr, i);
      rows := rows + row;
    }
    assert arr[..|arr|] == arr;
  }

  /** main from the parsed response on: header, one row per task, closing separator. */
  method PrintTasks(parsed: Option<Json>) returns (r: Rendering)
    ensures r == Render(parsed)
  {
    if parsed.None? {
      return ParseFailed;
    }
    var tasks := ObjectGet(parsed.value, "tasks");
    if !(tasks.Some? && tasks.value.JArray?) {
      return TasksNotArray;
    }
    var arr := tasks.value.elems;
    if |arr| == 0 {
      return Printed(NO_TASKS);
    }
    var header := PrintHeader();
    var rows := PrintRows(arr);
    var closing := PrintSeparator();
    r := Printed(header + rows + closing);
  }
}
