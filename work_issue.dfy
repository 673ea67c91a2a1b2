/**
 * The tracker-agnostic issue contract: the `Status` enumeration and the
 * partial-update carrier `IssueUpdate`.
 */
module WorkIssue {
  import opened Wrappers

  /** The four tracker-agnostic statuses. */
  datatype Status = Todo | InProgress | Complete | Cancelled

  /** The enum member's string value. */
  function Value(s: Status): (v: string)
    ensures v in {"todo", "in_progress", "complete", "cancelled"}
  {
    match s
    case Todo => "todo"
    case InProgress => "in_progress"
    case Complete => "complete"
    case Cancelled => "cancelled"
  }

  /** Distinct members have distinct values. */
  lemma ValueInjective(s: Status, t: Status)
    ensures Value(s) == Value(t) ==> s == t
  {
  }

  /**
   * A partial update. `None` means "unset", which is different from the
   * empty string: `Some("")` is a change to the empty value.
   */
  datatype IssueUpdate = IssueUpdate(
    title: Option<string>,
    description: Option<string>,
    status: Option<Status>,
    assignee: Option<string>,
    dueDate: Option<string>)

  /** `IssueUpdate()`: every field unset. */
  const DefaultUpdate := IssueUpdate(None, None, None, None, None)

  /** A value of the dictionary that `set_fields` returns. */
  datatype FieldValue = Text(text: string) | StatusValue(status: Status)

  /** The dataclass field names, in declaration order. */
  const FieldNames: seq<string> := ["title", "description", "status", "assignee", "due_date"]

  function OptText(name: string, o: Option<string>): map<string, FieldValue> {
    if o.Some? then map[name := Text(o.value)] else map[]
  }

  /** `set_fields()`: the fields holding a non-None value, by field name. */
  function SetFields(u: IssueUpdate): (changed: map<string, FieldValue>)
    ensures changed.Keys <= set n | n in FieldNames
    ensures "title" in changed <==> u.title.Some?
    ensures "description" in changed <==> u.description.Some?
    ensures "status" in changed <==> u.status.Some?
    ensures "assignee" in changed <==> u.assignee.Some?
    ensures "due_date" in changed <==> u.dueDate.Some?
    ensures "title" in changed ==> changed["title"] == Text(u.title.value)
    ensures "description" in changed ==> changed["description"] == Text(u.description.value)
    ensures "status" in changed ==> changed["status"] == StatusValue(u.status.value)
    ensures "assignee" in changed ==> changed["assignee"] == Text(u.assignee.value)
    ensures "due_date" in changed ==> changed["due_date"] == Text(u.dueDate.value)
  {
    var c1 := OptText("title", u.title);
    var c2 := if u.description.Some? then c1["description" := Text(u.description.value)] else c1;
    var c3 := if u.status.Some? then c2["status" := StatusValue(u.status.value)] else c2;
    var c4 := if u.assignee.Some? then c3["assignee" := Text(u.assignee.value)] else c3;
    if u.dueDate.Some? then c4["due_date" := Text(u.dueDate.value)] else c4
  }

  /** Nothing is reported as changed exactly when every field is unset. */
  lemma SetFieldsEmptyIffDefault(u: IssueUpdate)
    ensures SetFields(u) == map[] <==> u == DefaultUpdate
  {
    if u != DefaultUpdate {
      assert u.title.Some? || u.description.Some? || u.status.Some? || u.assignee.Some? || u.dueDate.Some?;
    }
  }
}
