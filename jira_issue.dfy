/**
 * The Jira issue adapter: status normalisation, the recursive reader of
 * Atlassian Document Format (ADF) text, and the read-only properties that a
 * `JiraIssue` exposes over the raw `fields` object of an API response.
 */
module JiraIssue {
  import opened Wrappers
  import opened Json
  import opened Strings
  import opened Errors
  import opened WorkIssue

  /** Jira status names (lower case) and the status each one stands for. */
  const StatusMap: map<string, Status> := map[
    "to do" := Todo, "open" := Todo, "backlog" := Todo, "new" := Todo,
    "in progress" := InProgress, "working" := InProgress, "development" := InProgress,
    "complete" := Complete, "done" := Complete, "closed" := Complete, "resolved" := Complete,
    "cancelled" := Cancelled, "canceled" := Cancelled, "rejected" := Cancelled
  ]

  /** `_normalize_status`: never fails; missing, empty and unknown names give `Todo`. */
  function NormalizeStatus(name: Option<string>): Status {
    if name.None? || name.value == "" then Todo
    else
      var key := Lower(name.value);
      if key in StatusMap then StatusMap[key] else Todo
  }

  /** Normalisation ignores case. */
  lemma NormalizeCaseInsensitive(name: string)
    ensures NormalizeStatus(Some(name)) == NormalizeStatus(Some(Lower(name)))
  {
    LowerNormalises(name);
  }

  /**
   * Which names give which status: each non-default status has exactly its
   * listed synonyms (in any case); everything else, absence included, is `Todo`.
   */
  lemma NormalizePreimage(name: string)
    ensures NormalizeStatus(None) == Todo
    ensures NormalizeStatus(Some(name)) == InProgress
      <==> Lower(name) in {"in progress", "working", "development"}
    ensures NormalizeStatus(Some(name)) == Complete
      <==> Lower(name) in {"complete", "done", "closed", "resolved"}
    ensures NormalizeStatus(Some(name)) == Cancelled
      <==> Lower(name) in {"cancelled", "canceled", "rejected"}
    ensures NormalizeStatus(Some(name)) == Todo
      <==> Lower(name) !in StatusMap || Lower(name) in {"to do", "open", "backlog", "new"}
  {
    if name == "" {
      assert Lower(name) == "";
      assert "" !in StatusMap;
    }
  }

  /** What a `text` node contributes: its `text` value, `""` when absent or falsy. */
  function TextOf(v: Json): Result<string, Error> {
    match v
    case JStr(s) => Ok(s)
    case _ => if Truthy(v) then Err(TypeMismatch) else Ok("")
  }

  /** `filter(None, parts)`: the non-empty parts, in order. */
  function NonEmpty(parts: seq<string>): (r: seq<string>)
    ensures forall p :: p in r <==> p in parts && p != ""
  {
    if parts == [] then []
    else (if parts[0] == "" then [] else [parts[0]]) + NonEmpty(parts[1..])
  }

  /**
   * The filter works part by part: a single part is kept exactly when it is
   * non-empty, and filtering distributes over concatenation, so the kept
   * parts keep their order and their repeats.
   */
  lemma {:induction false} NonEmptyAppend(a: seq<string>, b: seq<string>)
    ensures |a| == 1 ==> NonEmpty(a) == (if a[0] == "" then [] else a)
    ensures NonEmpty(a + b) == NonEmpty(a) + NonEmpty(b)
    decreases |a|
  {
    if a == [] {
      assert a + b == b;
    } else {
      NonEmptyAppend(a[1..], b);
      assert (a + b)[1..] == a[1..] + b;
      if |a| == 1 {
        assert a[1..] == [];
      }
    }
  }

  /**
   * `_extract_adf_text`: a non-object node reads as `""`; a `text` node gives
   * its text; any other node gives its children's texts, empty ones dropped,
   * joined by newlines. A child list that Python cannot iterate (a non-zero
   * number or `true`) and a truthy non-string text are type errors.
   */
  function ExtractAdfText(node: Json): Result<string, Error> {
    match node
    case JObj(m) =>
      if "type" in m && m["type"] == JStr("text") then
        TextOf(GetOr(m, "text", JStr("")))
      else if "content" !in m || !Truthy(m["content"]) then
        Ok("")
      else
        (match m["content"]
         case JArr(children) =>
           (match ExtractAll(children)
            case Ok(parts) => Ok(Join(NonEmpty(parts), "\n"))
            case Err(e) => Err(e))
         // iterating a string or an object yields strings, each of which reads as ""
         case JStr(_) => Ok("")
         case JObj(_) => Ok("")
         case _ => Err(TypeMismatch))
    case _ => Ok("")
  }

  /** The children's texts, in order; the first failure is the result. */
  function ExtractAll(children: seq<Json>): Result<seq<string>, Error> {
    if children == [] then Ok([])
    else
      match ExtractAdfText(children[0])
      case Err(e) => Err(e)
      case Ok(p) =>
        match ExtractAll(children[1..])
        case Err(e) => Err(e)
        case Ok(ps) => Ok([p] + ps)
  }

  /** The ADF shapes Jira sends: string texts, and child lists that are arrays. */
  predicate WellFormedAdf(node: Json) {
    match node
    case JObj(m) =>
      if "type" in m && m["type"] == JStr("text") then
        "text" !in m || m["text"].JStr?
      else
        "content" !in m || (m["content"].JArr? && AllWellFormed(m["content"].items))
    case _ => true
  }

  predicate AllWellFormed(nodes: seq<Json>) {
    nodes == [] || (WellFormedAdf(nodes[0]) && AllWellFormed(nodes[1..]))
  }

  /** Reading a well-formed ADF tree never fails. */
  lemma {:induction false} WellFormedAdfReads(node: Json)
    requires WellFormedAdf(node)
    ensures ExtractAdfText(node).Ok?
  {
    match node
    case JObj(m) =>
      if "type" in m && m["type"] == JStr("text") {
      } else if "content" in m && Truthy(m["content"]) {
        WellFormedChildrenRead(m["content"].items);
      }
    case _ =>
  }

  lemma {:induction false} WellFormedChildrenRead(nodes: seq<Json>)
    requires AllWellFormed(nodes)
    ensures ExtractAll(nodes).Ok?
    ensures |ExtractAll(nodes).value| == |nodes|
  {
    if nodes != [] {
      WellFormedAdfReads(nodes[0]);
      WellFormedChildrenRead(nodes[1..]);
    }
  }

  /**
   * A Jira issue: its key and the raw `fields` object. Every property reads
   * the raw object and falls back to a default instead of failing.
   */
  datatype Issue = Issue(id: string, raw: map<string, Json>) {

    /** `summary`, or `""`. */
    function Title(): string {
      match GetOr(raw, "summary", JStr(""))
      case JStr(s) => s
      case _ => ""
    }

    /** Missing or null: `""`; a plain string as is; an ADF object read as text. */
    function Description(): Result<string, Error> {
      if "description" !in raw || raw["description"] == JNull then Ok("")
      else
        match raw["description"]
        case JStr(s) => Ok(s)
        case d => ExtractAdfText(d)
    }

    /** `status.name` when `status` is an object, `""` otherwise. */
    function StatusName(): string {
      match GetOr(raw, "status", JNull)
      case JObj(sm) =>
        (match GetOr(sm, "name", JStr(""))
         case JStr(n) => n
         case _ => "")
      case _ => ""
    }

    function Status(): WorkIssue.Status {
      NormalizeStatus(Some(StatusName()))
    }

    /** The assignee's e-mail address, else display name, else nothing. */
    function Assignee(): Option<string> {
      var a := GetOr(raw, "assignee", JNull);
      if !Truthy(a) then None
      else
        match a
        case JObj(am) =>
          var email := GetOr(am, "emailAddress", JNull);
          var display := GetOr(am, "displayName", JNull);
          if email.JStr? && email.s != "" then Some(email.s)
          else if display.JStr? && display.s != "" then Some(display.s)
          else None
        case _ => None
    }

    /** `duedate` when it is a non-empty string. */
    function DueDate(): Option<string> {
      match GetOr(raw, "duedate", JNull)
      case JStr(d) => if d != "" then Some(d) else None
      case _ => None
    }
  }

  /** An issue built from an empty `fields` object has every default. */
  lemma EmptyIssueDefaults(key: string)
    ensures Issue(key, map[]).id == key
    ensures Issue(key, map[]).Title() == ""
    ensures Issue(key, map[]).Description() == Ok("")
    ensures Issue(key, map[]).Status() == Todo
    ensures Issue(key, map[]).Assignee() == None
    ensures Issue(key, map[]).DueDate() == None
  {
  }

  /**
   * Where the description comes from: nothing for a missing or null value,
   * the value itself for a plain string, the ADF reading for an object; a
   * well-formed ADF description never fails.
   */
  lemma DescriptionSources(issue: Issue)
    ensures "description" !in issue.raw || issue.raw["description"] == JNull ==> issue.Description() == Ok("")
    ensures "description" in issue.raw && issue.raw["description"].JStr? ==>
      issue.Description() == Ok(issue.raw["description"].s)
    ensures "description" in issue.raw && issue.raw["description"].JObj? ==>
      issue.Description() == ExtractAdfText(issue.raw["description"])
    ensures "description" in issue.raw && issue.raw["description"].JObj? && WellFormedAdf(issue.raw["description"]) ==>
      issue.Description().Ok?
  {
    if "description" in issue.raw && issue.raw["description"].JObj? && WellFormedAdf(issue.raw["description"]) {
      WellFormedAdfReads(issue.raw["description"]);
    }
  }

  /** A missing or non-object `status` reads as `Todo`, as does a missing name. */
  lemma StatusFallsBackToTodo(issue: Issue)
    requires "status" !in issue.raw || !issue.raw["status"].JObj?
      || "name" !in issue.raw["status"].fields
    ensures issue.Status() == Todo
  {
  }

  /** The assignee preference order: e-mail first, then display name, never `""`. */
  lemma AssigneePreference(issue: Issue)
    ensures issue.Assignee().Some? ==> issue.Assignee().value != ""
    ensures issue.Assignee().Some? ==>
      "assignee" in issue.raw && issue.raw["assignee"].JObj?
    ensures "assignee" in issue.raw && issue.raw["assignee"].JObj? ==>
      var am := issue.raw["assignee"].fields;
      var email := GetOr(am, "emailAddress", JNull);
      var display := GetOr(am, "displayName", JNull);
      (email.JStr? && email.s != "" ==> issue.Assignee() == Some(email.s))
      && (((!email.JStr? || email.s == "") && display.JStr? && display.s != "")
          ==> issue.Assignee() == Some(display.s))
  {
  }

  /** An empty `duedate` reads as absent, like a missing one. */
  lemma DueDateEmptyIsAbsent(issue: Issue)
    ensures issue.DueDate().Some? <==>
      "duedate" in issue.raw && issue.raw["duedate"].JStr? && issue.raw["duedate"].s != ""
  {
  }

  /** Two text nodes in one paragraph read as their texts joined by a newline. */
  lemma TwoTextNodesJoinWithNewline()
    ensures ExtractAdfText(JObj(map[
      "type" := JStr("doc"),
      "content" := JArr([JObj(map[
        "type" := JStr("paragraph"),
        "content" := JArr([
          JObj(map["type" := JStr("text"), "text" := JStr("Hello ")]),
          JObj(map["type" := JStr("text"), "text" := JStr("World")])])])])]))
      == Ok("Hello \nWorld")
  {
    var t1 := JObj(map["type" := JStr("text"), "text" := JStr("Hello ")]);
    var t2 := JObj(map["type" := JStr("text"), "text" := JStr("World")]);
    var para := JObj(map["type" := JStr("paragraph"), "content" := JArr([t1, t2])]);
    assert ExtractAdfText(t1) == Ok("Hello ");
    assert ExtractAdfText(t2) == Ok("World");
    ParagraphOfTwo(t1, t2, "Hello ", "World");
    assert "Hello " + "\n" + "World" == "Hello \nWorld";
    DocumentOfOne(para, "Hello \nWorld");
  }

  /** A paragraph of two children with non-empty texts reads as the texts joined by a newline. */
  lemma ParagraphOfTwo(first: Json, second: Json, a: string, b: string)
    requires ExtractAdfText(first) == Ok(a) && ExtractAdfText(second) == Ok(b)
    requires a != "" && b != ""
    ensures ExtractAdfText(JObj(map["type" := JStr("paragraph"), "content" := JArr([first, second])])) == Ok(a + "\n" + b)
  {
    ReadsTwo(first, second, a, b);
    JoinsTwo(a, b, "\n");
  }

  /** A document with one child of non-empty text reads as that text. */
  lemma DocumentOfOne(child: Json, text: string)
    requires ExtractAdfText(child) == Ok(text) && text != ""
    ensures ExtractAdfText(JObj(map["type" := JStr("doc"), "content" := JArr([child])])) == Ok(text)
  {
    ReadsOne(child, text);
    JoinsOne(text, "\n");
  }

  /** A single child reads as the list of its text. */
  lemma ReadsOne(node: Json, text: string)
    requires ExtractAdfText(node) == Ok(text)
    ensures ExtractAll([node]) == Ok([text])
  {
    assert [node][1..] == [];
    assert ExtractAll([node][1..]) == Ok([]);
    assert [text] + [] == [text];
  }

  /** Two children read as the list of their two texts. */
  lemma ReadsTwo(first: Json, second: Json, a: string, b: string)
    requires ExtractAdfText(first) == Ok(a) && ExtractAdfText(second) == Ok(b)
    ensures ExtractAll([first, second]) == Ok([a, b])
  {
    assert [first, second][1..] == [second];
    ReadsOne(second, b);
    assert [a] + [b] == [a, b];
  }

  /** A non-empty text alone is kept and joined to itself. */
  lemma JoinsOne(a: string, sep: string)
    requires a != ""
    ensures Join(NonEmpty([a]), sep) == a
  {
    assert [a][1..] == [];
    assert NonEmpty([a]) == [a];
  }

  /** Two non-empty texts are joined by the separator. */
  lemma JoinsTwo(a: string, b: string, sep: string)
    requires a != "" && b != ""
    ensures Join(NonEmpty([a, b]), sep) == a + sep + b
  {
    assert [a, b][1..] == [b];
    assert [b][1..] == [];
    assert NonEmpty([b]) == [b];
    assert NonEmpty([a, b]) == [a, b];
  }

  /**
   * `JiraClient._build_issue` with the `get_issue` factory: the record's
   * `key` and its `fields` object (empty when absent).
   */
  function BuildIssue(record: Json): (r: Result<Issue, Error>)
    ensures r.Ok? <==>
      record.JObj? && "key" in record.fields && record.fields["key"].JStr?
      && GetOr(record.fields, "fields", JObj(map[])).JObj?
    ensures r.Ok? ==>
      r.value.id == record.fields["key"].s
      && r.value.raw == GetOr(record.fields, "fields", JObj(map[])).fields
    ensures record.JObj? && "key" !in record.fields ==> r == Err(KeyMissing("key"))
    ensures r.Err? ==> r.error == KeyMissing("key") || r.error == TypeMismatch
  {
    match record
    case JObj(m) =>
      if "key" !in m then Err(KeyMissing("key"))
      else
        (match m["key"]
         case JStr(k) =>
           (match GetOr(m, "fields", JObj(map[]))
            case JObj(f) => Ok(Issue(k, f))
            case _ => Err(TypeMismatch))
         case _ => Err(TypeMismatch))
    case _ => Err(TypeMismatch)
  }

  /** `|issues| == |raws|` and each issue is built from the raw record at its position. */
  predicate BuiltFrom(issues: seq<Issue>, raws: seq<Json>) {
    |issues| == |raws| && forall i :: 0 <= i < |raws| ==> BuildIssue(raws[i]) == Ok(issues[i])
  }
}
