/**
 * The JQL query builder of `JiraClient.get_issues`: input sanitising, the
 * clause list and the query string. A small parser for the clause grammar
 * the builder emits serves as the reference: parsing a built query gives
 * back exactly the clauses that the filters call for, so no filter value can
 * add, remove or reorder a clause.
 */
module Jql {
  import opened Wrappers
  import opened Strings
  import opened WorkIssue

  /** The characters `sanitize_input` escapes. */
  const SpecialChars: set<char> := {
    '"', '\'', '*', '?', '=', '~', '>', '<', '!', '+', '-',
    ':', '&', '|', '(', ')', '[', ']', '{', '}', '\\', '^'
  }

  function Escape(c: char): string {
    if c in SpecialChars then ['\\', c] else [c]
  }

  /** `sanitize_input`: one backslash before every special character. */
  function Sanitize(s: string): string {
    if s == [] then [] else Escape(s[0]) + Sanitize(s[1..])
  }

  function CountSpecial(s: string): nat {
    if s == [] then 0 else (if s[0] in SpecialChars then 1 else 0) + CountSpecial(s[1..])
  }

  /** The output grows by exactly one character per special character. */
  lemma {:induction false} SanitizeLength(s: string)
    ensures |Sanitize(s)| == |s| + CountSpecial(s)
  {
    if s != [] {
      SanitizeLength(s[1..]);
    }
  }

  /** A string without special characters is left exactly as it is, and only such a string. */
  lemma {:induction false} SanitizeIdentity(s: string)
    ensures Sanitize(s) == s <==> CountSpecial(s) == 0
  {
    SanitizeLength(s);
    if s != [] && CountSpecial(s) == 0 {
      SanitizeIdentity(s[1..]);
      assert s == [s[0]] + s[1..];
    }
  }

  /** Drops every escaping backslash, keeping the character it escapes. */
  function Unescape(s: string): string
    decreases |s|
  {
    if s == [] then []
    else if s[0] == '\\' && |s| >= 2 then [s[1]] + Unescape(s[2..])
    else [s[0]] + Unescape(s[1..])
  }

  /** Removing the inserted backslashes recovers the input. */
  lemma {:induction false} UnescapeSanitize(s: string)
    ensures Unescape(Sanitize(s)) == s
  {
    if s != [] {
      var t := Sanitize(s[1..]);
      UnescapeSanitize(s[1..]);
      if s[0] in SpecialChars {
        assert Sanitize(s) == ['\\', s[0]] + t;
        assert (['\\', s[0]] + t)[2..] == t;
      } else {
        assert Sanitize(s) == [s[0]] + t;
        assert ([s[0]] + t)[1..] == t;
      }
      assert [s[0]] + s[1..] == s;
    }
  }

  /** A double quote between plain letters gets one backslash. */
  lemma SanitizeQuoteExample()
    ensures Sanitize("a\"b") == "a\\\"b"
  {
    assert "a\"b"[1..] == "\"b";
    assert "\"b"[1..] == "b";
    assert "b"[1..] == [];
    assert Sanitize("b") == "b";
    assert Sanitize("\"b") == "\\\"b";
  }

  /** `_STATUS_TO_JQL`: the quoted status literal for each status. */
  function StatusLiteral(st: Status): string {
    match st
    case Todo => "\"To Do\""
    case InProgress => "\"In Progress\""
    case Complete => "\"Complete\""
    case Cancelled => "\"Cancelled\""
  }

  /** The search filters of `get_issues`; `None` is an omitted argument. */
  datatype Filters = Filters(
    title: Option<string>,
    description: Option<string>,
    status: Option<Status>,
    assignee: Option<string>,
    dueDate: Option<string>)

  /** Python truthiness of a `str | None` argument. */
  predicate Given(o: Option<string>) {
    o.Some? && o.value != ""
  }

  predicate NoFilter(f: Filters) {
    !Given(f.title) && !Given(f.description) && f.status.None?
    && !Given(f.dueDate) && !Given(f.assignee)
  }

  /** One JQL clause, before rendering. */
  datatype Clause =
    | SummaryLike(text: string)
    | DescriptionLike(text: string)
    | StatusIs(status: Status)
    | DueOn(text: string)
    | AssigneeIs(text: string)
    | ProjectNotEmpty

  /** The position of a clause kind in the fixed clause order. */
  function Rank(c: Clause): nat {
    match c
    case SummaryLike(_) => 0
    case DescriptionLike(_) => 1
    case StatusIs(_) => 2
    case DueOn(_) => 3
    case AssigneeIs(_) => 4
    case ProjectNotEmpty => 5
  }

  /** The clause the filters call for at position `k` of the order, if any. */
  function Slot(f: Filters, k: nat): (s: seq<Clause>)
    ensures |s| <= 1
    ensures forall c :: c in s ==> Rank(c) == k
  {
    match k
    case 0 => if Given(f.title) then [SummaryLike(f.title.value)] else []
    case 1 => if Given(f.description) then [DescriptionLike(f.description.value)] else []
    case 2 => if f.status.Some? then [StatusIs(f.status.value)] else []
    case 3 => if Given(f.dueDate) then [DueOn(f.dueDate.value)] else []
    case 4 => if Given(f.assignee) then [AssigneeIs(f.assignee.value)] else []
    case _ => []
  }

  /** The filter clauses from position `k` on, in order. */
  function Slots(f: Filters, k: nat): (s: seq<Clause>)
    ensures forall i :: 0 <= i < |s| ==> k <= Rank(s[i]) < 5
    ensures forall i, j :: 0 <= i < j < |s| ==> Rank(s[i]) < Rank(s[j])
    ensures forall c :: c in s <==> k <= Rank(c) < 5 && c in Slot(f, Rank(c))
    decreases 5 - k
  {
    if k >= 5 then [] else Slot(f, k) + Slots(f, k + 1)
  }

  predicate AllSlotsEmpty(f: Filters) {
    Slot(f, 0) == [] && Slot(f, 1) == [] && Slot(f, 2) == [] && Slot(f, 3) == [] && Slot(f, 4) == []
  }

  lemma NoFilterSlots(f: Filters)
    ensures NoFilter(f) <==> AllSlotsEmpty(f)
    ensures Slots(f, 0) == [] <==> AllSlotsEmpty(f)
  {
    assert Slots(f, 4) == Slot(f, 4) + Slots(f, 5);
    assert Slots(f, 3) == Slot(f, 3) + Slots(f, 4);
    assert Slots(f, 2) == Slot(f, 2) + Slots(f, 3);
    assert Slots(f, 1) == Slot(f, 1) + Slots(f, 2);
    assert Slots(f, 0) == Slot(f, 0) + Slots(f, 1);
  }

  /**
   * The clauses `get_issues` collects: one per truthy filter, in the order
   * title, description, status, due date, assignee; the bounding clause
   * alone when there is none.
   */
  function ClauseList(f: Filters): (cs: seq<Clause>)
    ensures |cs| >= 1
    ensures cs == [ProjectNotEmpty] <==> NoFilter(f)
    ensures ProjectNotEmpty in cs <==> NoFilter(f)
    ensures forall i, j :: 0 <= i < j < |cs| ==> Rank(cs[i]) < Rank(cs[j])
    ensures forall c :: c in cs && c != ProjectNotEmpty <==> Rank(c) < 5 && c in Slot(f, Rank(c))
  {
    var given := Slots(f, 0);
    assert ProjectNotEmpty !in given;
    NoFilterSlots(f);
    if given == [] then [ProjectNotEmpty] else given
  }

  /** A filter clause is collected exactly when its slot holds it. */
  lemma InClauseList(f: Filters, c: Clause)
    requires c != ProjectNotEmpty
    ensures c in ClauseList(f) <==> c in Slot(f, Rank(c))
  {
  }

  /** Each filter value appears in the clause list exactly when that filter is truthy. */
  lemma ClauseListMembers(f: Filters)
    ensures forall x :: SummaryLike(x) in ClauseList(f) <==> Given(f.title) && x == f.title.value
    ensures forall x :: DescriptionLike(x) in ClauseList(f) <==> Given(f.description) && x == f.description.value
    ensures forall st :: StatusIs(st) in ClauseList(f) <==> f.status == Some(st)
    ensures forall x :: DueOn(x) in ClauseList(f) <==> Given(f.dueDate) && x == f.dueDate.value
    ensures forall x :: AssigneeIs(x) in ClauseList(f) <==> Given(f.assignee) && x == f.assignee.value
  {
    forall x
      ensures SummaryLike(x) in ClauseList(f) <==> Given(f.title) && x == f.title.value
    {
      InClauseList(f, SummaryLike(x));
    }
    forall x
      ensures DescriptionLike(x) in ClauseList(f) <==> Given(f.description) && x == f.description.value
    {
      InClauseList(f, DescriptionLike(x));
    }
    forall st
      ensures StatusIs(st) in ClauseList(f) <==> f.status == Some(st)
    {
      InClauseList(f, StatusIs(st));
    }
    forall x
      ensures DueOn(x) in ClauseList(f) <==> Given(f.dueDate) && x == f.dueDate.value
    {
      InClauseList(f, DueOn(x));
    }
    forall x
      ensures AssigneeIs(x) in ClauseList(f) <==> Given(f.assignee) && x == f.assignee.value
    {
      InClauseList(f, AssigneeIs(x));
    }
  }

  const SummaryPrefix := "summary ~ '"
  const DescriptionPrefix := "description ~ '"
  const StatusPrefix := "status = "
  const DuePrefix := "due = '"
  const AssigneePrefix := "assignee = '"
  const ProjectClause := "project IS NOT EMPTY"
  const AndSep := " AND "
  const OrderSuffix := " ORDER BY updated DESC"

  /** The text of one clause; free-text values are sanitised and single-quoted. */
  function Render(c: Clause): string {
    match c
    case SummaryLike(x) => SummaryPrefix + Sanitize(x) + "'"
    case DescriptionLike(x) => DescriptionPrefix + Sanitize(x) + "'"
    case StatusIs(st) => StatusPrefix + StatusLiteral(st)
    case DueOn(x) => DuePrefix + Sanitize(x) + "'"
    case AssigneeIs(x) => AssigneePrefix + Sanitize(x) + "'"
    case ProjectNotEmpty => ProjectClause
  }

  function RenderAll(cs: seq<Clause>): (r: seq<string>)
    ensures |r| == |cs|
  {
    if cs == [] then [] else [Render(cs[0])] + RenderAll(cs[1..])
  }

  /** The JQL string `get_issues` sends. */
  function BuildJql(f: Filters): string {
    Join(RenderAll(ClauseList(f)), AndSep) + OrderSuffix
  }

  // ---------------------------------------------------------------------
  // The reference parser
  // ---------------------------------------------------------------------

  /**
   * Reads a single-quoted value body up to its closing quote: a backslash
   * takes the next character literally. Gives the value and what follows
   * the closing quote.
   */
  function ParseQuoted(s: string): (r: Option<(string, string)>)
    ensures r.Some? ==> |r.value.1| < |s|
    decreases |s|
  {
    if s == [] then None
    else if s[0] == '\'' then Some(([], s[1..]))
    else if s[0] == '\\' then
      if |s| < 2 then None
      else
        match ParseQuoted(s[2..])
        case None => None
        case Some((v, rest)) => Some(([s[1]] + v, rest))
    else
      match ParseQuoted(s[1..])
      case None => None
      case Some((v, rest)) => Some(([s[0]] + v, rest))
  }

  function ParseStatusLiteral(s: string): (r: Option<(Clause, string)>)
    ensures r.Some? ==> |r.value.1| < |s|
  {
    if StartsWith(s, StatusLiteral(Todo)) then Some((StatusIs(Todo), s[|StatusLiteral(Todo)|..]))
    else if StartsWith(s, StatusLiteral(InProgress)) then Some((StatusIs(InProgress), s[|StatusLiteral(InProgress)|..]))
    else if StartsWith(s, StatusLiteral(Complete)) then Some((StatusIs(Complete), s[|StatusLiteral(Complete)|..]))
    else if StartsWith(s, StatusLiteral(Cancelled)) then Some((StatusIs(Cancelled), s[|StatusLiteral(Cancelled)|..]))
    else None
  }

  function Quoted(s: string, make: string -> Clause): (r: Option<(Clause, string)>)
    ensures r.Some? ==> |r.value.1| < |s|
  {
    match ParseQuoted(s)
    case None => None
    case Some((v, rest)) => Some((make(v), rest))
  }

  /** Reads one clause from the front of `s`. */
  function ParseClause(s: string): (r: Option<(Clause, string)>)
    ensures r.Some? ==> |r.value.1| < |s|
  {
    if StartsWith(s, SummaryPrefix) then Quoted(s[|SummaryPrefix|..], x => SummaryLike(x))
    else if StartsWith(s, DescriptionPrefix) then Quoted(s[|DescriptionPrefix|..], x => DescriptionLike(x))
    else if StartsWith(s, StatusPrefix) then ParseStatusLiteral(s[|StatusPrefix|..])
    else if StartsWith(s, DuePrefix) then Quoted(s[|DuePrefix|..], x => DueOn(x))
    else if StartsWith(s, AssigneePrefix) then Quoted(s[|AssigneePrefix|..], x => AssigneeIs(x))
    else if StartsWith(s, ProjectClause) then Some((ProjectNotEmpty, s[|ProjectClause|..]))
    else None
  }

  /** Reads `clause ( AND clause)* ORDER BY updated DESC`. */
  function ParseJql(s: string): Option<seq<Clause>>
    decreases |s|
  {
    match ParseClause(s)
    case None => None
    case Some((c, rest)) =>
      if rest == OrderSuffix then Some([c])
      else if StartsWith(rest, AndSep) then
        match ParseJql(rest[|AndSep|..])
        case None => None
        case Some(cs) => Some([c] + cs)
      else None
  }

  // ---------------------------------------------------------------------
  // Round trip
  // ---------------------------------------------------------------------

  lemma NotStartsWith(s: string, prefix: string, i: nat)
    requires i < |s| && i < |prefix| && s[i] != prefix[i]
    ensures !StartsWith(s, prefix)
  {
  }

  /** A sanitised value, its closing quote and anything after it read back as the value. */
  lemma {:induction false} QuotedRoundTrip(v: string, rest: string)
    ensures ParseQuoted(Sanitize(v) + "'" + rest) == Some((v, rest))
    decreases |v|
  {
    var s := Sanitize(v) + "'" + rest;
    if v == [] {
      assert s == "'" + rest;
      assert s[1..] == rest;
    } else {
      var t := Sanitize(v[1..]) + "'" + rest;
      assert s == Escape(v[0]) + t;
      QuotedRoundTrip(v[1..], rest);
      if v[0] in SpecialChars {
        assert s[0] == '\\' && s[1] == v[0];
        assert s[2..] == t;
      } else {
        assert s[0] == v[0] && s[0] != '\'' && s[0] != '\\';
        assert s[1..] == t;
      }
      assert [v[0]] + v[1..] == v;
    }
  }

  lemma QuotedClause(prefix: string, x: string, rest: string, make: string -> Clause)
    ensures StartsWith(prefix + Sanitize(x) + "'" + rest, prefix)
    ensures Quoted((prefix + Sanitize(x) + "'" + rest)[|prefix|..], make) == Some((make(x), rest))
  {
    var tail := Sanitize(x) + "'" + rest;
    assert prefix + Sanitize(x) + "'" + rest == prefix + tail;
    StartsWithConcat(prefix, tail);
    QuotedRoundTrip(x, rest);
  }

  lemma StatusLiteralRoundTrip(st: Status, rest: string)
    ensures ParseStatusLiteral(StatusLiteral(st) + rest) == Some((StatusIs(st), rest))
  {
    var s := StatusLiteral(st) + rest;
    StartsWithConcat(StatusLiteral(st), rest);
    match st
    case Todo =>
    case InProgress =>
      NotStartsWith(s, StatusLiteral(Todo), 1);
    case Complete =>
      NotStartsWith(s, StatusLiteral(Todo), 1);
      NotStartsWith(s, StatusLiteral(InProgress), 1);
    case Cancelled =>
      NotStartsWith(s, StatusLiteral(Todo), 1);
      NotStartsWith(s, StatusLiteral(InProgress), 1);
      NotStartsWith(s, StatusLiteral(Complete), 2);
  }

  /** Every rendered clause reads back as itself, whatever follows it. */
  lemma ClauseRoundTrip(c: Clause, rest: string)
    ensures ParseClause(Render(c) + rest) == Some((c, rest))
  {
    match c
    case SummaryLike(_) => SummaryClauseRoundTrip(c, rest);
    case DescriptionLike(_) => DescriptionClauseRoundTrip(c, rest);
    case StatusIs(_) => StatusClauseRoundTrip(c, rest);
    case DueOn(_) => DueClauseRoundTrip(c, rest);
    case AssigneeIs(_) => AssigneeClauseRoundTrip(c, rest);
    case ProjectNotEmpty => ProjectClauseRoundTrip(rest);
  }

  lemma SummaryClauseRoundTrip(c: Clause, rest: string)
    requires c.SummaryLike?
    ensures ParseClause(Render(c) + rest) == Some((c, rest))
  {
    QuotedClause(SummaryPrefix, c.text, rest, y => SummaryLike(y));
  }

  lemma DescriptionClauseRoundTrip(c: Clause, rest: string)
    requires c.DescriptionLike?
    ensures ParseClause(Render(c) + rest) == Some((c, rest))
  {
    QuotedClause(DescriptionPrefix, c.text, rest, y => DescriptionLike(y));
    NotStartsWith(Render(c) + rest, SummaryPrefix, 0);
  }

  lemma StatusClauseRoundTrip(c: Clause, rest: string)
    requires c.StatusIs?
    ensures ParseClause(Render(c) + rest) == Some((c, rest))
  {
    var s := Render(c) + rest;
    assert s == StatusPrefix + (StatusLiteral(c.status) + rest);
    StartsWithConcat(StatusPrefix, StatusLiteral(c.status) + rest);
    NotStartsWith(s, SummaryPrefix, 1);
    NotStartsWith(s, DescriptionPrefix, 0);
    StatusLiteralRoundTrip(c.status, rest);
  }

  lemma DueClauseRoundTrip(c: Clause, rest: string)
    requires c.DueOn?
    ensures ParseClause(Render(c) + rest) == Some((c, rest))
  {
    var s := Render(c) + rest;
    QuotedClause(DuePrefix, c.text, rest, y => DueOn(y));
    NotStartsWith(s, SummaryPrefix, 0);
    NotStartsWith(s, DescriptionPrefix, 1);
    NotStartsWith(s, StatusPrefix, 0);
  }

  lemma AssigneeClauseRoundTrip(c: Clause, rest: string)
    requires c.AssigneeIs?
    ensures ParseClause(Render(c) + rest) == Some((c, rest))
  {
    var s := Render(c) + rest;
    QuotedClause(AssigneePrefix, c.text, rest, y => AssigneeIs(y));
    NotStartsWith(s, SummaryPrefix, 0);
    NotStartsWith(s, DescriptionPrefix, 0);
    NotStartsWith(s, StatusPrefix, 0);
    NotStartsWith(s, DuePrefix, 0);
  }

  lemma ProjectClauseRoundTrip(rest: string)
    ensures ParseClause(Render(ProjectNotEmpty) + rest) == Some((ProjectNotEmpty, rest))
  {
    var s := Render(ProjectNotEmpty) + rest;
    StartsWithConcat(ProjectClause, rest);
    NotStartsWith(s, SummaryPrefix, 0);
    NotStartsWith(s, DescriptionPrefix, 0);
    NotStartsWith(s, StatusPrefix, 0);
    NotStartsWith(s, DuePrefix, 0);
    NotStartsWith(s, AssigneePrefix, 0);
  }

  /** A separator followed by more clauses is never the end of the query. */
  lemma AndIsNotOrder(tail: string)
    ensures AndSep + tail != OrderSuffix
  {
    assert (AndSep + tail)[1] == 'A' && OrderSuffix[1] == 'O';
  }

  /** A non-empty clause list, joined and terminated, reads back as itself. */
  lemma {:induction false} ClausesRoundTrip(cs: seq<Clause>)
    requires cs != []
    ensures ParseJql(Join(RenderAll(cs), AndSep) + OrderSuffix) == Some(cs)
  {
    var head := Render(cs[0]);
    if |cs| == 1 {
      assert cs[1..] == [];
      assert RenderAll(cs) == [head];
      assert Join(RenderAll(cs), AndSep) == head;
      ClauseRoundTrip(cs[0], OrderSuffix);
      assert [cs[0]] == cs;
    } else {
      var tail := Join(RenderAll(cs[1..]), AndSep) + OrderSuffix;
      assert RenderAll(cs)[1..] == RenderAll(cs[1..]);
      assert Join(RenderAll(cs), AndSep) + OrderSuffix == head + (AndSep + tail);
      ClauseRoundTrip(cs[0], AndSep + tail);
      AndIsNotOrder(tail);
      StartsWithConcat(AndSep, tail);
      ClausesRoundTrip(cs[1..]);
      assert [cs[0]] + cs[1..] == cs;
    }
  }

  /**
   * No injection: the built query parses back to exactly the clauses the
   * filters call for, each free-text value intact, and it ends with the
   * fixed sort order.
   */
  lemma JqlRoundTrip(f: Filters)
    ensures ParseJql(BuildJql(f)) == Some(ClauseList(f))
    ensures |BuildJql(f)| >= |OrderSuffix|
    ensures BuildJql(f)[|BuildJql(f)| - |OrderSuffix|..] == OrderSuffix
  {
    ClausesRoundTrip(ClauseList(f));
  }

  /** With no truthy filter the query is the bounding clause and the sort order. */
  lemma NoFilterQuery(f: Filters)
    requires NoFilter(f)
    ensures BuildJql(f) == "project IS NOT EMPTY ORDER BY updated DESC"
  {
    assert ClauseList(f) == [ProjectNotEmpty];
    BoundingClauseQuery();
  }

  /** The query text of the lone bounding clause. */
  lemma BoundingClauseQuery()
    ensures Join(RenderAll([ProjectNotEmpty]), AndSep) + OrderSuffix == "project IS NOT EMPTY ORDER BY updated DESC"
  {
    assert [ProjectNotEmpty][1..] == [];
    assert RenderAll([ProjectNotEmpty]) == [ProjectClause];
    assert Join([ProjectClause], AndSep) == ProjectClause;
  }
}
