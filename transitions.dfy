/**
 * Status changes through the Jira transitions API, as
 * `JiraClient._apply_status_transition` performs them: list the issue's
 * available transitions, index them by lower-cased name, pick the first
 * name of the target status's fixed candidate list that is available, and
 * post that transition's id.
 */
module Transitions {
  import opened Wrappers
  import opened Json
  import opened Strings
  import opened Errors
  import opened WorkIssue
  import opened Http

  /** `_STATUS_TO_JIRA_TRANSITION`: candidate transition names, most preferred first. */
  function Candidates(target: Status): seq<string> {
    match target
    case Todo => ["to do", "reopen issue", "reopen", "stop progress", "backlog"]
    case InProgress => ["in progress", "start progress", "in development", "start development", "in work"]
    case Complete => ["done", "resolve issue", "close issue", "resolved", "complete", "closed"]
    case Cancelled => ["cancelled", "canceled", "won't do", "wont do", "rejected", "invalid"]
  }

  /** The candidate names of `target` hold no upper-case letter. */
  predicate CandidatesAreLower(target: Status) {
    forall i :: 0 <= i < |Candidates(target)| ==> IsLower(Candidates(target)[i])
  }

  lemma TodoCandidatesLower() ensures CandidatesAreLower(Todo) {}
  lemma InProgressCandidatesLower() ensures CandidatesAreLower(InProgress) {}
  lemma CompleteCandidatesLower() ensures CandidatesAreLower(Complete) {}
  lemma CancelledCandidatesLower() ensures CandidatesAreLower(Cancelled) {}

  /** The candidate names are already lower-case, so `candidate.lower()` leaves them as they are. */
  lemma CandidatesLower(target: Status)
    ensures forall i :: 0 <= i < |Candidates(target)| ==> Lower(Candidates(target)[i]) == Candidates(target)[i]
  {
    match target {
      case Todo => TodoCandidatesLower();
      case InProgress => InProgressCandidatesLower();
      case Complete => CompleteCandidatesLower();
      case Cancelled => CancelledCandidatesLower();
    }
    var cs := Candidates(target);
    forall i | 0 <= i < |cs|
      ensures Lower(cs[i]) == cs[i]
    {
      LowerNormalises(cs[i]);
    }
  }

  /**
   * `data.get("transitions", [])` as the comprehension iterates it: a list
   * gives its items, an empty string or object gives nothing, and anything
   * else fails, either because it is not iterable or because its elements
   * have no `get`.
   */
  function TransitionList(data: Json): (r: Result<seq<Json>, Error>)
    ensures data.JObj? && "transitions" !in data.fields ==> r == Ok([])
    ensures data.JObj? && "transitions" in data.fields && data.fields["transitions"].JArr? ==>
      r == Ok(data.fields["transitions"].items)
    ensures !data.JObj? ==> r == Err(TypeMismatch)
  {
    match data
    case JObj(m) =>
      (match GetOr(m, "transitions", JArr([]))
       case JArr(ts) => Ok(ts)
       case JStr(s) => if s == "" then Ok([]) else Err(TypeMismatch)
       case JObj(o) => if o == map[] then Ok([]) else Err(TypeMismatch)
       case _ => Err(TypeMismatch))
    case _ => Err(TypeMismatch)
  }

  /** `t.get("name", "").lower()` for one transition object. */
  function NameOf(t: Json): Result<string, Error> {
    match t
    case JObj(m) =>
      (match GetOr(m, "name", JStr(""))
       case JStr(s) => Ok(Lower(s))
       case _ => Err(TypeMismatch))
    case _ => Err(TypeMismatch)
  }

  /** The (lower-cased name, transition) pairs in response order; the first bad entry fails. */
  function Named(ts: seq<Json>): (r: Result<seq<(string, map<string, Json>)>, Error>)
    ensures r.Ok? ==> |r.value| == |ts|
    ensures r.Ok? ==> forall i :: 0 <= i < |ts| ==>
      ts[i] == JObj(r.value[i].1) && NameOf(ts[i]) == Ok(r.value[i].0)
    ensures r.Err? <==> exists i :: 0 <= i < |ts| && NameOf(ts[i]).Err?
  {
    if ts == [] then Ok([])
    else
      match NameOf(ts[0])
      case Err(e) => Err(e)
      case Ok(name) =>
        match Named(ts[1..])
        case Err(e) =>
          assert forall i :: 0 <= i < |ts| - 1 ==> ts[1..][i] == ts[i + 1];
          Err(e)
        case Ok(rest) =>
          Ok([(name, ts[0].fields)] + rest)
  }

  /**
   * The dict comprehension `{name: t for ...}`: a name that occurs twice
   * keeps the later transition.
   */
  function ByName(pairs: seq<(string, map<string, Json>)>): (avail: map<string, map<string, Json>>)
    ensures forall k :: k in avail <==> exists i :: 0 <= i < |pairs| && pairs[i].0 == k
    ensures forall i :: 0 <= i < |pairs| && (forall j :: i < j < |pairs| ==> pairs[j].0 != pairs[i].0) ==>
      avail[pairs[i].0] == pairs[i].1
  {
    if pairs == [] then map[]
    else
      var init := pairs[..|pairs| - 1];
      var last := pairs[|pairs| - 1];
      assert pairs == init + [last];
      ByNameExtends(init, last, ByName(init));
      ByName(init)[last.0 := last.1]
  }

  /** Adding one pair to an index of the earlier pairs indexes them all, the later pair winning. */
  lemma ByNameExtends(init: seq<(string, map<string, Json>)>, last: (string, map<string, Json>),
                      m: map<string, map<string, Json>>)
    requires forall k :: k in m <==> exists i :: 0 <= i < |init| && init[i].0 == k
    requires forall i :: 0 <= i < |init| && (forall j :: i < j < |init| ==> init[j].0 != init[i].0) ==>
      m[init[i].0] == init[i].1
    ensures var pairs := init + [last];
      var avail := m[last.0 := last.1];
      && (forall k :: k in avail <==> exists i :: 0 <= i < |pairs| && pairs[i].0 == k)
      && (forall i :: 0 <= i < |pairs| && (forall j :: i < j < |pairs| ==> pairs[j].0 != pairs[i].0) ==>
            avail[pairs[i].0] == pairs[i].1)
  {
    var pairs := init + [last];
    var avail := m[last.0 := last.1];
    forall k
      ensures k in avail <==> exists i :: 0 <= i < |pairs| && pairs[i].0 == k
    {
      if k == last.0 {
        assert pairs[|init|].0 == k;
      } else if k in m {
        var i :| 0 <= i < |init| && init[i].0 == k;
        assert pairs[i].0 == k;
      }
      if exists i :: 0 <= i < |pairs| && pairs[i].0 == k {
        var i :| 0 <= i < |pairs| && pairs[i].0 == k;
        if i < |init| {
          assert init[i].0 == k;
        }
      }
    }
    forall i | 0 <= i < |pairs| && (forall j :: i < j < |pairs| ==> pairs[j].0 != pairs[i].0)
      ensures avail[pairs[i].0] == pairs[i].1
    {
      if i < |init| {
        assert pairs[|init|].0 != pairs[i].0;
        assert forall j :: i < j < |init| ==> init[j] == pairs[j];
        assert pairs[i] == init[i];
      }
    }
  }

  /** `list(available.keys())`: each name once, in order of first occurrence. */
  function Dedup(names: seq<string>): seq<string> {
    if names == [] then []
    else
      var d := Dedup(names[..|names| - 1]);
      var last := names[|names| - 1];
      if last in d then d else d + [last]
  }

  /** The listed names are exactly the names given, each once. */
  lemma {:induction false} DedupSpec(names: seq<string>)
    ensures forall x :: x in Dedup(names) <==> x in names
    ensures forall i, j :: 0 <= i < j < |Dedup(names)| ==> Dedup(names)[i] != Dedup(names)[j]
  {
    if names != [] {
      var init := names[..|names| - 1];
      DedupSpec(init);
      assert names == init + [names[|names| - 1]];
    }
  }

  /** The index of the first candidate whose lower-cased form is available. */
  function FirstMatch(cands: seq<string>, avail: map<string, map<string, Json>>): (r: Option<nat>)
    ensures r.Some? ==> r.value < |cands| && Lower(cands[r.value]) in avail
    ensures r.Some? ==> forall j :: 0 <= j < r.value ==> Lower(cands[j]) !in avail
    ensures r.None? <==> forall j :: 0 <= j < |cands| ==> Lower(cands[j]) !in avail
  {
    if cands == [] then None
    else if Lower(cands[0]) in avail then Some(0)
    else
      match FirstMatch(cands[1..], avail)
      case None =>
        assert forall j :: 1 <= j < |cands| ==> cands[j] == cands[1..][j - 1];
        None
      case Some(i) =>
        assert forall j :: 1 <= j <= i + 1 ==> cands[j] == cands[1..][j - 1];
        Some(i + 1)
  }

  function Names(pairs: seq<(string, map<string, Json>)>): (names: seq<string>)
    ensures |names| == |pairs| && forall i :: 0 <= i < |pairs| ==> names[i] == pairs[i].0
  {
    seq(|pairs|, i requires 0 <= i < |pairs| => pairs[i].0)
  }

  /** The transition `_apply_status_transition` settles on, if any. */
  function Select(cands: seq<string>, avail: map<string, map<string, Json>>): Option<map<string, Json>> {
    match FirstMatch(cands, avail)
    case None => None
    case Some(i) => Some(avail[Lower(cands[i])])
  }

  /** The path of an issue's transitions resource. */
  function TransitionsPath(issueId: string): string {
    "/issue/" + issueId + "/transitions"
  }

  /** The body of the transition POST. */
  function TransitionBody(id: Json): Json {
    JObj(map["transition" := JObj(map["id" := id])])
  }

  /**
   * From the transitions listing to the id to post: the listing's shape
   * errors, the `NoTransition` error carrying the available names, or the
   * `KeyMissing("id")` of a chosen transition without an id.
   */
  function Resolve(data: Json, issueId: string, target: Status): Result<Json, Error> {
    match TransitionList(data)
    case Err(e) => Err(e)
    case Ok(ts) =>
      match Named(ts)
      case Err(e) => Err(e)
      case Ok(pairs) =>
        match Select(Candidates(target), ByName(pairs))
        case None => Err(NoTransition(issueId, target, Dedup(Names(pairs))))
        case Some(t) => if "id" in t then Ok(t["id"]) else Err(KeyMissing("id"))
  }

  /** The POST that performs the chosen transition. */
  function PostTransitionRun(remote: Remote, history: seq<Request>, issueId: string, id: Json): (r: Run<()>)
    ensures r.requests == [Post(TransitionsPath(issueId), TransitionBody(id))]
  {
    var post := Post(TransitionsPath(issueId), TransitionBody(id));
    match JsonResult(TransitionsPath(issueId), remote(history, post))
    case Err(e) => Run(Err(e), [post])
    case Ok(_) => Run(Ok(()), [post])
  }

  /** `_apply_status_transition`: GET the listing, then POST the chosen transition. */
  function TransitionRun(remote: Remote, history: seq<Request>, issueId: string, target: Status): (r: Run<()>)
    ensures 1 <= |r.requests| <= 2 && r.requests[0] == Get(TransitionsPath(issueId), map[])
    ensures |r.requests| == 2 ==> r.requests[1].Post? && r.requests[1].path == TransitionsPath(issueId)
    ensures r.outcome.Ok? ==> |r.requests| == 2
  {
    var list := Get(TransitionsPath(issueId), map[]);
    match JsonResult(TransitionsPath(issueId), remote(history, list))
    case Err(e) => Run(Err(e), [list])
    case Ok(data) =>
      match Resolve(data, issueId, target)
      case Err(e) => Run(Err(e), [list])
      case Ok(id) =>
        var post := PostTransitionRun(remote, history + [list], issueId, id);
        Run(post.outcome, [list] + post.requests)
  }

  /**
   * The chosen transition is the one the earliest available candidate names,
   * and among transitions sharing that lower-cased name, the last one listed.
   */
  lemma ResolvePicksFirstCandidate(data: Json, issueId: string, target: Status, ts: seq<Json>,
                                   pairs: seq<(string, map<string, Json>)>, c: nat, i: nat)
    requires TransitionList(data) == Ok(ts) && Named(ts) == Ok(pairs)
    requires c < |Candidates(target)| && i < |pairs|
    requires pairs[i].0 == Candidates(target)[c]
    requires forall d :: 0 <= d < c ==> forall j :: 0 <= j < |pairs| ==> pairs[j].0 != Candidates(target)[d]
    requires forall j :: i < j < |pairs| ==> pairs[j].0 != pairs[i].0
    ensures "id" in pairs[i].1 ==> Resolve(data, issueId, target) == Ok(pairs[i].1["id"])
    ensures "id" !in pairs[i].1 ==> Resolve(data, issueId, target) == Err(KeyMissing("id"))
  {
    CandidatesLower(target);
    SelectPicks(Candidates(target), pairs, c, i);
  }

  /** The selection over lower-case candidates, in terms of the listed pairs. */
  lemma SelectPicks(cands: seq<string>, pairs: seq<(string, map<string, Json>)>, c: nat, i: nat)
    requires forall d :: 0 <= d < |cands| ==> Lower(cands[d]) == cands[d]
    requires c < |cands| && i < |pairs|
    requires pairs[i].0 == cands[c]
    requires forall d :: 0 <= d < c ==> forall j :: 0 <= j < |pairs| ==> pairs[j].0 != cands[d]
    requires forall j :: i < j < |pairs| ==> pairs[j].0 != pairs[i].0
    ensures Select(cands, ByName(pairs)) == Some(pairs[i].1)
  {
    var avail := ByName(pairs);
    assert Lower(cands[c]) in avail;
    forall d | 0 <= d < c
      ensures Lower(cands[d]) !in avail
    {
      assert Lower(cands[d]) == cands[d];
    }
    FirstMatchIs(cands, avail, c);
  }

  /** The first match is the candidate that is available after none before it is. */
  lemma FirstMatchIs(cands: seq<string>, avail: map<string, map<string, Json>>, c: nat)
    requires c < |cands| && Lower(cands[c]) in avail
    requires forall d :: 0 <= d < c ==> Lower(cands[d]) !in avail
    ensures FirstMatch(cands, avail) == Some(c)
  {
  }

  /** When no candidate is an available name, the result is `NoTransition` with every listed name. */
  lemma ResolveNoMatch(data: Json, issueId: string, target: Status, ts: seq<Json>,
                       pairs: seq<(string, map<string, Json>)>)
    requires TransitionList(data) == Ok(ts) && Named(ts) == Ok(pairs)
    requires forall d, j :: 0 <= d < |Candidates(target)| && 0 <= j < |pairs| ==> pairs[j].0 != Candidates(target)[d]
    ensures Resolve(data, issueId, target) == Err(NoTransition(issueId, target, Dedup(Names(pairs))))
    ensures forall j :: 0 <= j < |pairs| ==> pairs[j].0 in Resolve(data, issueId, target).error.available
  {
    var cands := Candidates(target);
    var avail := ByName(pairs);
    CandidatesLower(target);
    forall d | 0 <= d < |cands|
      ensures Lower(cands[d]) !in avail
    {
      assert Lower(cands[d]) == cands[d];
    }
    ResolveWithoutMatch(data, issueId, target, ts, pairs);
    var names := Names(pairs);
    DedupSpec(names);
    forall j | 0 <= j < |pairs|
      ensures pairs[j].0 in Dedup(names)
    {
      assert names[j] == pairs[j].0;
    }
  }

  /**
   * The requests of a transition: the listing GET, then one POST carrying
   * the resolved id exactly when resolution succeeds; no POST otherwise.
   */
  lemma TransitionRequests(remote: Remote, history: seq<Request>, issueId: string, target: Status)
    ensures var r := TransitionRun(remote, history, issueId, target);
      var path := TransitionsPath(issueId);
      var data := JsonResult(path, remote(history, Get(path, map[])));
      && 1 <= |r.requests| <= 2
      && r.requests[0] == Get(path, map[])
      && (|r.requests| == 2 <==> data.Ok? && Resolve(data.value, issueId, target).Ok?)
      && (|r.requests| == 2 ==> r.requests[1] == Post(path, TransitionBody(Resolve(data.value, issueId, target).value)))
      && (r.outcome.Ok? ==> |r.requests| == 2)
  {
  }

  /** A listing body whose transitions are the given (id, name) pairs. */
  function Listing(entries: seq<(string, string)>): Json {
    JObj(map["transitions" := JArr(seq(|entries|, i requires 0 <= i < |entries| =>
      JObj(map["id" := JStr(entries[i].0), "name" := JStr(entries[i].1)])))])
  }

  function Entry(id: string, name: string): map<string, Json> {
    map["id" := JStr(id), "name" := JStr(name)]
  }

  /** A two-entry listing reads as its two transitions under their lower-cased names. */
  lemma TwoEntryListing(id0: string, name0: string, id1: string, name1: string)
    ensures TransitionList(Listing([(id0, name0), (id1, name1)])) == Ok([JObj(Entry(id0, name0)), JObj(Entry(id1, name1))])
    ensures Named([JObj(Entry(id0, name0)), JObj(Entry(id1, name1))])
      == Ok([(Lower(name0), Entry(id0, name0)), (Lower(name1), Entry(id1, name1))])
  {
    var ts := [JObj(Entry(id0, name0)), JObj(Entry(id1, name1))];
    assert Listing([(id0, name0), (id1, name1)]).fields["transitions"].items == ts;
    assert NameOf(JObj(Entry(id0, name0))) == Ok(Lower(name0));
    assert NameOf(JObj(Entry(id1, name1))) == Ok(Lower(name1));
    assert ts[1..] == [JObj(Entry(id1, name1))];
    NamedOne(JObj(Entry(id1, name1)), Lower(name1));
    assert Named(ts[1..]) == Ok([(Lower(name1), Entry(id1, name1))]);
    assert [(Lower(name0), Entry(id0, name0))] + [(Lower(name1), Entry(id1, name1))]
      == [(Lower(name0), Entry(id0, name0)), (Lower(name1), Entry(id1, name1))];
  }

  lemma NamedOne(t: Json, name: string)
    requires t.JObj? && NameOf(t) == Ok(name)
    ensures Named([t]) == Ok([(name, t.fields)])
  {
    assert [t][1..] == [];
    assert Named([t][1..]) == Ok([]);
    assert [(name, t.fields)] + [] == [(name, t.fields)];
  }

  /** With "Start Progress" (11) and "Done" (21) available, IN_PROGRESS resolves to id 11. */
  lemma StartProgressExample()
    ensures Resolve(Listing([("11", "Start Progress"), ("21", "Done")]), "TEST-5", InProgress) == Ok(JStr("11"))
  {
    TwoEntryListing("11", "Start Progress", "21", "Done");
    var pairs := [("start progress", Entry("11", "Start Progress")), ("done", Entry("21", "Done"))];
    ExampleNamesLower();
    ResolvePicksFirstCandidate(Listing([("11", "Start Progress"), ("21", "Done")]), "TEST-5", InProgress,
      [JObj(Entry("11", "Start Progress")), JObj(Entry("21", "Done"))], pairs, 1, 0);
  }

  lemma ExampleNamesLower()
    ensures Lower("Start Progress") == "start progress"
    ensures Lower("Done") == "done"
    ensures Lower("To Do") == "to do"
  {
  }

  /** With only "Start Progress" and "To Do" available, COMPLETE has no transition. */
  lemma NoCompleteExample()
    ensures Resolve(Listing([("11", "Start Progress"), ("21", "To Do")]), "TEST-5", Complete)
      == Err(NoTransition("TEST-5", Complete, ["start progress", "to do"]))
  {
    var data := Listing([("11", "Start Progress"), ("21", "To Do")]);
    var ts := [JObj(Entry("11", "Start Progress")), JObj(Entry("21", "To Do"))];
    TwoEntryListing("11", "Start Progress", "21", "To Do");
    ExampleNamesLower();
    var pairs := [("start progress", Entry("11", "Start Progress")), ("to do", Entry("21", "To Do"))];
    NoCompleteAmong(pairs);
    ResolveWithoutMatch(data, "TEST-5", Complete, ts, pairs);
  }

  /** The example's two names offer no COMPLETE candidate and are listed as they are. */
  lemma NoCompleteAmong(pairs: seq<(string, map<string, Json>)>)
    requires pairs == [("start progress", Entry("11", "Start Progress")), ("to do", Entry("21", "To Do"))]
    ensures FirstMatch(Candidates(Complete), ByName(pairs)) == None
    ensures Dedup(Names(pairs)) == ["start progress", "to do"]
  {
    var avail := ByName(pairs);
    forall k | k in avail
      ensures |k| in {14, 5}
    {
      var i :| 0 <= i < |pairs| && pairs[i].0 == k;
    }
    NoCandidateAmong(avail, Complete);
    NamesPair(pairs[0], pairs[1]);
    assert pairs == [pairs[0], pairs[1]];
    DedupDistinctPair(Names(pairs));
  }

  lemma NamesPair(p0: (string, map<string, Json>), p1: (string, map<string, Json>))
    ensures Names([p0, p1]) == [p0.0, p1.0]
  {
  }

  /** No available candidate: the error lists the distinct names in order. */
  lemma ResolveWithoutMatch(data: Json, issueId: string, target: Status, ts: seq<Json>,
                            pairs: seq<(string, map<string, Json>)>)
    requires TransitionList(data) == Ok(ts) && Named(ts) == Ok(pairs)
    requires FirstMatch(Candidates(target), ByName(pairs)) == None
    ensures Resolve(data, issueId, target) == Err(NoTransition(issueId, target, Dedup(Names(pairs))))
  {
  }

  lemma NoCandidateAmong(avail: map<string, map<string, Json>>, target: Status)
    requires forall k :: k in avail ==> |k| in {14, 5}
    requires target == Complete
    ensures FirstMatch(Candidates(target), avail) == None
  {
    var cands := Candidates(target);
    assert forall d :: 0 <= d < |cands| ==> |cands[d]| !in {14, 5};
    NoneByLength(cands, avail, {14, 5});
  }

  lemma NoneByLength(cands: seq<string>, avail: map<string, map<string, Json>>, lengths: set<nat>)
    requires forall k :: k in avail ==> |k| in lengths
    requires forall d :: 0 <= d < |cands| ==> |cands[d]| !in lengths
    ensures FirstMatch(cands, avail) == None
  {
    forall d | 0 <= d < |cands|
      ensures Lower(cands[d]) !in avail
    {
      assert |Lower(cands[d])| == |cands[d]|;
    }
  }

  lemma DedupDistinctPair(names: seq<string>)
    requires |names| == 2 && names[0] != names[1]
    ensures Dedup(names) == names
  {
    var first := names[..1];
    assert first[..0] == [] && first[0] == names[0];
    assert Dedup(first[..0]) == [];
    assert Dedup(first) == [names[0]];
    assert names[..|names| - 1] == first && names[|names| - 1] == names[1];
    assert Dedup(names) == [names[0]] + [names[1]];
  }
}
