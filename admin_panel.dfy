/** The admin page of client/src/pages/AdminPanel.js: the overview counts, the list of
    seniors, the matches fetched per senior on demand, and the per-senior status line that
    reports a manually created session. */
module AdminPanel {
  import opened Common
  import Api

  /** A senior as `listSeniors` returns it; only the id takes part in the page's logic. */
  datatype SeniorRow = SeniorRow(seniorId: int, firstName: string, lastName: string, needs: Option<seq<string>>)

  /** A match row as `getMatchesForSenior` returns it. */
  datatype AdminMatch = AdminMatch(studentId: int, name: string, totalScore: real, distanceKm: real,
                                   commonSkills: Option<seq<string>>)

  /** The lengths of the four lists of the overview; `None` for a missing list. */
  datatype Overview = Overview(students: Option<nat>, seniors: Option<nat>, tasks: Option<nat>, sessions: Option<nat>)

  /** `overview.x?.length ?? 0`. */
  function Count(length: Option<nat>): (n: nat)
    ensures length.None? ==> n == 0
    ensures length.Some? ==> n == length.value
  {
    if length.Some? then length.value else 0
  }

  /** `list.join(", ")`: the items in order with ", " between neighbours, so that two or
      more items never join to the empty string (JoinCommaAppend adds items at the end). */
  function JoinComma(items: seq<string>): (r: string)
    ensures items == [] ==> r == []
    ensures |items| == 1 ==> r == items[0]
    ensures |items| >= 2 ==> |r| >= 2 * (|items| - 1)
  {
    if items == [] then []
    else if |items| == 1 then items[0]
    else items[0] + ", " + JoinComma(items[1..])
  }

  /** Joining one more item puts ", " and the item after the join of the others. */
  lemma {:induction false} JoinCommaAppend(items: seq<string>, x: string)
    requires items != []
    ensures JoinComma(items + [x]) == JoinComma(items) + ", " + x
  {
    var all := items + [x];
    assert all[0] == items[0] && all[1..] == items[1..] + [x];
    if |items| > 1 {
      JoinCommaAppend(items[1..], x);
      assert items[0] + ", " + (JoinComma(items[1..]) + ", " + x) == (items[0] + ", " + JoinComma(items[1..])) + ", " + x;
    } else {
      assert all[1..] == [x];
    }
  }

  /** The "Needs:" line of a senior: the needs joined, or "None" when the list is missing
      or joins to nothing. */
  function NeedsText(needs: Option<seq<string>>): (r: string)
    ensures r != []
    ensures needs.None? || needs == Some([]) ==> r == "None"
    ensures needs.Some? && |needs.value| == 1 ==> r == if needs.value[0] == [] then "None" else needs.value[0]
    ensures needs.Some? && |needs.value| >= 2 ==> r == JoinComma(needs.value)
  {
    var joined := if needs.Some? then JoinComma(needs.value) else [];
    if joined == [] then "None" else joined
  }

  datatype AdminState = AdminState(
    seniors: seq<SeniorRow>,
    matchesBySenior: map<int, seq<AdminMatch>>,
    loadingSeniorId: Option<int>,
    statusBySenior: map<int, string>,
    error: string,
    overview: Option<Overview>)

  const InitialState: AdminState := AdminState([], map[], None, map[], "", None)

  datatype Outcome = Outcome(state: AdminState, effects: seq<Api.Effect>)

  const LoadFailed: string := "Could not load seniors."

  /** The mount effect: the overview, then the seniors, each applied only while the page is
      still mounted (`unmountAfter` fetches had settled when it was left); either failure
      reports the load error. */
  function Loaded(s: AdminState, overviewResponse: Result<Overview>,
                  seniorsResponse: Result<Option<seq<SeniorRow>>>, unmountAfter: nat): (o: Outcome)
    ensures |o.effects| >= 1 && o.effects[0] == Api.Request(Api.FetchAdminOverview)
    ensures unmountAfter == 0 ==> o.state == s
    ensures unmountAfter >= 2 && overviewResponse.Ok? && seniorsResponse.Ok? ==>
              o.state == s.(overview := Some(overviewResponse.value),
                            seniors := if seniorsResponse.value.Some? then seniorsResponse.value.value else [])
              && o.effects == [Api.Request(Api.FetchAdminOverview), Api.Request(Api.ListSeniors)]
    ensures unmountAfter >= 1 && overviewResponse.Err? ==> o == Outcome(s.(error := LoadFailed), o.effects[..1])
    ensures unmountAfter == 1 && overviewResponse.Ok? ==>
              o == Outcome(s.(overview := Some(overviewResponse.value)),
                           [Api.Request(Api.FetchAdminOverview), Api.Request(Api.ListSeniors)])
    ensures unmountAfter >= 2 && overviewResponse.Ok? && seniorsResponse.Err? ==>
              o.state == s.(overview := Some(overviewResponse.value), error := LoadFailed)
    ensures o.state.error != s.error ==> o.state.error == LoadFailed
    ensures o.state.matchesBySenior == s.matchesBySenior && o.state.statusBySenior == s.statusBySenior
  {
    var e1 := [Api.Request(Api.FetchAdminOverview)];
    match overviewResponse
    case Err(_) => Outcome(if unmountAfter < 1 then s else s.(error := LoadFailed), e1)
    case Ok(ov) =>
      if unmountAfter < 1 then Outcome(s, e1)
      else
        var s1 := s.(overview := Some(ov));
        var e2 := e1 + [Api.Request(Api.ListSeniors)];
        match seniorsResponse
        case Err(_) => Outcome(if unmountAfter < 2 then s1 else s1.(error := LoadFailed), e2)
        case Ok(list) =>
          if unmountAfter < 2 then Outcome(s1, e2)
          else Outcome(s1.(seniors := if list.Some? then list.value else []), e2)
  }

  /** A response that settles after the cleanup finds `active` false and changes nothing:
      with `unmountAfter` fetches settled before it, the later responses do not matter. */
  lemma LateResponsesIgnored(s: AdminState, ov: Result<Overview>, ov': Result<Overview>,
                             seniors: Result<Option<seq<SeniorRow>>>, seniors': Result<Option<seq<SeniorRow>>>,
                             unmountAfter: nat)
    ensures unmountAfter == 0 ==>
              Loaded(s, ov, seniors, unmountAfter) == Loaded(s, ov', seniors', unmountAfter)
    ensures unmountAfter <= 1 ==> Loaded(s, ov, seniors, unmountAfter) == Loaded(s, ov, seniors', unmountAfter)
  {
  }

  /** `handleFindMatches(seniorId)` before its request settles: the button of that senior is
      busy, the page error and that senior's status line are cleared. */
  function MatchesRequested(s: AdminState, seniorId: int): (r: AdminState)
    ensures r.loadingSeniorId == Some(seniorId) && r.error == []
    ensures seniorId in r.statusBySenior && r.statusBySenior[seniorId] == []
    ensures r.matchesBySenior == s.matchesBySenior && r.seniors == s.seniors
  {
    s.(loadingSeniorId := Some(seniorId), error := [], statusBySenior := s.statusBySenior[seniorId := []])
  }

  /** `handleFindMatches(seniorId)` once settled: only that senior's entry of the matches
      changes (to the returned list, `[]` when missing) and only on success; a failure
      leaves the previous matches shown and reports the error; nobody is busy any more. */
  function MatchesFound(s: AdminState, seniorId: int, response: Result<Option<seq<AdminMatch>>>): (o: Outcome)
    ensures o.effects == [Api.Request(Api.GetMatchesForSenior(seniorId))]
    ensures o.state.loadingSeniorId.None?
    ensures seniorId in o.state.statusBySenior && o.state.statusBySenior[seniorId] == []
    ensures forall k :: k != seniorId ==>
              (k in o.state.statusBySenior <==> k in s.statusBySenior)
              && (k in s.statusBySenior ==> o.state.statusBySenior[k] == s.statusBySenior[k])
    ensures forall k :: k != seniorId ==>
              (k in o.state.matchesBySenior <==> k in s.matchesBySenior)
              && (k in s.matchesBySenior ==> o.state.matchesBySenior[k] == s.matchesBySenior[k])
    ensures response.Ok? ==>
              seniorId in o.state.matchesBySenior
              && o.state.matchesBySenior[seniorId] == (if response.value.Some? then response.value.value else [])
              && o.state.error == []
    ensures response.Err? ==> o.state.matchesBySenior == s.matchesBySenior && o.state.error == "Could not fetch matches."
    ensures o.state.seniors == s.seniors && o.state.overview == s.overview
  {
    var r := MatchesRequested(s, seniorId);
    var sent := [Api.Request(Api.GetMatchesForSenior(seniorId))];
    match response
    case Ok(found) =>
      var matches := if found.Some? then found.value else [];
      Outcome(r.(matchesBySenior := r.matchesBySenior[seniorId := matches], loadingSeniorId := None), sent)
    case Err(_) => Outcome(r.(error := "Could not fetch matches.", loadingSeniorId := None), sent)
  }

  /** Fetching matches for two different seniors gives the same matches in either order. */
  lemma {:induction false} FindMatchesCommute(s: AdminState, a: int, b: int,
                                              ra: Result<Option<seq<AdminMatch>>>,
                                              rb: Result<Option<seq<AdminMatch>>>)
    requires a != b
    ensures MatchesFound(MatchesFound(s, a, ra).state, b, rb).state.matchesBySenior
            == MatchesFound(MatchesFound(s, b, rb).state, a, ra).state.matchesBySenior
  {
    var ab := MatchesFound(MatchesFound(s, a, ra).state, b, rb).state.matchesBySenior;
    var ba := MatchesFound(MatchesFound(s, b, rb).state, a, ra).state.matchesBySenior;
    assert forall k :: k in ab <==> k in ba;
    assert forall k :: k in ab ==> ab[k] == ba[k];
  }

  /** The text of a template literal for an id that may be missing. */
  function IdText(id: Option<int>): (r: string)
    ensures r != []
    ensures id.None? ==> r == "undefined"
    ensures id.Some? ==> r == ShowInt(id.value)
  {
    if id.Some? then ShowInt(id.value) else "undefined"
  }

  /** `handleCreateSession(seniorId, studentId)`: that senior's status line reports the
      new session's id, or the failure; nothing else changes. */
  function SessionCreated(s: AdminState, seniorId: int, studentId: int, response: Result<Option<int>>): (o: Outcome)
    ensures o.effects == [Api.Request(Api.CreateSessionCall(seniorId, studentId))]
    ensures response.Ok? ==>
              o.state == s.(statusBySenior := s.statusBySenior[seniorId := "Session created (ID: " + IdText(response.value) + ")."])
    ensures response.Err? ==>
              o.state == s.(statusBySenior := s.statusBySenior[seniorId := "Could not create session."])
    ensures seniorId in o.state.statusBySenior && o.state.statusBySenior[seniorId] != []
  {
    var sent := [Api.Request(Api.CreateSessionCall(seniorId, studentId))];
    match response
    case Ok(id) => Outcome(s.(statusBySenior := s.statusBySenior[seniorId := "Session created (ID: " + IdText(id) + ")."]), sent)
    case Err(_) => Outcome(s.(statusBySenior := s.statusBySenior[seniorId := "Could not create session."]), sent)
  }

  /** A session report stays until matches are fetched again for that senior. */
  lemma FindMatchesClearsSessionReport(s: AdminState, seniorId: int, studentId: int,
                                       created: Result<Option<int>>, found: Result<Option<seq<AdminMatch>>>)
    ensures var c := SessionCreated(s, seniorId, studentId, created).state;
            c.statusBySenior[seniorId] != []
            && MatchesFound(c, seniorId, found).state.statusBySenior[seniorId] == []
  {
  }

  class AdminPage {
    var seniors: seq<SeniorRow>
    var matchesBySenior: map<int, seq<AdminMatch>>
    var loadingSeniorId: Option<int>
    var statusBySenior: map<int, string>
    var error: string
    var overview: Option<Overview>
    /** Requests sent, in order. */
    var effects: seq<Api.Effect>

    function State(): AdminState
      reads this
    {
      AdminState(seniors, matchesBySenior, loadingSeniorId, statusBySenior, error, overview)
    }

    constructor ()
      ensures State() == InitialState && effects == []
    {
      seniors, matchesBySenior, loadingSeniorId := [], map[], None;
      statusBySenior, error, overview := map[], "", None;
      effects := [];
    }

    method Load(overviewResponse: Result<Overview>, seniorsResponse: Result<Option<seq<SeniorRow>>>,
                unmountAfter: nat)
      modifies this
      ensures State() == Loaded(old(State()), overviewResponse, seniorsResponse, unmountAfter).state
      ensures effects == old(effects) + Loaded(old(State()), overviewResponse, seniorsResponse, unmountAfter).effects
    {
      effects := effects + [Api.Request(Api.FetchAdminOverview)];
      if overviewResponse.Err? {
        if unmountAfter >= 1 {
          error := LoadFailed;
        }
        return;
      }
      if unmountAfter < 1 {
        return;
      }
      overview := Some(overviewResponse.value);
      effects := effects + [Api.Request(Api.ListSeniors)];
      if seniorsResponse.Err? {
        if unmountAfter >= 2 {
          error := LoadFailed;
        }
        return;
      }
      if unmountAfter < 2 {
        return;
      }
      seniors := if seniorsResponse.value.Some? then seniorsResponse.value.value else [];
    }

    /** The click on "Find Matches"; the busy state in between is MatchesRequested. */
    method FindMatches(seniorId: int, response: Result<Option<seq<AdminMatch>>>)
      modifies this
      ensures State() == MatchesFound(old(State()), seniorId, response).state
      ensures effects == old(effects) + MatchesFound(old(State()), seniorId, response).effects
    {
      loadingSeniorId := Some(seniorId);
      error := "";
      statusBySenior := statusBySenior[seniorId := ""];
      effects := effects + [Api.Request(Api.GetMatchesForSenior(seniorId))];
      match response {
        case Ok(found) =>
          matchesBySenior := matchesBySenior[seniorId := if found.Some? then found.value else []];
        case Err(_) =>
          error := "Could not fetch matches.";
      }
      loadingSeniorId := None;
    }

    method CreateSession(seniorId: int, studentId: int, response: Result<Option<int>>)
      modifies this
      ensures State() == SessionCreated(old(State()), seniorId, studentId, response).state
      ensures effects == old(effects) + SessionCreated(old(State()), seniorId, studentId, response).effects
    {
      statusBySenior := statusBySenior[seniorId := ""];
      effects := effects + [Api.Request(Api.CreateSessionCall(seniorId, studentId))];
      match response
      case Ok(id) =>
        statusBySenior := statusBySenior[seniorId := "Session created (ID: " + IdText(id) + ")."];
      case Err(_) =>
        statusBySenior := statusBySenior[seniorId := "Could not create session."];
    }
  }
}
