/** The student home page of client/src/pages/StudentHome.js: the skills and languages
    profile with its checkbox toggles and custom skills, saving preferences, the guarded
    load of profile, selections and matches, and the confirm dialog that selects or
    deselects a senior. */
module StudentHome {
  import opened Common
  import opened Text
  import opened Lists
  import Api

  datatype Profile = Profile(skills: seq<string>, languages: seq<string>)

  const EmptyProfile: Profile := Profile([], [])

  /** A match card as the matches endpoint returns it. */
  datatype Match = Match(
    seniorId: int,
    firstName: string,
    lastName: string,
    totalScore: real,
    distanceKm: real,
    commonSkills: seq<string>)

  /** The values of the five built-in skills. */
  const DefaultSkills: seq<string> := ["tech_support", "groceries", "companionship", "errands", "translation"]

  datatype ProfileField = Skills | Languages

  datatype ConfirmMode = Select | Deselect

  datatype HomeState = HomeState(
    matches: seq<Match>,
    profile: Profile,
    selectedSeniorIds: seq<int>,
    pendingSenior: Option<Match>,
    confirmMode: ConfirmMode,
    confirmOpen: bool,
    showPrefs: bool,
    customSkill: string,
    status: Status)

  const InitialState: HomeState :=
    HomeState([], EmptyProfile, [], None, Select, false, false, "", IdleStatus)

  /** A state change together with the requests, broadcasts and navigations it caused. */
  datatype Outcome = Outcome(state: HomeState, effects: seq<Api.Effect>)

  function FieldOf(p: Profile, field: ProfileField): seq<string> {
    match field
    case Skills => p.skills
    case Languages => p.languages
  }

  /** `toggleListValue(field, value)`: the chosen list is toggled, the other kept. */
  function Toggled(p: Profile, field: ProfileField, value: string): (r: Profile)
    ensures value in FieldOf(r, field) <==> value !in FieldOf(p, field)
    ensures value !in FieldOf(p, field) ==> FieldOf(r, field) == FieldOf(p, field) + [value]
    ensures value in FieldOf(p, field) ==> FieldOf(r, field) == RemoveAll(FieldOf(p, field), value)
    ensures field == Skills ==> r.languages == p.languages
    ensures field == Languages ==> r.skills == p.skills
  {
    match field
    case Skills => p.(skills := Toggle(p.skills, value))
    case Languages => p.(languages := Toggle(p.languages, value))
  }

  /** Ticking a box twice gives the profile back when the value was not there. */
  lemma ToggledTwice(p: Profile, field: ProfileField, value: string)
    requires value !in FieldOf(p, field)
    ensures Toggled(Toggled(p, field, value), field, value) == p
  {
    ToggleTwiceAbsent(FieldOf(p, field), value);
  }

  /** The custom-skill input as a skill value: trimmed, lower-cased, and each run of white
      space turned into one `_` (Text.ReplaceRunsAround and Text.ReplaceRunsOfRun say how). */
  function NormalizeSkill(input: string): (v: string)
    ensures v == [] <==> IsBlank(input)
    ensures NoSpace(v) && ToLower(v) == v
    ensures |v| <= |input|
  {
    var lowered := ToLower(Trim(input));
    var v := ReplaceRuns(lowered, IsSpace, '_');
    ReplaceRunsShape(lowered, IsSpace, '_');
    assert forall k :: 0 <= k < |lowered| ==> LowerChar(lowered[k]) == lowered[k];
    LowerCaseKept(lowered, v);
    v
  }

  /** A normalised skill normalises to itself. */
  lemma NormalizeSkillIdempotent(input: string)
    ensures NormalizeSkill(NormalizeSkill(input)) == NormalizeSkill(input)
  {
    var v := NormalizeSkill(input);
    TrimNoSpace(v);
    ReplaceRunsShape(v, IsSpace, '_');
  }

  /** Two words separated by white space become the lower-cased words joined by one `_`. */
  lemma NormalizeSkillJoinsWords(a: string, gap: string, b: string)
    requires a != [] && b != [] && gap != []
    requires NoSpace(a) && NoSpace(b) && IsBlank(gap)
    ensures NormalizeSkill(a + gap + b) == ToLower(a) + "_" + ToLower(b)
  {
    var x := a + gap + b;
    assert x[0] == a[0] && x[|x| - 1] == b[|b| - 1];
    NormalizeUnpadded(x);
    ToLowerAppend3(a, gap, b);
    LoweredWordsJoin(a, gap, b);
  }

  /** The lower-cased words keep their white space pattern, so the run between them collapses. */
  lemma LoweredWordsJoin(a: string, gap: string, b: string)
    requires a != [] && b != [] && gap != []
    requires NoSpace(a) && NoSpace(b) && IsBlank(gap)
    ensures ReplaceRuns(ToLower(a) + ToLower(gap) + ToLower(b), IsSpace, '_') == ToLower(a) + "_" + ToLower(b)
  {
    LowerKeepsSpaces(a);
    LowerKeepsSpaces(gap);
    LowerKeepsSpaces(b);
    ReplaceRunsJoin(ToLower(a), ToLower(gap), ToLower(b), IsSpace, '_');
  }

  /** Input that neither starts nor ends with white space is only lower-cased and has its
      runs replaced. */
  lemma NormalizeUnpadded(x: string)
    requires x != [] && !IsSpace(x[0]) && !IsSpace(x[|x| - 1])
    ensures NormalizeSkill(x) == ReplaceRuns(ToLower(x), IsSpace, '_')
  {
    TrimUnpadded(x);
  }

  lemma ToLowerAppend3(a: string, gap: string, b: string)
    ensures ToLower(a + gap + b) == ToLower(a) + ToLower(gap) + ToLower(b)
  {
    ToLowerAppend(a + gap, b);
    ToLowerAppend(a, gap);
  }

  /** Lower-casing neither makes nor removes white space. */
  lemma LowerKeepsSpaces(s: string)
    ensures forall i :: 0 <= i < |s| ==> (IsSpace(ToLower(s)[i]) <==> IsSpace(s[i]))
  {
  }

  /** Replacing runs of a lower-cased string by `_` leaves nothing for lower-casing to change. */
  lemma LowerCaseKept(lowered: string, v: string)
    requires forall k :: 0 <= k < |lowered| ==> LowerChar(lowered[k]) == lowered[k]
    requires forall i :: 0 <= i < |v| ==> v[i] == '_' || v[i] in lowered
    ensures ToLower(v) == v
  {
    forall i | 0 <= i < |v| ensures LowerChar(v[i]) == v[i] {
      if v[i] != '_' {
        var k :| 0 <= k < |lowered| && lowered[k] == v[i];
      }
    }
  }

  /** The skills after `addCustomSkill`: unchanged for blank input, otherwise the
      normalised value appended unless present. */
  function SkillsAfterAdd(skills: seq<string>, input: string): (r: seq<string>)
    ensures IsBlank(input) ==> r == skills
    ensures !IsBlank(input) ==> NormalizeSkill(input) in r && r == AppendIfAbsent(skills, NormalizeSkill(input))
    ensures NoDuplicates(skills) ==> NoDuplicates(r)
  {
    if Trim(input) == [] then skills else AppendIfAbsent(skills, NormalizeSkill(input))
  }

  /** The skills after `removeCustomSkill(value)`: the five built-ins cannot be removed. */
  function SkillsAfterRemove(skills: seq<string>, value: string): (r: seq<string>)
    ensures value in DefaultSkills ==> r == skills
    ensures value !in DefaultSkills ==> value !in r && multiset(r) == multiset(skills)[value := 0]
  {
    if value in DefaultSkills then skills else RemoveAll(skills, value)
  }

  /** Removing a freshly added custom skill undoes the addition. */
  lemma RemoveUndoesAdd(skills: seq<string>, input: string)
    requires !IsBlank(input)
    requires NormalizeSkill(input) !in skills && NormalizeSkill(input) !in DefaultSkills
    ensures SkillsAfterRemove(SkillsAfterAdd(skills, input), NormalizeSkill(input)) == skills
  {
    var v := NormalizeSkill(input);
    RemoveAllAppend(skills, [v], v);
    assert RemoveAll([v], v) == [];
  }

  /** `savePrefs`: refused without skills; otherwise the profile is sent, the returned
      profile installed and, when it has skills, the matches refetched. */
  function PrefsSaved(s: HomeState, response: Result<Profile>, matchesResponse: Result<Option<seq<Match>>>)
    : (o: Outcome)
    ensures s.profile.skills == [] ==>
              o.effects == [] && o.state == s.(status := Status(Error, "Select at least one skill first."))
    ensures s.profile.skills != [] ==>
              |o.effects| >= 1
              && o.effects[0] == Api.Request(Api.UpdateStudentProfile(s.profile.skills, s.profile.languages))
    ensures s.profile.skills != [] && response.Err? ==>
              o.state == s.(status := Status(Error, "Could not save preferences.")) && |o.effects| == 1
    ensures o.state.status.kind == Success ==>
              s.profile.skills != [] && response.Ok? && o.state.profile == response.value && !o.state.showPrefs
    ensures s.profile.skills != [] && response.Ok? && response.value.skills == [] ==>
              o.state == s.(profile := response.value, status := Status(Success, "Preferences saved."), showPrefs := false)
              && |o.effects| == 1
    ensures s.profile.skills != [] && response.Ok? && response.value.skills != [] ==>
              o.effects == [Api.Request(Api.UpdateStudentProfile(s.profile.skills, s.profile.languages)),
                            Api.Request(Api.FetchStudentMatches)]
              && (matchesResponse.Ok? ==>
                    o.state == s.(profile := response.value,
                                  matches := if matchesResponse.value.Some? then matchesResponse.value.value else [],
                                  status := Status(Success, "Preferences saved."), showPrefs := false))
              && (matchesResponse.Err? ==>
                    o.state == s.(profile := response.value, status := Status(Error, "Could not save preferences.")))
  {
    if s.profile.skills == [] then
      Outcome(s.(status := Status(Error, "Select at least one skill first.")), [])
    else
      var sent := [Api.Request(Api.UpdateStudentProfile(s.profile.skills, s.profile.languages))];
      var failed := Status(Error, "Could not save preferences.");
      match response
      case Err(_) => Outcome(s.(status := failed), sent)
      case Ok(student) =>
        var s1 := s.(profile := student);
        var saved := Status(Success, "Preferences saved.");
        if student.skills != [] then
          var sent2 := sent + [Api.Request(Api.FetchStudentMatches)];
          match matchesResponse
          case Err(_) => Outcome(s1.(status := failed), sent2)
          case Ok(m) =>
            Outcome(s1.(matches := if m.Some? then m.value else [], status := saved, showPrefs := false), sent2)
        else Outcome(s1.(status := saved, showPrefs := false), sent)
  }

  const LoadFailed: Status := Status(Error, "Could not load matches.")

  /** The load effect. `unmountAfter` is the number of fetches that had settled when the
      cleanup ran: a fetch settling later finds `active` false and the load stops there. */
  function Loaded(s: HomeState, loading: bool, hasUser: bool,
                  profileResponse: Result<Option<Profile>>,
                  selectionResponse: Result<Option<seq<int>>>,
                  matchesResponse: Result<Option<seq<Match>>>,
                  unmountAfter: nat): (o: Outcome)
    ensures loading || !hasUser ==> o == Outcome(s, [])
    ensures unmountAfter == 0 ==> o.state == s
    ensures !loading && hasUser && unmountAfter >= 1 && profileResponse.Err? ==>
              o == Outcome(s.(status := LoadFailed), [Api.Request(Api.FetchStudentProfile)])
    ensures o.state.status != s.status ==> o.state.status == LoadFailed
    ensures !loading && hasUser && unmountAfter >= 3 && profileResponse.Ok? && selectionResponse.Ok?
            && matchesResponse.Ok? && profileResponse.value.Some? && profileResponse.value.value.skills != [] ==>
              var selections := selectionResponse.value;
              o.state == s.(profile := profileResponse.value.value,
                            selectedSeniorIds := if selections.Some? && selections.value != [] then selections.value
                                                 else s.selectedSeniorIds,
                            matches := if matchesResponse.value.Some? then matchesResponse.value.value else [])
              && o.effects == [Api.Request(Api.FetchStudentProfile), Api.Request(Api.FetchStudentSelection),
                               Api.Request(Api.FetchStudentMatches)]
    ensures o.state.selectedSeniorIds != s.selectedSeniorIds ==>
              selectionResponse.Ok? && selectionResponse.value.Some? && selectionResponse.value.value != []
              && o.state.selectedSeniorIds == selectionResponse.value.value
    ensures Api.Request(Api.FetchStudentMatches) in o.effects ==>
              profileResponse.Ok? && profileResponse.value.Some? && profileResponse.value.value.skills != []
    ensures o.state.customSkill == s.customSkill && o.state.confirmOpen == s.confirmOpen
            && o.state.pendingSenior == s.pendingSenior
  {
    if loading || !hasUser then Outcome(s, [])
    else
      var e1 := [Api.Request(Api.FetchStudentProfile)];
      match profileResponse
      case Err(_) => Outcome(if unmountAfter < 1 then s else s.(status := LoadFailed), e1)
      case Ok(student) =>
        if unmountAfter < 1 then Outcome(s, e1)
        else
          var s1 := s.(profile := if student.Some? then student.value else EmptyProfile);
          var e2 := e1 + [Api.Request(Api.FetchStudentSelection)];
          match selectionResponse
          case Err(_) => Outcome(if unmountAfter < 2 then s1 else s1.(status := LoadFailed), e2)
          case Ok(selections) =>
            if unmountAfter < 2 then Outcome(s1, e2)
            else
              var s2 := if selections.Some? && |selections.value| > 0
                        then s1.(selectedSeniorIds := selections.value) else s1;
              if student.Some? && |student.value.skills| > 0 then
                var e3 := e2 + [Api.Request(Api.FetchStudentMatches)];
                match matchesResponse
                case Err(_) => Outcome(if unmountAfter < 3 then s2 else s2.(status := LoadFailed), e3)
                case Ok(m) =>
                  Outcome(if unmountAfter < 3 then s2 else s2.(matches := if m.Some? then m.value else []), e3)
              else Outcome(s2.(matches := []), e2)
  }

  /** A profile without skills clears the matches without asking for them. */
  lemma LoadWithoutSkills(s: HomeState, student: Profile, selections: Option<seq<int>>,
                          matchesResponse: Result<Option<seq<Match>>>, unmountAfter: nat)
    requires student.skills == [] && unmountAfter >= 2
    ensures var o := Loaded(s, false, true, Ok(Some(student)), Ok(selections), matchesResponse, unmountAfter);
            o.state.matches == [] && o.state.profile == student
            && o.effects == [Api.Request(Api.FetchStudentProfile), Api.Request(Api.FetchStudentSelection)]
  {
  }

  /** A response that settles after the cleanup finds `active` false and changes nothing:
      with `unmountAfter` fetches settled before it, the later responses do not matter. */
  lemma LateResponsesIgnored(s: HomeState, loading: bool, hasUser: bool,
                             p: Result<Option<Profile>>, p': Result<Option<Profile>>,
                             sel: Result<Option<seq<int>>>, sel': Result<Option<seq<int>>>,
                             m: Result<Option<seq<Match>>>, m': Result<Option<seq<Match>>>, unmountAfter: nat)
    ensures unmountAfter == 0 ==>
              Loaded(s, loading, hasUser, p, sel, m, unmountAfter) == Loaded(s, loading, hasUser, p', sel', m', unmountAfter)
    ensures unmountAfter <= 1 ==>
              Loaded(s, loading, hasUser, p, sel, m, unmountAfter) == Loaded(s, loading, hasUser, p, sel', m', unmountAfter)
    ensures unmountAfter <= 2 ==>
              Loaded(s, loading, hasUser, p, sel, m, unmountAfter) == Loaded(s, loading, hasUser, p, sel, m', unmountAfter)
  {
  }

  /** Clicking a match card: select it unless it is already selected. */
  function Opened(s: HomeState, m: Match): (r: HomeState)
    ensures r.pendingSenior == Some(m) && r.confirmOpen
    ensures r.confirmMode == Deselect <==> m.seniorId in s.selectedSeniorIds
  {
    s.(pendingSenior := Some(m),
       confirmMode := if m.seniorId in s.selectedSeniorIds then Deselect else Select,
       confirmOpen := true)
  }

  /** The confirm button: the request for the mode, the bookkeeping on success, the
      error message on failure, and in every case the dialog closed. */
  function Confirmed(s: HomeState, response: Result<()>): (o: Outcome)
    requires s.pendingSenior.Some?
    ensures !o.state.confirmOpen && o.state.pendingSenior.None?
    ensures var id := s.pendingSenior.value.seniorId;
            && (s.confirmMode == Select && response.Ok? ==>
                  o.state.selectedSeniorIds == AppendIfAbsent(s.selectedSeniorIds, id)
                  && o.effects == [Api.Request(Api.SelectSeniorCall(id)), Api.Broadcast(Api.SelectionUpdated),
                                   Api.Navigate("/dashboard")])
            && (s.confirmMode == Deselect && response.Ok? ==>
                  o.state.selectedSeniorIds == RemoveAll(s.selectedSeniorIds, id)
                  && o.effects == [Api.Request(Api.DeselectSeniorCall(id)), Api.Broadcast(Api.SelectionUpdated)])
            && (response.Err? ==> o.state.selectedSeniorIds == s.selectedSeniorIds && |o.effects| == 1
                                  && o.state.status.kind == Error)
  {
    var id := s.pendingSenior.value.seniorId;
    var closed := s.(confirmOpen := false, pendingSenior := None);
    if s.confirmMode == Select then
      var sent := [Api.Request(Api.SelectSeniorCall(id))];
      if response.Ok? then
        Outcome(closed.(selectedSeniorIds := AppendIfAbsent(s.selectedSeniorIds, id),
                        status := Status(Success, "Senior selected.")),
                sent + [Api.Broadcast(Api.SelectionUpdated), Api.Navigate("/dashboard")])
      else Outcome(closed.(status := Status(Error, "Could not select senior.")), sent)
    else
      var sent := [Api.Request(Api.DeselectSeniorCall(id))];
      if response.Ok? then
        Outcome(closed.(selectedSeniorIds := RemoveAll(s.selectedSeniorIds, id),
                        status := Status(Success, "Senior removed.")),
                sent + [Api.Broadcast(Api.SelectionUpdated)])
      else Outcome(closed.(status := Status(Error, "Could not remove senior.")), sent)
  }

  /** The selected ids never gain a duplicate through the dialog. */
  lemma ConfirmKeepsNoDuplicates(s: HomeState, response: Result<()>)
    requires s.pendingSenior.Some? && NoDuplicates(s.selectedSeniorIds)
    ensures NoDuplicates(Confirmed(s, response).state.selectedSeniorIds)
  {
    if s.confirmMode == Deselect && response.Ok? {
      RemoveAllNoDuplicates(s.selectedSeniorIds, s.pendingSenior.value.seniorId);
    }
  }

  /** Selecting a card that is not selected and then confirming adds it at the end; opening
      it again offers to remove it. */
  lemma SelectThenReopen(s: HomeState, m: Match)
    requires m.seniorId !in s.selectedSeniorIds
    ensures var o := Confirmed(Opened(s, m), Ok(()));
            o.state.selectedSeniorIds == s.selectedSeniorIds + [m.seniorId]
            && Opened(o.state, m).confirmMode == Deselect
  {
  }

  class StudentHomePage {
    var matches: seq<Match>
    var profile: Profile
    var selectedSeniorIds: seq<int>
    var pendingSenior: Option<Match>
    var confirmMode: ConfirmMode
    var confirmOpen: bool
    var showPrefs: bool
    var customSkill: string
    var status: Status
    /** Requests sent, broadcasts and navigations, in order. */
    var effects: seq<Api.Effect>

    function State(): HomeState
      reads this
    {
      HomeState(matches, profile, selectedSeniorIds, pendingSenior, confirmMode, confirmOpen,
                showPrefs, customSkill, status)
    }

    constructor ()
      ensures State() == InitialState && effects == []
    {
      matches, profile, selectedSeniorIds, pendingSenior := [], EmptyProfile, [], None;
      confirmMode, confirmOpen, showPrefs, customSkill, status := Select, false, false, "", IdleStatus;
      effects := [];
    }

    method ToggleListValue(field: ProfileField, value: string)
      modifies this
      ensures State() == old(State()).(profile := Toggled(old(profile), field, value))
      ensures effects == old(effects)
    {
      var has := value in FieldOf(profile, field);
      match field
      case Skills =>
        profile := profile.(skills := if has then RemoveAll(profile.skills, value) else profile.skills + [value]);
      case Languages =>
        profile := profile.(languages := if has then RemoveAll(profile.languages, value) else profile.languages + [value]);
    }

    method AddCustomSkill()
      modifies this
      ensures IsBlank(old(customSkill)) ==> State() == old(State())
      ensures !IsBlank(old(customSkill)) ==>
                State() == old(State()).(profile := old(profile).(skills := SkillsAfterAdd(old(profile.skills), old(customSkill))),
                                         customSkill := "")
      ensures effects == old(effects)
    {
      var raw := Trim(customSkill);
      if raw == [] {
        return;
      }
      var normalized := ReplaceRuns(ToLower(raw), IsSpace, '_');
      var next := if normalized in profile.skills then profile.skills else profile.skills + [normalized];
      profile := profile.(skills := next);
      customSkill := "";
    }

    method RemoveCustomSkill(value: string)
      modifies this
      ensures State() == old(State()).(profile := old(profile).(skills := SkillsAfterRemove(old(profile.skills), value)))
      ensures effects == old(effects)
    {
      if value in DefaultSkills {
        return;
      }
      profile := profile.(skills := RemoveAll(profile.skills, value));
    }

    method SavePrefs(response: Result<Profile>, matchesResponse: Result<Option<seq<Match>>>)
      modifies this
      ensures State() == PrefsSaved(old(State()), response, matchesResponse).state
      ensures effects == old(effects) + PrefsSaved(old(State()), response, matchesResponse).effects
    {
      if |profile.skills| == 0 {
        status := Status(Error, "Select at least one skill first.");
        return;
      }
      status := Status(Loading, "Saving preferences...");
      effects := effects + [Api.Request(Api.UpdateStudentProfile(profile.skills, profile.languages))];
      if response.Err? {
        status := Status(Error, "Could not save preferences.");
        return;
      }
      profile := response.value;
      if |response.value.skills| > 0 {
        effects := effects + [Api.Request(Api.FetchStudentMatches)];
        if matchesResponse.Err? {
          status := Status(Error, "Could not save preferences.");
          return;
        }
        matches := if matchesResponse.value.Some? then matchesResponse.value.value else [];
      }
      status := Status(Success, "Preferences saved.");
      showPrefs := false;
    }

    method Load(loading: bool, hasUser: bool,
                profileResponse: Result<Option<Profile>>,
                selectionResponse: Result<Option<seq<int>>>,
                matchesResponse: Result<Option<seq<Match>>>,
                unmountAfter: nat)
      modifies this
      ensures State() == Loaded(old(State()), loading, hasUser, profileResponse, selectionResponse,
                                matchesResponse, unmountAfter).state
      ensures effects == old(effects) + Loaded(old(State()), loading, hasUser, profileResponse,
                                               selectionResponse, matchesResponse, unmountAfter).effects
    {
      if loading || !hasUser {
        return;
      }
      effects := effects + [Api.Request(Api.FetchStudentProfile)];
      if profileResponse.Err? {
        if unmountAfter >= 1 {
          status := LoadFailed;
        }
        return;
      }
      if unmountAfter < 1 {
        return;
      }
      var student := profileResponse.value;
      profile := if student.Some? then student.value else EmptyProfile;
      effects := effects + [Api.Request(Api.FetchStudentSelection)];
      if selectionResponse.Err? {
        if unmountAfter >= 2 {
          status := LoadFailed;
        }
        return;
      }
      if unmountAfter < 2 {
        return;
      }
      var selections := selectionResponse.value;
      if selections.Some? && |selections.value| > 0 {
        selectedSeniorIds := selections.value;
      }
      if student.Some? && |student.value.skills| > 0 {
        effects := effects + [Api.Request(Api.FetchStudentMatches)];
        if matchesResponse.Err? {
          if unmountAfter >= 3 {
            status := LoadFailed;
          }
          return;
        }
        if unmountAfter < 3 {
          return;
        }
        matches := if matchesResponse.value.Some? then matchesResponse.value.value else [];
      } else {
        matches := [];
      }
    }

    method OpenConfirm(m: Match)
      modifies this
      ensures State() == Opened(old(State()), m)
      ensures effects == old(effects)
    {
      pendingSenior := Some(m);
      confirmMode := if m.seniorId in selectedSeniorIds then Deselect else Select;
      confirmOpen := true;
    }

    method Cancel()
      modifies this
      ensures State() == old(State()).(confirmOpen := false, pendingSenior := None)
      ensures effects == old(effects)
    {
      confirmOpen := false;
      pendingSenior := None;
    }

    /** The confirm button, shown only while a senior is pending. */
    method Confirm(response: Result<()>)
      requires pendingSenior.Some?
      modifies this
      ensures State() == Confirmed(old(State()), response).state
      ensures effects == old(effects) + Confirmed(old(State()), response).effects
    {
      var id := pendingSenior.value.seniorId;
      if confirmMode == Select {
        effects := effects + [Api.Request(Api.SelectSeniorCall(id))];
        if response.Ok? {
          selectedSeniorIds := if id in selectedSeniorIds then selectedSeniorIds else selectedSeniorIds + [id];
          status := Status(Success, "Senior selected.");
          effects := effects + [Api.Broadcast(Api.SelectionUpdated), Api.Navigate("/dashboard")];
        } else {
          status := Status(Error, "Could not select senior.");
        }
      } else {
        effects := effects + [Api.Request(Api.DeselectSeniorCall(id))];
        if response.Ok? {
          selectedSeniorIds := RemoveAll(selectedSeniorIds, id);
          status := Status(Success, "Senior removed.");
          effects := effects + [Api.Broadcast(Api.SelectionUpdated)];
        } else {
          status := Status(Error, "Could not remove senior.");
        }
      }
      confirmOpen := false;
      pendingSenior := None;
    }
  }
}
