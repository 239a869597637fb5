/** The senior home page of client/src/pages/SeniorHome.js: needs kept as tasks and
    toggled through checkboxes that compare normalised task texts, custom tasks, the
    language preferences, and the guarded load of tasks, profile and notifications. */
module SeniorHome {
  import opened Common
  import opened Text
  import opened Lists
  import Api
  import RoleDashboard

  /** A task as the tasks endpoint returns it; `task_text` may be missing. */
  datatype Task = Task(taskId: int, taskText: Option<string>)

  /** The values of the ten built-in needs. */
  const NeedValues: seq<string> := [
    "grocery", "shopping", "companionship", "walking", "errands",
    "translation", "tech_help", "light_housekeeping", "meal_prep", "medication_pickup"]

  /** `normalizeValue`: lower-case, each run of white space to `_`, then each run of
      hyphens to `_`. */
  function NormalizeValue(value: string): string {
    ReplaceRuns(ReplaceRuns(ToLower(value), IsSpace, '_'), IsHyphen, '_')
  }

  /** The normalised value is lower-case and holds no white space and no hyphen, is no
      longer than the value, and is empty only for the empty value (how the runs are
      replaced is Text.ReplaceRunsAround and Text.ReplaceRunsOfRun). */
  lemma NormalizeValueShape(value: string)
    ensures var r := NormalizeValue(value);
            NoSpace(r) && (forall i :: 0 <= i < |r| ==> !IsHyphen(r[i])) && ToLower(r) == r
            && |r| <= |value| && (r == [] <==> value == [])
  {
    var lowered := ToLower(value);
    var spaced := ReplaceRuns(lowered, IsSpace, '_');
    var v := ReplaceRuns(spaced, IsHyphen, '_');
    ReplaceRunsShape(lowered, IsSpace, '_');
    ReplaceRunsShape(spaced, IsHyphen, '_');
    forall i | 0 <= i < |v| ensures !IsSpace(v[i]) && LowerChar(v[i]) == v[i] {
      if v[i] != '_' {
        var k :| 0 <= k < |spaced| && spaced[k] == v[i];
        var m :| 0 <= m < |lowered| && lowered[m] == spaced[k];
      }
    }
  }

  /** A normalised value normalises to itself. */
  lemma NormalizeValueIdempotent(value: string)
    ensures NormalizeValue(NormalizeValue(value)) == NormalizeValue(value)
  {
    var v := NormalizeValue(value);
    NormalizeValueShape(value);
    ReplaceRunsShape(v, IsSpace, '_');
    ReplaceRunsShape(v, IsHyphen, '_');
  }

  /** `task.task_text || ""`. */
  function TextOf(task: Task): string {
    if task.taskText.Some? then task.taskText.value else []
  }

  predicate MatchesNeed(task: Task, normalized: string) {
    NormalizeValue(TextOf(task)) == normalized
  }

  /** `formatLabel`, which answers "" for a falsy value before doing anything else. */
  function LabelOf(value: Option<string>): (r: string)
    ensures value.None? || value == Some([]) ==> r == []
    ensures value.Some? ==> r == FormatLabel(value.value)
  {
    if value.None? || value.value == [] then []
    else FormatLabel(value.value)
  }

  /** `tasks.find(...)`: the position of the first task whose text normalises to `normalized`. */
  function FindTask(tasks: seq<Task>, normalized: string): (r: Option<nat>)
    ensures r.Some? ==> r.value < |tasks| && MatchesNeed(tasks[r.value], normalized)
                        && forall j :: 0 <= j < r.value ==> !MatchesNeed(tasks[j], normalized)
    ensures r.None? <==> forall j :: 0 <= j < |tasks| ==> !MatchesNeed(tasks[j], normalized)
  {
    FindFirst(tasks, task => MatchesNeed(task, normalized))
  }

  /** `isChecked` of the checkbox for `value`: some task normalises as the value does. */
  predicate IsChecked(tasks: seq<Task>, value: string) {
    exists j :: 0 <= j < |tasks| && MatchesNeed(tasks[j], NormalizeValue(value))
  }

  /** The checkbox is ticked exactly when `toggleNeed` would find a task to delete. */
  lemma CheckedIffFound(tasks: seq<Task>, value: string)
    ensures IsChecked(tasks, value) <==> FindTask(tasks, NormalizeValue(value)).Some?
  {
  }

  /** A task shown as a custom need: its normalised text, its text, its id. */
  datatype CustomNeed = CustomNeed(value: string, text: string, taskId: int)

  predicate IsCustom(task: Task) {
    NormalizeValue(TextOf(task)) != [] && NormalizeValue(TextOf(task)) !in NeedValues
  }

  function CustomOf(task: Task): CustomNeed {
    CustomNeed(NormalizeValue(TextOf(task)), TextOf(task), task.taskId)
  }

  /** A need shown as custom: a non-empty value that is not a built-in need. */
  predicate ShownAsCustom(c: CustomNeed) {
    c.value != [] && c.value !in NeedValues
  }

  /** Every task as a need, in task order. */
  function NeedsOf(tasks: seq<Task>): (r: seq<CustomNeed>)
    ensures |r| == |tasks|
    ensures forall j :: 0 <= j < |tasks| ==> r[j] == CustomOf(tasks[j])
  {
    seq(|tasks|, i requires 0 <= i < |tasks| => CustomOf(tasks[i]))
  }

  /** The custom-needs list: each task as a need, keeping those shown as custom, in task
      order (CustomNeedsAppend and CustomNeedsSingle say so task by task). */
  function CustomNeeds(tasks: seq<Task>): (r: seq<CustomNeed>)
    ensures |r| <= |tasks|
    ensures forall c :: c in r ==> exists j :: 0 <= j < |tasks| && IsCustom(tasks[j]) && c == CustomOf(tasks[j])
    ensures forall j :: 0 <= j < |tasks| && IsCustom(tasks[j]) ==> CustomOf(tasks[j]) in r
    ensures forall c :: c in r ==> c.value != [] && c.value !in NeedValues
  {
    Filter(NeedsOf(tasks), ShownAsCustom)
  }

  /** The list is built task by task: it distributes over concatenation, ... */
  lemma CustomNeedsAppend(a: seq<Task>, b: seq<Task>)
    ensures CustomNeeds(a + b) == CustomNeeds(a) + CustomNeeds(b)
  {
    assert NeedsOf(a + b) == NeedsOf(a) + NeedsOf(b);
    FilterAppend(NeedsOf(a), NeedsOf(b), ShownAsCustom);
  }

  /** ... and one task gives one custom need exactly when it is custom. */
  lemma CustomNeedsSingle(t: Task)
    ensures CustomNeeds([t]) == if IsCustom(t) then [CustomOf(t)] else []
  {
    assert NeedsOf([t]) == [CustomOf(t)];
    FilterSingle(CustomOf(t), ShownAsCustom);
  }

  /** Every custom need shown has its box ticked: its own task normalises to it. */
  lemma CustomNeedsAreChecked(tasks: seq<Task>)
    ensures forall c :: c in CustomNeeds(tasks) ==> IsChecked(tasks, c.value)
  {
    forall c | c in CustomNeeds(tasks) ensures IsChecked(tasks, c.value) {
      var j :| 0 <= j < |tasks| && IsCustom(tasks[j]) && c == CustomOf(tasks[j]);
      NormalizeValueIdempotent(TextOf(tasks[j]));
      assert MatchesNeed(tasks[j], NormalizeValue(c.value));
    }
  }

  datatype SeniorState = SeniorState(
    tasks: seq<Task>,
    status: Status,
    notifications: seq<RoleDashboard.Notification>,
    seniorPhone: string,
    languages: seq<string>,
    showPrefs: bool,
    customTask: string)

  const InitialState: SeniorState := SeniorState([], IdleStatus, [], "", [], false, "")

  datatype Outcome = Outcome(state: SeniorState, effects: seq<Api.Effect>)

  /** `data.tasks || []`. */
  function TasksOf(data: Option<seq<Task>>): seq<Task> {
    if data.Some? then data.value else []
  }

  /** `removeTask(taskId)`: delete, then reload the list; either failure gives the delete
      error and leaves the list as it was. */
  function TaskRemoved(s: SeniorState, taskId: int, deleteResponse: Result<()>,
                       reloadResponse: Result<Option<seq<Task>>>): (o: Outcome)
    ensures |o.effects| >= 1 && o.effects[0] == Api.Request(Api.DeleteSeniorTask(taskId))
    ensures deleteResponse.Ok? && reloadResponse.Ok? ==>
              o.state == s.(tasks := TasksOf(reloadResponse.value))
              && o.effects == [Api.Request(Api.DeleteSeniorTask(taskId)), Api.Request(Api.FetchSeniorTasks)]
    ensures deleteResponse.Err? || reloadResponse.Err? ==>
              o.state == s.(status := Status(Error, "Could not delete task."))
  {
    var sent := [Api.Request(Api.DeleteSeniorTask(taskId))];
    var failed := s.(status := Status(Error, "Could not delete task."));
    if deleteResponse.Err? then Outcome(failed, sent)
    else
      var sent2 := sent + [Api.Request(Api.FetchSeniorTasks)];
      if reloadResponse.Err? then Outcome(failed, sent2)
      else Outcome(s.(tasks := TasksOf(reloadResponse.value)), sent2)
  }

  /** The `try` block of `addCustomTask` for the trimmed text `text`: create the task,
      clear the input once that succeeded, reload the list and report success; a failure
      at either request gives the add error. */
  function TaskCreated(s: SeniorState, text: string, createResponse: Result<()>,
                       reloadResponse: Result<Option<seq<Task>>>): (o: Outcome)
    ensures |o.effects| >= 1 && o.effects[0] == Api.Request(Api.CreateSeniorTask(text))
    ensures createResponse.Err? ==> o == Outcome(s.(status := Status(Error, "Could not add task.")), o.effects)
    ensures createResponse.Ok? ==>
              o.effects == [Api.Request(Api.CreateSeniorTask(text)), Api.Request(Api.FetchSeniorTasks)]
    ensures createResponse.Ok? && reloadResponse.Err? ==>
              o.state == s.(customTask := [], status := Status(Error, "Could not add task."))
    ensures createResponse.Ok? && reloadResponse.Ok? ==>
              o.state == s.(customTask := [], tasks := TasksOf(reloadResponse.value), status := Status(Success, "Task added."))
    ensures o.state.status.kind == Success <==> createResponse.Ok? && reloadResponse.Ok?
  {
    var sent := [Api.Request(Api.CreateSeniorTask(text))];
    if createResponse.Err? then Outcome(s.(status := Status(Error, "Could not add task.")), sent)
    else
      var s1 := s.(customTask := []);
      var sent2 := sent + [Api.Request(Api.FetchSeniorTasks)];
      if reloadResponse.Err? then Outcome(s1.(status := Status(Error, "Could not add task.")), sent2)
      else Outcome(s1.(tasks := TasksOf(reloadResponse.value), status := Status(Success, "Task added.")), sent2)
  }

  /** `addCustomTask`: nothing for blank input, otherwise the trimmed text is created. */
  function CustomTaskAdded(s: SeniorState, createResponse: Result<()>,
                           reloadResponse: Result<Option<seq<Task>>>): (o: Outcome)
    ensures IsBlank(s.customTask) ==> o == Outcome(s, [])
    ensures !IsBlank(s.customTask) ==> o == TaskCreated(s, Trim(s.customTask), createResponse, reloadResponse)
  {
    if Trim(s.customTask) == [] then Outcome(s, [])
    else TaskCreated(s, Trim(s.customTask), createResponse, reloadResponse)
  }

  /** `toggleNeed(value)`: a ticked need deletes the first task that normalises to it; an
      unticked one creates a task with the raw value and reloads. A failure on the creating
      side is not caught, so nothing further happens. */
  function NeedToggled(s: SeniorState, value: string, deleteResponse: Result<()>,
                       createResponse: Result<()>, reloadResponse: Result<Option<seq<Task>>>): (o: Outcome)
    ensures IsChecked(s.tasks, value) ==>
              var j := FindTask(s.tasks, NormalizeValue(value)).value;
              o == TaskRemoved(s, s.tasks[j].taskId, deleteResponse, reloadResponse)
    ensures !IsChecked(s.tasks, value) ==>
              |o.effects| >= 1 && o.effects[0] == Api.Request(Api.CreateSeniorTask(value))
              && (createResponse.Err? || reloadResponse.Err? ==> o.state == s)
              && (createResponse.Ok? && reloadResponse.Ok? ==> o.state == s.(tasks := TasksOf(reloadResponse.value)))
  {
    CheckedIffFound(s.tasks, value);
    var existing := FindTask(s.tasks, NormalizeValue(value));
    if existing.Some? then TaskRemoved(s, s.tasks[existing.value].taskId, deleteResponse, reloadResponse)
    else
      var sent := [Api.Request(Api.CreateSeniorTask(value))];
      if createResponse.Err? then Outcome(s, sent)
      else
        var sent2 := sent + [Api.Request(Api.FetchSeniorTasks)];
        if reloadResponse.Err? then Outcome(s, sent2)
        else Outcome(s.(tasks := TasksOf(reloadResponse.value)), sent2)
  }

  /** The box of a custom need is always ticked, so clicking it deletes a task. */
  lemma CustomNeedToggleDeletes(s: SeniorState, c: CustomNeed, deleteResponse: Result<()>,
                                createResponse: Result<()>, reloadResponse: Result<Option<seq<Task>>>)
    requires c in CustomNeeds(s.tasks)
    ensures NeedToggled(s, c.value, deleteResponse, createResponse, reloadResponse).effects[0].call.DeleteSeniorTask?
  {
    CustomNeedsAreChecked(s.tasks);
  }

  /** After a task is created, a box is ticked exactly when it was ticked before or the new
      task's text normalises like the box's value; the value's own text always ticks it. */
  lemma CreatedNeedIsChecked(tasks: seq<Task>, value: string, taskId: int, text: string)
    ensures IsChecked(tasks + [Task(taskId, Some(text))], value)
            <==> IsChecked(tasks, value) || NormalizeValue(text) == NormalizeValue(value)
    ensures IsChecked(tasks + [Task(taskId, Some(value))], value)
  {
    var t := tasks + [Task(taskId, Some(text))];
    assert t[|tasks|] == Task(taskId, Some(text));
    if IsChecked(t, value) {
      var j :| 0 <= j < |t| && MatchesNeed(t[j], NormalizeValue(value));
      if j < |tasks| {
        assert tasks[j] == t[j];
      }
    }
    if IsChecked(tasks, value) {
      var j :| 0 <= j < |tasks| && MatchesNeed(tasks[j], NormalizeValue(value));
      assert t[j] == tasks[j];
    }
    var t' := tasks + [Task(taskId, Some(value))];
    assert MatchesNeed(t'[|tasks|], NormalizeValue(value));
  }

  /** Deleting the only task that normalises like the value unticks its box. */
  lemma DeletedNeedIsUnchecked(tasks: seq<Task>, value: string, j: nat)
    requires j < |tasks| && MatchesNeed(tasks[j], NormalizeValue(value))
    requires forall k :: 0 <= k < |tasks| && k != j ==> !MatchesNeed(tasks[k], NormalizeValue(value))
    ensures !IsChecked(tasks[..j] + tasks[j + 1..], value)
  {
    RemoveOnlyMatch(tasks, j, tasks[..j] + tasks[j + 1..], task => MatchesNeed(task, NormalizeValue(value)));
  }

  /** `saveLanguages`: refused without languages; otherwise the returned languages are
      installed (`[]` when missing). */
  function LanguagesSaved(s: SeniorState, response: Result<Option<seq<string>>>): (o: Outcome)
    ensures s.languages == [] ==>
              o == Outcome(s.(status := Status(Error, "Select at least one language.")), [])
    ensures s.languages != [] ==> o.effects == [Api.Request(Api.UpdateSeniorProfile(s.languages))]
    ensures s.languages != [] && response.Err? ==>
              o.state == s.(status := Status(Error, "Could not save languages."))
    ensures s.languages != [] && response.Ok? ==>
              o.state == s.(languages := LanguagesOrEmpty(response.value), status := Status(Success, "Languages saved."),
                            showPrefs := false)
  {
    if s.languages == [] then Outcome(s.(status := Status(Error, "Select at least one language.")), [])
    else
      var sent := [Api.Request(Api.UpdateSeniorProfile(s.languages))];
      match response
      case Err(_) => Outcome(s.(status := Status(Error, "Could not save languages.")), sent)
      case Ok(l) =>
        Outcome(s.(languages := LanguagesOrEmpty(l), status := Status(Success, "Languages saved."), showPrefs := false), sent)
  }

  /** `list || []` for a list of strings. */
  function LanguagesOrEmpty(l: Option<seq<string>>): seq<string> {
    if l.Some? then l.value else []
  }

  const LoadFailed: Status := Status(Error, "Could not load tasks.")

  /** The load effect: tasks, then the profile's languages, then notifications, each applied
      only while the page is still mounted (`unmountAfter` fetches had settled at cleanup). */
  function Loaded(s: SeniorState, loading: bool, hasUser: bool,
                  tasksResponse: Result<Option<seq<Task>>>,
                  profileResponse: Result<Option<seq<string>>>,
                  notificationsResponse: Result<RoleDashboard.SeniorNotificationData>,
                  unmountAfter: nat): (o: Outcome)
    ensures loading || !hasUser ==> o == Outcome(s, [])
    ensures unmountAfter == 0 ==> o.state == s
    ensures !loading && hasUser && unmountAfter >= 3 && tasksResponse.Ok? && profileResponse.Ok?
            && notificationsResponse.Ok? ==>
              var n := notificationsResponse.value;
              o.state == s.(tasks := TasksOf(tasksResponse.value),
                            languages := LanguagesOrEmpty(profileResponse.value),
                            notifications := if n.notifications.Some? then n.notifications.value else [],
                            seniorPhone := n.seniorPhone)
              && o.effects == [Api.Request(Api.FetchSeniorTasks), Api.Request(Api.FetchSeniorProfile),
                               Api.Request(Api.FetchSeniorNotifications)]
    ensures !loading && hasUser && unmountAfter >= 1 && tasksResponse.Err? ==>
              o == Outcome(s.(status := LoadFailed), [Api.Request(Api.FetchSeniorTasks)])
    ensures o.state.status != s.status ==> o.state.status == LoadFailed
    ensures o.state.customTask == s.customTask && o.state.showPrefs == s.showPrefs
  {
    if loading || !hasUser then Outcome(s, [])
    else
      var e1 := [Api.Request(Api.FetchSeniorTasks)];
      match tasksResponse
      case Err(_) => Outcome(if unmountAfter < 1 then s else s.(status := LoadFailed), e1)
      case Ok(t) =>
        if unmountAfter < 1 then Outcome(s, e1)
        else
          var s1 := s.(tasks := TasksOf(t));
          var e2 := e1 + [Api.Request(Api.FetchSeniorProfile)];
          match profileResponse
          case Err(_) => Outcome(if unmountAfter < 2 then s1 else s1.(status := LoadFailed), e2)
          case Ok(l) =>
            if unmountAfter < 2 then Outcome(s1, e2)
            else
              var s2 := s1.(languages := LanguagesOrEmpty(l));
              var e3 := e2 + [Api.Request(Api.FetchSeniorNotifications)];
              match notificationsResponse
              case Err(_) => Outcome(if unmountAfter < 3 then s2 else s2.(status := LoadFailed), e3)
              case Ok(n) =>
                if unmountAfter < 3 then Outcome(s2, e3)
                else
                  Outcome(s2.(notifications := if n.notifications.Some? then n.notifications.value else [],
                              seniorPhone := n.seniorPhone), e3)
  }

  /** A response that settles after the cleanup finds `active` false and changes nothing:
      with `unmountAfter` fetches settled before it, the later responses do not matter. */
  lemma LateResponsesIgnored(s: SeniorState, loading: bool, hasUser: bool,
                             t: Result<Option<seq<Task>>>, t': Result<Option<seq<Task>>>,
                             p: Result<Option<seq<string>>>, p': Result<Option<seq<string>>>,
                             n: Result<RoleDashboard.SeniorNotificationData>,
                             n': Result<RoleDashboard.SeniorNotificationData>, unmountAfter: nat)
    ensures unmountAfter == 0 ==>
              Loaded(s, loading, hasUser, t, p, n, unmountAfter) == Loaded(s, loading, hasUser, t', p', n', unmountAfter)
    ensures unmountAfter <= 1 ==>
              Loaded(s, loading, hasUser, t, p, n, unmountAfter) == Loaded(s, loading, hasUser, t, p', n', unmountAfter)
    ensures unmountAfter <= 2 ==>
              Loaded(s, loading, hasUser, t, p, n, unmountAfter) == Loaded(s, loading, hasUser, t, p, n', unmountAfter)
  {
  }

  class SeniorHomePage {
    var tasks: seq<Task>
    var status: Status
    var notifications: seq<RoleDashboard.Notification>
    var seniorPhone: string
    var languages: seq<string>
    var showPrefs: bool
    var customTask: string
    /** Requests sent, in order. */
    var effects: seq<Api.Effect>

    function State(): SeniorState
      reads this
    {
      SeniorState(tasks, status, notifications, seniorPhone, languages, showPrefs, customTask)
    }

    constructor ()
      ensures State() == InitialState && effects == []
    {
      tasks, status, notifications, seniorPhone := [], IdleStatus, [], "";
      languages, showPrefs, customTask := [], false, "";
      effects := [];
    }

    method RemoveTask(taskId: int, deleteResponse: Result<()>, reloadResponse: Result<Option<seq<Task>>>)
      modifies this
      ensures State() == TaskRemoved(old(State()), taskId, deleteResponse, reloadResponse).state
      ensures effects == old(effects) + TaskRemoved(old(State()), taskId, deleteResponse, reloadResponse).effects
    {
      effects := effects + [Api.Request(Api.DeleteSeniorTask(taskId))];
      if deleteResponse.Err? {
        status := Status(Error, "Could not delete task.");
        return;
      }
      effects := effects + [Api.Request(Api.FetchSeniorTasks)];
      if reloadResponse.Err? {
        status := Status(Error, "Could not delete task.");
        return;
      }
      tasks := TasksOf(reloadResponse.value);
    }

    method AddCustomTask(createResponse: Result<()>, reloadResponse: Result<Option<seq<Task>>>)
      modifies this
      ensures State() == CustomTaskAdded(old(State()), createResponse, reloadResponse).state
      ensures effects == old(effects) + CustomTaskAdded(old(State()), createResponse, reloadResponse).effects
    {
      var trimmed := Trim(customTask);
      if trimmed != [] {
        CreateTask(trimmed, createResponse, reloadResponse);
      }
    }

    method CreateTask(text: string, createResponse: Result<()>, reloadResponse: Result<Option<seq<Task>>>)
      modifies this
      ensures State() == TaskCreated(old(State()), text, createResponse, reloadResponse).state
      ensures effects == old(effects) + TaskCreated(old(State()), text, createResponse, reloadResponse).effects
    {
      status := Status(Loading, "Adding task...");
      effects := effects + [Api.Request(Api.CreateSeniorTask(text))];
      if createResponse.Err? {
        status := Status(Error, "Could not add task.");
        return;
      }
      customTask := "";
      effects := effects + [Api.Request(Api.FetchSeniorTasks)];
      if reloadResponse.Err? {
        status := Status(Error, "Could not add task.");
        return;
      }
      tasks := TasksOf(reloadResponse.value);
      status := Status(Success, "Task added.");
    }

    method ToggleNeed(value: string, deleteResponse: Result<()>, createResponse: Result<()>,
                      reloadResponse: Result<Option<seq<Task>>>)
      modifies this
      ensures State() == NeedToggled(old(State()), value, deleteResponse, createResponse, reloadResponse).state
      ensures effects == old(effects) + NeedToggled(old(State()), value, deleteResponse, createResponse, reloadResponse).effects
    {
      var normalized := NormalizeValue(value);
      var existing := FindTask(tasks, normalized);
      if existing.Some? {
        RemoveTask(tasks[existing.value].taskId, deleteResponse, reloadResponse);
        return;
      }
      effects := effects + [Api.Request(Api.CreateSeniorTask(value))];
      if createResponse.Err? {
        return;
      }
      effects := effects + [Api.Request(Api.FetchSeniorTasks)];
      if reloadResponse.Err? {
        return;
      }
      tasks := TasksOf(reloadResponse.value);
    }

    method ToggleLanguage(value: string)
      modifies this
      ensures State() == old(State()).(languages := Toggle(old(languages), value))
      ensures effects == old(effects)
    {
      languages := if value in languages then RemoveAll(languages, value) else languages + [value];
    }

    method SaveLanguages(response: Result<Option<seq<string>>>)
      modifies this
      ensures State() == LanguagesSaved(old(State()), response).state
      ensures effects == old(effects) + LanguagesSaved(old(State()), response).effects
    {
      if |languages| == 0 {
        status := Status(Error, "Select at least one language.");
        return;
      }
      status := Status(Loading, "Saving languages...");
      effects := effects + [Api.Request(Api.UpdateSeniorProfile(languages))];
      if response.Err? {
        status := Status(Error, "Could not save languages.");
        return;
      }
      languages := LanguagesOrEmpty(response.value);
      status := Status(Success, "Languages saved.");
      showPrefs := false;
    }

    method Load(loading: bool, hasUser: bool,
                tasksResponse: Result<Option<seq<Task>>>,
                profileResponse: Result<Option<seq<string>>>,
                notificationsResponse: Result<RoleDashboard.SeniorNotificationData>,
                unmountAfter: nat)
      modifies this
      ensures State() == Loaded(old(State()), loading, hasUser, tasksResponse, profileResponse,
                                notificationsResponse, unmountAfter).state
      ensures effects == old(effects) + Loaded(old(State()), loading, hasUser, tasksResponse, profileResponse,
                                               notificationsResponse, unmountAfter).effects
    {
      if loading || !hasUser {
        return;
      }
      effects := effects + [Api.Request(Api.FetchSeniorTasks)];
      if tasksResponse.Err? {
        if unmountAfter >= 1 {
          status := LoadFailed;
        }
        return;
      }
      if unmountAfter < 1 {
        return;
      }
      tasks := TasksOf(tasksResponse.value);
      effects := effects + [Api.Request(Api.FetchSeniorProfile)];
      if profileResponse.Err? {
        if unmountAfter >= 2 {
          status := LoadFailed;
        }
        return;
      }
      if unmountAfter < 2 {
        return;
      }
      languages := LanguagesOrEmpty(profileResponse.value);
      effects := effects + [Api.Request(Api.FetchSeniorNotifications)];
      if notificationsResponse.Err? {
        if unmountAfter >= 3 {
          status := LoadFailed;
        }
        return;
      }
      if unmountAfter < 3 {
        return;
      }
      var n := notificationsResponse.value;
      notifications := if n.notifications.Some? then n.notifications.value else [];
      seniorPhone := n.seniorPhone;
    }
  }
}
