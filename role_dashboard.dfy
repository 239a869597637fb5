/** The role dashboard of client/src/pages/RoleDashboard.js: the student refresh and its
    projection of selections onto map points, the senior refresh, the dispatch on the
    signed-in role, and the effect lifecycle (first load, 5-second polling for students,
    the `selection-updated` listener, cleanup). Timers and window events are explicit
    operations; an awaited fetch is split into the request (recorded as pending) and its
    completion, which may arrive after cleanup. */
module RoleDashboard {
  import opened Common
  import Api

  /** A selection as the student selection endpoint returns it; a missing coordinate is `None`. */
  datatype Selection = Selection(
    seniorId: int,
    firstName: string,
    lastName: string,
    phone: string,
    latitude: Option<real>,
    longitude: Option<real>)

  datatype Location = Location(latitude: Option<real>, longitude: Option<real>)

  /** The body of `fetchStudentSelection`; a missing or empty `student_phone` is "". */
  datatype StudentSelectionData = StudentSelectionData(
    selections: Option<seq<Selection>>,
    studentPhone: string,
    studentLocation: Option<Location>)

  datatype Notification = Notification(firstName: string, lastName: string, studentPhone: string)

  /** The body of `fetchSeniorNotifications`; a missing or empty `senior_phone` is "". */
  datatype SeniorNotificationData = SeniorNotificationData(
    notifications: Option<seq<Notification>>,
    seniorPhone: string)

  datatype MapSenior = MapSenior(seniorId: int, firstName: string, lastName: string, latitude: real, longitude: real)
  datatype MapStudent = MapStudent(studentId: string, firstName: string, lastName: string, latitude: real, longitude: real)
  datatype MapData = MapData(students: seq<MapStudent>, seniors: seq<MapSenior>)

  const EmptyMap: MapData := MapData([], [])

  /** A coordinate read for truthiness: present and not zero. */
  predicate Truthy(x: Option<real>) {
    x.Some? && x.value != 0.0
  }

  predicate Located(sel: Selection) {
    Truthy(sel.latitude) && Truthy(sel.longitude)
  }

  /** The map point of a located selection (`Number` is the identity on numbers). */
  function Point(sel: Selection): MapSenior
    requires Located(sel)
  {
    MapSenior(sel.seniorId, sel.firstName, sel.lastName, sel.latitude.value, sel.longitude.value)
  }

  /** `.filter((sel) => sel.latitude && sel.longitude).map(...)`. */
  function MapSeniors(selections: seq<Selection>): (r: seq<MapSenior>)
    ensures |r| <= |selections|
    ensures forall m :: m in r ==> exists i :: 0 <= i < |selections| && Located(selections[i]) && m == Point(selections[i])
    ensures forall i :: 0 <= i < |selections| && Located(selections[i]) ==> Point(selections[i]) in r
    ensures |r| == |selections| <==> forall i :: 0 <= i < |selections| ==> Located(selections[i])
  {
    if selections == [] then []
    else
      var rest := MapSeniors(selections[1..]);
      assert forall i :: 1 <= i < |selections| ==> selections[i] == selections[1..][i - 1];
      if Located(selections[0]) then [Point(selections[0])] + rest else rest
  }

  /** The projection keeps input order: it distributes over concatenation. */
  lemma {:induction false} MapSeniorsAppend(a: seq<Selection>, b: seq<Selection>)
    ensures MapSeniors(a + b) == MapSeniors(a) + MapSeniors(b)
  {
    if a == [] {
      assert a + b == b;
    } else {
      assert (a + b)[0] == a[0] && (a + b)[1..] == a[1..] + b;
      MapSeniorsAppend(a[1..], b);
    }
  }

  /** The student's own point: one "me"/"You" entry exactly when both coordinates are truthy. */
  function MapStudents(location: Option<Location>): (r: seq<MapStudent>)
    ensures |r| <= 1
    ensures |r| == 1 <==> location.Some? && Truthy(location.value.latitude) && Truthy(location.value.longitude)
    ensures |r| == 1 ==>
              r[0] == MapStudent("me", "You", "", location.value.latitude.value, location.value.longitude.value)
  {
    if location.Some? && Truthy(location.value.latitude) && Truthy(location.value.longitude) then
      [MapStudent("me", "You", "", location.value.latitude.value, location.value.longitude.value)]
    else []
  }

  /** `data.selections || []`. */
  function SelectionsOf(data: StudentSelectionData): seq<Selection> {
    if data.selections.Some? then data.selections.value else []
  }

  /** The map data a student refresh sets: empty unless some selection was returned. */
  function ProjectMap(data: StudentSelectionData): (m: MapData)
    ensures SelectionsOf(data) == [] ==> m == EmptyMap
    ensures SelectionsOf(data) != [] ==>
              m.seniors == MapSeniors(SelectionsOf(data)) && m.students == MapStudents(data.studentLocation)
    ensures |m.seniors| <= |SelectionsOf(data)| && |m.students| <= 1
  {
    var selections := SelectionsOf(data);
    if |selections| > 0 then MapData(MapStudents(data.studentLocation), MapSeniors(selections))
    else EmptyMap
  }

  /** What the dashboard shows. */
  datatype DashboardData = DashboardData(
    selections: seq<Selection>,
    studentPhone: string,
    notifications: seq<Notification>,
    seniorPhone: string,
    mapData: MapData)

  const InitialData: DashboardData := DashboardData([], "", [], "", EmptyMap)

  /** The state updates of `loadStudent` after its fetch, when still active. */
  function StudentLoaded(d: DashboardData, data: StudentSelectionData): (r: DashboardData)
    ensures r.selections == SelectionsOf(data) && r.studentPhone == data.studentPhone
    ensures r.mapData == ProjectMap(data)
    ensures r.notifications == d.notifications && r.seniorPhone == d.seniorPhone
  {
    d.(selections := SelectionsOf(data), studentPhone := data.studentPhone, mapData := ProjectMap(data))
  }

  /** The state updates of `loadSenior` after its fetch, when still active. */
  function SeniorLoaded(d: DashboardData, data: SeniorNotificationData): (r: DashboardData)
    ensures data.notifications.Some? ==> r.notifications == data.notifications.value
    ensures data.notifications.None? ==> r.notifications == []
    ensures r.seniorPhone == data.seniorPhone
    ensures r.selections == d.selections && r.studentPhone == d.studentPhone && r.mapData == d.mapData
  {
    d.(notifications := if data.notifications.Some? then data.notifications.value else [],
       seniorPhone := data.seniorPhone)
  }

  datatype LoadKind = StudentLoad | SeniorLoad

  /** Which refresh `load` and `handleSelectionUpdate` start for a role ("" when no user). */
  function Dispatch(role: string): (r: seq<LoadKind>)
    ensures role == "student" <==> r == [StudentLoad]
    ensures role == "senior" <==> r == [SeniorLoad]
    ensures role != "student" && role != "senior" <==> r == []
  {
    if role == "student" then [StudentLoad]
    else if role == "senior" then [SeniorLoad]
    else []
  }

  function RequestOf(kind: LoadKind): Api.Call {
    match kind
    case StudentLoad => Api.FetchStudentSelection
    case SeniorLoad => Api.FetchSeniorNotifications
  }

  /** A fetch in flight, tagged with the run of the effect that started it. */
  datatype Pending = Pending(run: nat, kind: LoadKind)

  /** What is rendered. */
  datatype Screen =
    | AdminDashboard
    | StudentScreen(contacts: seq<Selection>, shownMap: Option<MapData>)
    | SeniorScreen(notifications: seq<Notification>, seniorPhone: string)
    | Nothing

  function Render(role: string, d: DashboardData): (s: Screen)
    ensures role == "admin" <==> s == AdminDashboard
    ensures role == "student" <==> s.StudentScreen?
    ensures role == "senior" <==> s.SeniorScreen?
    ensures s.Nothing? <==> role != "admin" && role != "student" && role != "senior"
    ensures s.StudentScreen? ==>
              (s.shownMap.Some? <==> d.selections != [] && d.mapData.students != [])
  {
    if role == "admin" then AdminDashboard
    else if role == "student" then
      StudentScreen(d.selections,
                    if |d.selections| > 0 && |d.mapData.students| > 0 then Some(d.mapData) else None)
    else if role == "senior" then SeniorScreen(d.notifications, d.seniorPhone)
    else Nothing
  }

  const PollIntervalMs: nat := 5000

  class Dashboard {
    var role: string
    var data: DashboardData
    /** How many times the effect has run; the current run is `run`. */
    var run: nat
    /** The current run's `active` flag. */
    var active: bool
    var intervalSet: bool
    var listening: bool
    var pending: multiset<Pending>
    var requests: seq<Api.Call>

    /** Only a mounted student run polls; a mounted run listens; fetches come from past or
        current runs. */
    predicate Valid()
      reads this
    {
      && (intervalSet ==> active && role == "student")
      && (listening <==> active)
      && (forall p :: p in pending ==> p.run <= run)
    }

    /** First render and the effect's first run for the signed-in role. */
    constructor (role0: string)
      ensures Valid()
      ensures role == role0 && data == InitialData && active && run == 0
      ensures intervalSet <==> role0 == "student"
      ensures pending == Issued(0, Dispatch(role0))
      ensures requests == Requests(Dispatch(role0))
    {
      role, data, run := role0, InitialData, 0;
      active, listening := true, true;
      intervalSet := role0 == "student";
      pending := Issued(0, Dispatch(role0));
      requests := Requests(Dispatch(role0));
    }

    /** The interval firing: another student refresh. */
    method Tick()
      requires Valid()
      modifies this
      ensures Valid()
      ensures old(intervalSet) ==> pending == old(pending) + multiset{Pending(run, StudentLoad)}
                                   && requests == old(requests) + [Api.FetchStudentSelection]
      ensures !old(intervalSet) ==> pending == old(pending) && requests == old(requests)
      ensures data == old(data) && role == old(role) && run == old(run) && active == old(active)
      ensures intervalSet == old(intervalSet) && listening == old(listening)
    {
      if intervalSet {
        pending := pending + multiset{Pending(run, StudentLoad)};
        requests := requests + [Api.FetchStudentSelection];
      }
    }

    /** A `selection-updated` event on the window. */
    method SelectionUpdated()
      requires Valid()
      modifies this
      ensures Valid()
      ensures old(listening) ==> pending == old(pending) + Issued(run, Dispatch(role))
                                 && requests == old(requests) + Requests(Dispatch(role))
      ensures !old(listening) ==> pending == old(pending) && requests == old(requests)
      ensures data == old(data) && role == old(role) && run == old(run) && active == old(active)
      ensures intervalSet == old(intervalSet) && listening == old(listening)
    {
      if listening {
        pending := pending + Issued(run, Dispatch(role));
        requests := requests + Requests(Dispatch(role));
      }
    }

    /** The effect's cleanup: the run goes inactive, the interval and listener are removed. */
    method Cleanup()
      requires Valid()
      modifies this
      ensures Valid()
      ensures !active && !intervalSet && !listening
      ensures data == old(data) && role == old(role) && run == old(run)
      ensures pending == old(pending) && requests == old(requests)
    {
      active := false;
      intervalSet := false;
      listening := false;
    }

    /** A change of signed-in user: cleanup of the current run, then a new run. */
    method ChangeUser(role1: string)
      requires Valid()
      modifies this
      ensures Valid()
      ensures role == role1 && run == old(run) + 1 && active
      ensures intervalSet <==> role1 == "student"
      ensures data == old(data)
      ensures pending == old(pending) + Issued(run, Dispatch(role1))
      ensures requests == old(requests) + Requests(Dispatch(role1))
    {
      Cleanup();
      role, run := role1, run + 1;
      active, listening := true, true;
      intervalSet := role1 == "student";
      pending := pending + Issued(run, Dispatch(role1));
      requests := requests + Requests(Dispatch(role1));
    }

    /** A student fetch settling: applied only if its run is the current one and still active. */
    method CompleteStudent(p: Pending, response: StudentSelectionData)
      requires Valid() && p in pending && p.kind == StudentLoad
      modifies this
      ensures Valid()
      ensures pending == old(pending) - multiset{p}
      ensures p.run == run && active ==> data == StudentLoaded(old(data), response)
      ensures p.run != run || !active ==> data == old(data)
      ensures role == old(role) && run == old(run) && active == old(active) && requests == old(requests)
      ensures intervalSet == old(intervalSet) && listening == old(listening)
    {
      pending := pending - multiset{p};
      if p.run == run && active {
        data := StudentLoaded(data, response);
      }
    }

    /** A senior fetch settling, under the same rule. */
    method CompleteSenior(p: Pending, response: SeniorNotificationData)
      requires Valid() && p in pending && p.kind == SeniorLoad
      modifies this
      ensures Valid()
      ensures pending == old(pending) - multiset{p}
      ensures p.run == run && active ==> data == SeniorLoaded(old(data), response)
      ensures p.run != run || !active ==> data == old(data)
      ensures role == old(role) && run == old(run) && active == old(active) && requests == old(requests)
      ensures intervalSet == old(intervalSet) && listening == old(listening)
    {
      pending := pending - multiset{p};
      if p.run == run && active {
        data := SeniorLoaded(data, response);
      }
    }
  }

  /** The fetches a list of refreshes puts in flight for run `run`. */
  function Issued(run: nat, kinds: seq<LoadKind>): (m: multiset<Pending>)
    ensures forall p :: p in m ==> p.run == run
    ensures |m| == |kinds|
  {
    if kinds == [] then multiset{} else multiset{Pending(run, kinds[0])} + Issued(run, kinds[1..])
  }

  function Requests(kinds: seq<LoadKind>): (r: seq<Api.Call>)
    ensures |r| == |kinds|
    ensures forall i :: 0 <= i < |kinds| ==> r[i] == RequestOf(kinds[i])
  {
    if kinds == [] then [] else [RequestOf(kinds[0])] + Requests(kinds[1..])
  }

  /** Refreshes request only their own endpoint: nothing for a role other than student or senior. */
  lemma DispatchRequests(role: string)
    ensures role == "student" ==> Requests(Dispatch(role)) == [Api.FetchStudentSelection]
    ensures role == "senior" ==> Requests(Dispatch(role)) == [Api.FetchSeniorNotifications]
    ensures role != "student" && role != "senior" ==> Requests(Dispatch(role)) == []
  {
  }

  /** After a student refresh with no selections the map is empty and nothing is drawn. */
  lemma NoSelectionsNoMap(d: DashboardData, data: StudentSelectionData)
    requires SelectionsOf(data) == []
    ensures StudentLoaded(d, data).mapData == EmptyMap
    ensures Render("student", StudentLoaded(d, data)).shownMap.None?
  {
  }

  /** A drawn map always has the student's own point and only located selections. */
  lemma DrawnMapIsLocated(d: DashboardData, data: StudentSelectionData)
    requires Render("student", StudentLoaded(d, data)).shownMap.Some?
    ensures |StudentLoaded(d, data).mapData.students| == 1
    ensures forall m :: m in StudentLoaded(d, data).mapData.seniors ==>
              exists i :: 0 <= i < |SelectionsOf(data)| && Located(SelectionsOf(data)[i])
                          && m == Point(SelectionsOf(data)[i])
  {
  }
}
