/** The requests the client sends and the other outward effects of the pages:
    navigation and the window-wide `selection-updated` broadcast. Responses are not
    modelled here; every awaited call reaches a page as a Common.Result. */
module Api {
  import opened Common

  /** The body of a student or generic account sign-up. */
  datatype AccountPayload = AccountPayload(
    email: string,
    password: string,
    firstName: string,
    lastName: string,
    phone: string,
    address: string,
    latitude: Option<real>,
    longitude: Option<real>)

  /** The body of the admin senior registration. */
  datatype SeniorPayload = SeniorPayload(
    firstName: string,
    lastName: string,
    phone: string,
    address: string,
    needs: seq<string>,
    language: string)

  datatype Call =
    | LoginCall(email: string, password: string)
    | SignupSeniorCall(account: AccountPayload)
    | SignupStudentCall(account: AccountPayload)
    | LogoutCall
    | CreateSeniorCall(senior: SeniorPayload)
    | FetchStudentSelection
    | FetchSeniorNotifications
    | FetchStudentProfile
    | FetchStudentMatches
    | SelectSeniorCall(seniorId: int)
    | DeselectSeniorCall(seniorId: int)
    | UpdateStudentProfile(skills: seq<string>, languages: seq<string>)
    | FetchSeniorTasks
    | FetchSeniorProfile
    | CreateSeniorTask(taskText: string)
    | DeleteSeniorTask(taskId: int)
    | UpdateSeniorProfile(languages: seq<string>)
    | FetchAdminOverview
    | ListSeniors
    | GetMatchesForSenior(seniorId: int)
    | CreateSessionCall(seniorId: int, studentId: int)

  /** What a page does to the world besides its own state. `AuthLogin` and `AuthSignup`
      go through the session store (Auth.AuthProvider), which then sends the request. */
  datatype Effect =
    | Request(call: Call)
    | AuthLogin(email: string, password: string)
    | AuthSignup(role: string, account: AccountPayload)
    | Navigate(path: string)
    | Broadcast(event: string)

  const SelectionUpdated: string := "selection-updated"
}
