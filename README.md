# Volunteer matching: the logic of the pages and the matcher

This project models the decision logic of a volunteer-matching web application in which
students offer help to seniors. The model covers:

- the client's session store (who is signed in, the stored token and user);
- the role dashboard with its polling and map projection;
- the phone formatter;
- the student and senior home pages (skills, languages, needs kept as tasks, selections);
- the three sign-up pages and the login page (validation, payloads, redirects, error texts);
- the admin panel (per-senior matches and session reports);
- the backend's compatibility score and top-N ranking.

Every awaited API call becomes a parameter: the value it settled to, either `Ok(body)` or
`Err(ApiError)`. Each page's state is a Dafny class whose fields the handlers update, and
each class records the requests, navigations and broadcasts it issued in an `effects`
sequence. Every handler is proved against a pure specification function of the old state
and the responses. The promises of the pages are proved about those functions as lemmas.

Modules, one per source file, plus shared helpers:

- `Common`: Option, Result, the API error shape, the status banner, number rendering.
- `Text`: JavaScript white space, `trim`, ASCII case mapping, run replacement, `formatLabel`.
- `Lists`: filter-out, the toggle of a checkbox list, append-if-absent.
- `Api`: the requests and other effects a page issues.
- `AccountForms`: the account form that the general sign-up page and the student sign-up
  page share verbatim.
- `Auth`, `RoleDashboard`, `PhoneFormat`, `Matching`, `StudentHome`, `SeniorHome`, `Signup`
  (both account sign-up pages), `SeniorSignup`, `Login`, `AdminPanel`.

Where the code and the design description disagree, the model follows the code:

- The session store restores the token and the user independently. A stored token with a
  missing or unreadable user gives a token and no user (`Auth.TokenWithoutUser`).
- No route is guarded.
- The dashboard does not geocode addresses; it only filters selections by their coordinates.

## Model

| member | source | states |
|---|---|---|
| Auth.Initial | client/src/components/AuthProvider.js:7-9 | before the mount effect there is no user, token or header token, and `loading` is true |
| Auth.Restored | client/src/components/AuthProvider.js:11-26 | after the mount effect `loading` is false; a non-empty stored token becomes both the token and the header token; a non-empty stored user is replaced by its parse, `None` when unparseable; storage is untouched |
| Auth.Authenticated | client/src/components/AuthProvider.js:28-34 | `handleAuth` sets header token, token, user and both storage keys (the user serialised) together; every other storage key is kept |
| Auth.SignedOut | client/src/components/AuthProvider.js:54-58 | after logout there is no token, header token or user, and both storage keys are gone; other keys and `loading` are kept |
| Auth.SignupCall | client/src/components/AuthProvider.js:43 | the senior endpoint is called exactly for the role "senior", the student endpoint for any other role |
| Auth.RestoreAfterHandleAuth | client/src/components/AuthProvider.js:11-34 | a session saved by `handleAuth` is restored by the next mount when its token is non-empty and the user round-trips through serialisation |
| Auth.RestoreAfterLogout | client/src/components/AuthProvider.js:11-26 | after logout the next mount restores nobody |
| Auth.TokenWithoutUser | client/src/components/AuthProvider.js:14-24 | a stored token with a missing or unparseable user restores a token and no user, without error |
| Auth.LogoutIdempotent | client/src/components/AuthProvider.js:48-59 | logging out twice is logging out once |
| Auth.AuthProvider.constructor | client/src/components/AuthProvider.js:7-9 | the provider starts in the initial session over the storage found |
| Auth.AuthProvider.Restore | client/src/components/AuthProvider.js:11-26 | the mount effect yields the restored session and sends no request |
| Auth.AuthProvider.HandleAuth | client/src/components/AuthProvider.js:28-34 | the session becomes the authenticated one |
| Auth.AuthProvider.Login | client/src/components/AuthProvider.js:36-40 | one login request; success authenticates with the returned pair; failure changes no session field or key and is passed back |
| Auth.AuthProvider.Signup | client/src/components/AuthProvider.js:42-46 | one request to the endpoint of the role; success authenticates; failure changes nothing and is passed back |
| Auth.AuthProvider.Logout | client/src/components/AuthProvider.js:48-59 | one logout request; the session is signed out whether or not the request failed |
| RoleDashboard.MapSeniors | client/src/pages/RoleDashboard.js:23-31 | map seniors are exactly the points of the selections with truthy latitude and longitude, at most one per selection, all of them exactly when every selection is located |
| RoleDashboard.MapSeniorsAppend | client/src/pages/RoleDashboard.js:23-31 | the projection keeps input order: it distributes over concatenation |
| RoleDashboard.MapStudents | client/src/pages/RoleDashboard.js:32-42 | one "me"/"You" entry exactly when the student location has truthy latitude and longitude, otherwise none |
| RoleDashboard.ProjectMap | client/src/pages/RoleDashboard.js:22-46 | no selections give the empty map; otherwise the seniors and student entries above |
| RoleDashboard.StudentLoaded | client/src/pages/RoleDashboard.js:20-46 | a student refresh sets selections (`[]` when missing), the student phone (`""` when missing) and the projected map, and keeps the senior fields |
| RoleDashboard.SeniorLoaded | client/src/pages/RoleDashboard.js:51-52 | a senior refresh sets notifications (`[]` when missing) and the senior phone, and keeps the student fields |
| RoleDashboard.Dispatch | client/src/pages/RoleDashboard.js:55-64 | students refresh the selection, seniors the notifications, any other role nothing |
| RoleDashboard.Render | client/src/pages/RoleDashboard.js:78-130 | admin gets the dashboard, student and senior their screens, any other role nothing; the map is shown exactly when selections and map students are both non-empty |
| RoleDashboard.DispatchRequests | client/src/pages/RoleDashboard.js:55-64 | the request each role's refresh sends, and none for other roles |
| RoleDashboard.NoSelectionsNoMap | client/src/pages/RoleDashboard.js:22-46 | a refresh with no selections empties the map and nothing is drawn |
| RoleDashboard.DrawnMapIsLocated | client/src/pages/RoleDashboard.js:23-42 | a drawn map has the student's own point and only located selections |
| RoleDashboard.Dashboard.constructor | client/src/pages/RoleDashboard.js:55-70 | the first run is active, listens, polls exactly for students and starts the role's refresh |
| RoleDashboard.Dashboard.Tick | client/src/pages/RoleDashboard.js:67-70 | the 5000 ms interval starts another student refresh, and nothing when no interval is set |
| RoleDashboard.Dashboard.SelectionUpdated | client/src/pages/RoleDashboard.js:61-65 | a `selection-updated` event starts the role's refresh while the listener is installed |
| RoleDashboard.Dashboard.Cleanup | client/src/pages/RoleDashboard.js:71-75 | cleanup makes the run inactive and clears the interval and the listener |
| RoleDashboard.Dashboard.ChangeUser | client/src/pages/RoleDashboard.js:15-76 | a new user cleans up the old run and starts a new one for the new role |
| RoleDashboard.Dashboard.CompleteStudent | client/src/pages/RoleDashboard.js:17-47 | a student fetch applies the refresh only when its run is current and active; a late one changes nothing |
| RoleDashboard.Dashboard.CompleteSenior | client/src/pages/RoleDashboard.js:48-53 | a senior fetch applies only when its run is current and active; a late one changes nothing |
| PhoneFormat.Digits | client/src/utils/formatPhone.js:3 | stripping non-digits leaves only digits, and leaves an all-digit string as it is |
| PhoneFormat.DigitsAppend | client/src/utils/formatPhone.js:3 | stripping distributes over concatenation |
| PhoneFormat.FormatPhone | client/src/utils/formatPhone.js:1-15 | empty input gives ""; 7 digits give "(514)-" and the digits laid out; 10 digits give the `(AAA)-MMM-LLLL` layout with the same digits; any other count returns the input |
| PhoneFormat.LayoutDigits | client/src/utils/formatPhone.js:11-14 | the layout of ten digits is formatted and strips back to those digits |
| PhoneFormat.FormattedIsLayout | client/src/utils/formatPhone.js:11-14 | a formatted string is the layout of its own ten digits |
| PhoneFormat.FormatPhoneIdempotent | client/src/utils/formatPhone.js:1-15 | formatting a formatted number changes nothing |
| PhoneFormat.FormattedLength | client/src/utils/formatPhone.js:8-14 | both formatted cases are 14 characters long |
| Matching.ToSet | backend/matching.py:41-42 | `set(list)` holds exactly the list's elements |
| Matching.ProximityScore | backend/matching.py:37 | the proximity score is at least 0, at most 100 for a non-negative distance, 0 from 10 km on, 100 exactly at distance 0 |
| Matching.ProximityAntitone | backend/matching.py:37 | a farther student never gets a higher proximity score |
| Matching.CommonNeedsBound | backend/matching.py:47-48 | the needs a student covers are at most all of them, and all of them exactly when the needs are a subset of the skills |
| Matching.SkillsScore | backend/matching.py:44-48 | 100 with no needs; otherwise the covered share of needs times 100; within 0 and 100; 100 exactly when every need is covered; 0 exactly when needs exist and none is covered |
| Matching.LanguageScore | backend/matching.py:52-56 | 100 exactly when the language sets meet, else 0 |
| Matching.WeightedTotal | backend/matching.py:59-63 | the 0.5/0.3/0.2 weighting stays within 0 and 100, reaching 100 or 0 exactly when all parts do |
| Matching.CalculateScore | backend/matching.py:25-71 | the total lies between 0 and 100 as promised; the record carries the student id, distance, name and `needs ∩ skills` |
| Matching.PerfectScore | backend/matching.py:25-63 | a total of 100 exactly when the student is at distance 0, covers every need and shares a language |
| Matching.Scored | backend/matching.py:77-80 | the loop's list is the score of each student in input order |
| Matching.SliceLength | backend/matching.py:85 | the length of Python's `xs[:limit]`, negative limits included |
| Matching.FindMatches | backend/matching.py:73-85 | the result has the slice length, is non-increasing in total score, is a sub-multiset of the students' scores, and no omitted student scores higher than an included one |
| Matching.TopOfSorted | backend/matching.py:83-85 | a prefix of a sorted list is sorted and beats everything left out |
| Matching.SortByScoreDescending | backend/matching.py:83 | the in-place sort leaves the array non-increasing in total score and a permutation of itself |
| Text.Trim | client/src/pages/Signup.js:35 | `trim` never lengthens, leaves no white space at either end, and is empty exactly for blank text |
| Text.TrimIsInfix | client/src/pages/Signup.js:35 | the trimmed text is the original with only white space cut from its front and back |
| Text.TrimNoSpace | client/src/pages/Signup.js:35 | text without white space is its own trim |
| Text.TrimIdempotent | client/src/pages/Signup.js:35 | trimming twice is trimming once |
| Text.ToLower | client/src/pages/Signup.js:68 | lower-casing keeps the length and maps each character on its own |
| Text.ToLowerIdempotent | client/src/pages/Signup.js:68 | lower-casing twice is lower-casing once |
| Text.ReplaceRuns | client/src/pages/SeniorHome.js:49-50 | replacing runs never lengthens and keeps non-empty text non-empty; what the result holds is stated by Text.ReplaceRunsShape, Text.ReplaceRunsAround and Text.ReplaceRunsOfRun |
| Text.ReplaceRunsShape | client/src/pages/SeniorHome.js:49-50 | every character of the result is the replacement or comes from the input; no run character is left when the replacement is not one; text without runs is unchanged |
| Text.DropRunSuffix | client/src/pages/SeniorHome.js:49-50 | skipping a run leaves a suffix of the input that does not start inside the run |
| Text.ReplaceRunsAround | client/src/pages/SeniorHome.js:49-50 | a character outside the run class is kept in place, and the text on either side is replaced independently |
| Text.ReplaceRunsOfRun | client/src/pages/SeniorHome.js:49-50 | a whole run, however long, becomes exactly one replacement character |
| Text.ReplaceRunsJoin | client/src/pages/SeniorHome.js:49-50 | two run-free words around a run become the words joined by one replacement character |
| Text.TrimUnpadded | client/src/pages/Signup.js:35 | text that neither starts nor ends with white space is its own trim |
| Text.ToLowerAppend | client/src/pages/Signup.js:68 | lower-casing distributes over concatenation |
| Text.Split | client/src/pages/StudentHome.js:39 | splitting on " " gives at least one piece and no piece holds a space |
| Text.CapitalizeAll | client/src/pages/StudentHome.js:40 | each word is capitalised on its own |
| Text.JoinCapitalizeSplit | client/src/pages/StudentHome.js:38-41 | split, capitalise each word and join equals capitalising character by character at word starts |
| Text.FormatLabelAt | client/src/pages/StudentHome.js:36-41 | `formatLabel` keeps the length, upper-cases the character at each word start, and leaves others as they are apart from `_` becoming a space |
| Text.Spaced | client/src/pages/StudentHome.js:38 | `replace(/_/g, " ")` keeps the length, turns each `_` into a space and keeps every other character |
| Text.FormatLabelHasNoUnderscore | client/src/pages/StudentHome.js:38 | `formatLabel` leaves no underscore behind |
| Lists.RemoveAll | client/src/pages/StudentHome.js:77 | filtering out a value removes every occurrence and keeps every other element with its count |
| Lists.RemoveAllAppend | client/src/pages/StudentHome.js:77 | the filter keeps order: it distributes over concatenation |
| Lists.Toggle | client/src/pages/SeniorHome.js:118-123 | a present value leaves with all its occurrences, an absent one is appended at the end; nothing else moves |
| Lists.ToggleTwiceAbsent | client/src/pages/SeniorHome.js:118-123 | toggling an absent value twice gives the list back |
| Lists.ToggleTwicePresent | client/src/pages/SeniorHome.js:118-123 | toggling a present value twice moves it to the end |
| Lists.AppendIfAbsent | client/src/pages/StudentHome.js:277-281 | the value is in the result, appended only when absent, and no duplicate is created |
| Lists.RemoveAllNoDuplicates | client/src/pages/StudentHome.js:287-289 | removing keeps a list free of duplicates |
| Lists.FindFirst | client/src/pages/SeniorHome.js:107-109 | `find` gives the first position whose element satisfies the test, and none exactly when no element does |
| Lists.Filter | client/src/pages/SeniorHome.js:177-184 | `filter` keeps exactly the elements that satisfy the test and never grows the list |
| Lists.FilterAppend | client/src/pages/SeniorHome.js:177-184 | `filter` keeps the input order: it distributes over concatenation |
| Lists.FilterSingle | client/src/pages/SeniorHome.js:177-184 | one element is kept exactly when it satisfies the test |
| Lists.RemoveOnlyMatch | client/src/pages/SeniorHome.js:105-116 | deleting the one element that satisfies a test leaves none that does |
| Common.ShowInt | client/src/pages/SeniorSignup.js:80 | a template literal's decimal text for an integer: a minus sign exactly for negatives, then digits whose decimal value is the magnitude, without a leading zero after the sign |
| Common.ShowNat | client/src/pages/SeniorSignup.js:80 | the decimal text of a natural number is all digits, reads back as the number, and starts with 0 only for 0 itself |
| StudentHome.Toggled | client/src/pages/StudentHome.js:74-79 | the chosen list flips membership of the value (all occurrences removed, or appended) and the other list is unchanged |
| StudentHome.ToggledTwice | client/src/pages/StudentHome.js:74-79 | ticking an unticked box twice gives the profile back |
| StudentHome.NormalizeSkill | client/src/pages/StudentHome.js:83-85 | the custom skill is empty exactly for blank input, holds no white space, is already lower-case and is no longer than the input |
| StudentHome.NormalizeSkillIdempotent | client/src/pages/StudentHome.js:83-85 | a normalised skill normalises to itself |
| StudentHome.NormalizeSkillJoinsWords | client/src/pages/StudentHome.js:83-85 | two words with white space between them become the lower-cased words joined by one `_`, however long the white space |
| StudentHome.NormalizeUnpadded | client/src/pages/StudentHome.js:83-85 | for text without white space at either end the trim does nothing: only lower-casing and run replacement remain |
| StudentHome.SkillsAfterAdd | client/src/pages/StudentHome.js:82-93 | blank input changes nothing; otherwise the normalised skill is appended when absent; no duplicate is created |
| StudentHome.SkillsAfterRemove | client/src/pages/StudentHome.js:95-102 | the five built-in skills cannot be removed; any other value loses every occurrence |
| StudentHome.RemoveUndoesAdd | client/src/pages/StudentHome.js:82-102 | removing a freshly added custom skill restores the skills |
| StudentHome.PrefsSaved | client/src/pages/StudentHome.js:104-125 | without skills: an error and no request; otherwise the profile is sent; a failed update only sets the error; a returned profile without skills is installed, with success, the panel closed and no refetch; otherwise matches are refetched: success installs profile and matches, reports success and closes the panel, failure installs the profile and shows the error; success is reported only after a successful update |
| StudentHome.Loaded | client/src/pages/StudentHome.js:43-72 | nothing while loading or signed out, nothing after an immediate unmount; a failed profile fetch only sets the load error; a full load with skills installs profile, non-empty selections and matches after three requests; the status changes only to the load error; selected ids change only to a non-empty fetched list; matches are asked for only when the profile has skills |
| StudentHome.LateResponsesIgnored | client/src/pages/StudentHome.js:43-71 | once the page unmounts, no later response matters: the outcome does not depend on any response that settles after the unmount |
| StudentHome.LoadWithoutSkills | client/src/pages/StudentHome.js:56-62 | a profile without skills clears the matches without requesting them |
| StudentHome.Opened | client/src/pages/StudentHome.js:229-231 | clicking a card opens the dialog for it, in deselect mode exactly when it is selected |
| StudentHome.Confirmed | client/src/pages/StudentHome.js:273-301 | select adds the id only when absent, broadcasts and navigates; deselect removes every occurrence and broadcasts; failure keeps the ids and shows an error; the dialog closes and nothing is pending either way |
| StudentHome.ConfirmKeepsNoDuplicates | client/src/pages/StudentHome.js:277-289 | the selected ids never gain a duplicate through the dialog |
| StudentHome.SelectThenReopen | client/src/pages/StudentHome.js:229-284 | selecting an unselected card adds it at the end, and reopening it offers removal |
| StudentHome.StudentHomePage.constructor | client/src/pages/StudentHome.js:24-32 | the page starts in its initial state with no effects |
| StudentHome.StudentHomePage.ToggleListValue | client/src/pages/StudentHome.js:74-79 | the profile becomes the toggled one; no request |
| StudentHome.StudentHomePage.AddCustomSkill | client/src/pages/StudentHome.js:82-93 | blank input changes nothing; otherwise the skills are extended and the input cleared |
| StudentHome.StudentHomePage.RemoveCustomSkill | client/src/pages/StudentHome.js:95-102 | the skills become those after removal |
| StudentHome.StudentHomePage.SavePrefs | client/src/pages/StudentHome.js:104-125 | state and requests are those of the preference save |
| StudentHome.StudentHomePage.Load | client/src/pages/StudentHome.js:43-72 | state and requests are those of the guarded load |
| StudentHome.StudentHomePage.OpenConfirm | client/src/pages/StudentHome.js:229-231 | the state becomes the opened dialog |
| StudentHome.StudentHomePage.Cancel | client/src/pages/StudentHome.js:265-266 | the dialog closes and nothing is pending |
| StudentHome.StudentHomePage.Confirm | client/src/pages/StudentHome.js:273-301 | state and effects are those of the confirm handler |
| SeniorHome.NormalizeValueShape | client/src/pages/SeniorHome.js:46-50 | the normalised value holds no white space and no hyphen, is already lower-case, is no longer than the input, and is empty exactly for empty input |
| SeniorHome.NormalizeValueIdempotent | client/src/pages/SeniorHome.js:46-50 | a normalised value normalises to itself |
| SeniorHome.LabelOf | client/src/pages/SeniorHome.js:37-44 | a falsy value's label is ""; any other value gets `formatLabel` |
| SeniorHome.FindTask | client/src/pages/SeniorHome.js:107-109 | the position of the first task normalising to the value; none exactly when no task does |
| SeniorHome.CheckedIffFound | client/src/pages/SeniorHome.js:105-109 | a box is ticked exactly when `toggleNeed` finds a task to delete |
| SeniorHome.CustomNeeds | client/src/pages/SeniorHome.js:177-184 | one custom need per task whose normalised text is non-empty and not a built-in need, and only those, never more than the tasks |
| SeniorHome.NeedsOf | client/src/pages/SeniorHome.js:178-183 | the `map` gives one entry per task, in task order |
| SeniorHome.CustomNeedsAppend | client/src/pages/SeniorHome.js:177-184 | custom needs keep the task order: the list distributes over concatenation |
| SeniorHome.CustomNeedsSingle | client/src/pages/SeniorHome.js:177-184 | one task gives its need exactly when it is custom, and nothing otherwise |
| SeniorHome.CustomNeedsAreChecked | client/src/pages/SeniorHome.js:177-197 | every custom need shown has its box ticked |
| SeniorHome.TaskRemoved | client/src/pages/SeniorHome.js:83-90 | delete then reload; success installs the reloaded tasks (`[]` when missing); either failure shows "Could not delete task." and keeps the tasks |
| SeniorHome.TaskCreated | client/src/pages/SeniorHome.js:94-102 | create the task; a failed create only shows "Could not add task."; a successful create clears the input and reloads; the reload's success installs the tasks and shows "Task added.", its failure shows "Could not add task."; success exactly when both succeed |
| SeniorHome.CustomTaskAdded | client/src/pages/SeniorHome.js:92-103 | blank input does nothing; otherwise the trimmed text is created |
| SeniorHome.NeedToggled | client/src/pages/SeniorHome.js:105-116 | a ticked need deletes the first task normalising to it; an unticked one creates a task with the raw value and reloads; a failure there changes nothing |
| SeniorHome.CustomNeedToggleDeletes | client/src/pages/SeniorHome.js:177-204 | clicking a custom need always deletes a task |
| SeniorHome.CreatedNeedIsChecked | client/src/pages/SeniorHome.js:194-197 | after a task is created a box is ticked exactly when it was ticked before or the new text normalises like its value; a task with the value's own text always ticks it |
| SeniorHome.DeletedNeedIsUnchecked | client/src/pages/SeniorHome.js:194-197 | deleting the only task matching a value unticks its box |
| SeniorHome.LanguagesSaved | client/src/pages/SeniorHome.js:125-139 | without languages: an error and no request; otherwise one update; success installs the returned languages (`[]` when missing) and closes the panel; failure shows the error |
| SeniorHome.Loaded | client/src/pages/SeniorHome.js:57-81 | nothing while loading or signed out, nothing after an immediate unmount; a failed tasks fetch only sets the load error; a full successful load sets tasks, languages, notifications and phone after three requests; the status changes only to the load error |
| SeniorHome.LateResponsesIgnored | client/src/pages/SeniorHome.js:57-81 | once the page unmounts, no later response matters: the outcome does not depend on any response that settles after the unmount |
| SeniorHome.SeniorHomePage.constructor | client/src/pages/SeniorHome.js:28-34 | the page starts in its initial state with no requests |
| SeniorHome.SeniorHomePage.RemoveTask | client/src/pages/SeniorHome.js:83-90 | state and requests are those of the task removal |
| SeniorHome.SeniorHomePage.AddCustomTask | client/src/pages/SeniorHome.js:92-103 | state and requests are those of adding the custom task |
| SeniorHome.SeniorHomePage.CreateTask | client/src/pages/SeniorHome.js:94-102 | state and requests are those of the creating `try` block |
| SeniorHome.SeniorHomePage.ToggleNeed | client/src/pages/SeniorHome.js:105-116 | state and requests are those of the need toggle |
| SeniorHome.SeniorHomePage.ToggleLanguage | client/src/pages/SeniorHome.js:118-123 | the languages are toggled; no request |
| SeniorHome.SeniorHomePage.SaveLanguages | client/src/pages/SeniorHome.js:125-139 | state and requests are those of the language save |
| SeniorHome.SeniorHomePage.Load | client/src/pages/SeniorHome.js:57-81 | state and requests are those of the guarded load |
| AccountForms.EmailTestIsPattern | client/src/pages/Signup.js:33 | the positional e-mail test accepts exactly what `^[^\s@]+@[^\s@]+\.[^\s@]+$` accepts |
| AccountForms.ValidateRequired | client/src/pages/Signup.js:35-41 | each of first name, last name, phone, address and password is flagged, with its message, exactly when blank after trim |
| AccountForms.ValidateEmail | client/src/pages/Signup.js:37-38 | the e-mail is flagged when blank or when non-empty and malformed; the format message overrides the required one |
| AccountForms.ValidateAccepts | client/src/pages/Signup.js:43-44 | nothing is recorded exactly when the form is valid (StudentSignup.js:42-43 is identical) |
| AccountForms.RecordErrors | client/src/pages/Signup.js:35-41 | the rules applied in order: each field is flagged exactly when its check failed, with its message |
| AccountForms.TrimsToEmpty | client/src/pages/Signup.js:35 | `!value.trim()` holds exactly for blank text |
| AccountForms.Note | client/src/pages/Signup.js:35-41 | a rule records its field and message when its condition holds and leaves other entries alone |
| AccountForms.EmailTestNotBlank | client/src/pages/Signup.js:37-38 | a well-formed address is neither blank nor rejected by the format rule |
| AccountForms.BuildPayload | client/src/pages/Signup.js:67-76 | the e-mail is trimmed and lower-cased, names, phone and address trimmed, password and coordinates passed through (StudentSignup.js:66-75 is identical) |
| AccountForms.ValidFormPayload | client/src/pages/Signup.js:64-76 | a valid form sends non-empty names, phone and address and an e-mail that passes the pattern |
| AccountForms.ToLowerKeepsEmailTest | client/src/pages/Signup.js:68 | lower-casing keeps a well-formed e-mail well formed |
| AccountForms.SelectAddress | client/src/pages/Signup.js:178-187 | the chosen address replaces the text; a coordinate the place supplies replaces the old one, a missing one keeps it; nothing else changes (StudentSignup.js:186-195 is identical) |
| AccountForms.SelectWithoutGeometryKeepsCoordinates | client/src/pages/Signup.js:184-185 | a suggestion without geometry after one with geometry keeps the earlier coordinates |
| Signup.RoleOf | client/src/pages/StudentSignup.js:77 | the general page sends the selected role, the student page always "student" |
| Signup.Destination | client/src/pages/Signup.js:82 | "senior" goes to `/senior/home`, any other role to `/student/home` |
| Signup.ErrorMessage | client/src/pages/Signup.js:84-89 | server `error`, then server `message`, then (general page only) the client message, then the page's fallback (StudentSignup.js:83-87 skips the client message) |
| Signup.PagesDisagreeOnClientMessage | client/src/pages/StudentSignup.js:83-87 | a rejection with only a client message is shown by the general page and not by the student page |
| Signup.Edited | client/src/pages/Signup.js:26-29 | `onChange` sets the named field and nothing else |
| Signup.Submitted | client/src/pages/Signup.js:60-91 | the status is cleared and the form validated; a rejected form records its errors and sends nothing; an accepted one is sent |
| Signup.Sent | client/src/pages/Signup.js:66-90 | one signup with the role and payload; success resets the form, clears errors, shows the page's message and navigates to the role's home; failure keeps the form and shows the error |
| Signup.FixHintAfterSubmit | client/src/pages/Signup.js:215-217 | after a submission the "fix the errors" hint shows exactly when the form was rejected |
| Signup.SentPayloadIsValid | client/src/pages/Signup.js:64-78 | whatever is sent carries non-empty names, phone and address and a well-formed e-mail |
| Signup.ResubmitAfterSuccessSendsNothing | client/src/pages/Signup.js:47-64 | submitting again right after a success sends nothing: the reset form is rejected |
| Signup.SignupPage.constructor | client/src/pages/Signup.js:10-22 | the page starts with role "student", the empty form, no errors and an idle status |
| Signup.SignupPage.SetRole | client/src/pages/Signup.js:104-119 | the role toggle sets the role only |
| Signup.SignupPage.Change | client/src/pages/Signup.js:26-29 | the form becomes the edited form |
| Signup.SignupPage.SelectAddress | client/src/pages/Signup.js:178-187 | the form becomes the one after the address selection |
| Signup.SignupPage.Submit | client/src/pages/Signup.js:60-91 | state and effects are those of the submission |
| Signup.SignupPage.Check | client/src/pages/Signup.js:62-64 | the status is cleared and the errors become the validation's |
| Signup.SignupPage.Send | client/src/pages/Signup.js:66-90 | state and effects are those of the sending step |
| SeniorSignup.Edited | client/src/pages/SeniorSignup.js:21-24 | `onChange` sets the named field and nothing else |
| SeniorSignup.Validate | client/src/pages/SeniorSignup.js:36-48 | names, phone and address are flagged exactly when blank, needs exactly when empty, language exactly when unchosen, each with its message |
| SeniorSignup.ValidateAccepts | client/src/pages/SeniorSignup.js:47 | nothing is recorded exactly when the form is valid |
| SeniorSignup.Payload | client/src/pages/SeniorSignup.js:68-75 | names, phone and address are sent trimmed; needs and language pass through unchanged |
| SeniorSignup.ValidFormPayload | client/src/pages/SeniorSignup.js:65-75 | a valid form sends non-empty text fields that are already trimmed, some needs and a language |
| SeniorSignup.RegisteredMessage | client/src/pages/SeniorSignup.js:78-81 | the success text mentions the id exactly when it is truthy |
| SeniorSignup.ErrorMessage | client/src/pages/SeniorSignup.js:85-88 | server `error`, then server `message`, then the fallback; never the client message |
| SeniorSignup.Submitted | client/src/pages/SeniorSignup.js:61-91 | a rejected form records its errors and sends nothing; an accepted one is sent once; success resets the form; failure keeps it and shows the error |
| SeniorSignup.ToggleNeedKeepsChoices | client/src/pages/SeniorSignup.js:26-34 | toggling an offered need keeps the needs distinct and offered |
| SeniorSignup.SentChoicesAreOffered | client/src/pages/SeniorSignup.js:61-77 | what is sent names some offered needs, without repeats, and an offered language |
| SeniorSignup.SeniorSignupPage.constructor | client/src/pages/SeniorSignup.js:8-17 | the page starts with the empty form, no errors and an idle status |
| SeniorSignup.SeniorSignupPage.Change | client/src/pages/SeniorSignup.js:21-24 | the form becomes the edited form |
| SeniorSignup.SeniorSignupPage.ToggleNeed | client/src/pages/SeniorSignup.js:26-34 | the needs are toggled and stay distinct and offered |
| SeniorSignup.SeniorSignupPage.Submit | client/src/pages/SeniorSignup.js:61-91 | state and effects are those of the submission |
| Login.HomeOf | client/src/pages/Login.js:26-28 | "senior" goes to `/senior/home`, "admin" to `/admin`, any other or missing role to `/student/home` |
| Login.LoginAgreesWithSignup | client/src/pages/Login.js:26-28 | for every non-admin role login lands where sign-up does |
| Login.ErrorMessage | client/src/pages/Login.js:30-35 | server `error`, then server `message`, then the client message, then "Could not log in." |
| Login.Started | client/src/pages/Login.js:19-24 | before the request the status is "Signing in..." and the login request is issued with the trimmed, lower-cased e-mail |
| Login.Settled | client/src/pages/Login.js:25-36 | a successful login reports "Logged in." and navigates to the role's home; a failure shows the error and navigates nowhere; the fields are kept |
| Login.Submitted | client/src/pages/Login.js:17-37 | the request is sent first, with the e-mail trimmed and lower-cased and the password as typed; the status never stays loading; success navigates home; failure shows the error; the fields are kept |
| Login.SentEmailIgnoresCase | client/src/pages/Login.js:22-23 | the request is the same whatever surrounding white space or capitals were typed |
| Login.LoginPage.constructor | client/src/pages/Login.js:9-10 | the page starts with empty fields and an idle status |
| Login.LoginPage.Change | client/src/pages/Login.js:12-15 | the named field takes the value |
| Login.LoginPage.Start | client/src/pages/Login.js:19-24 | state and effects become those of starting the request |
| Login.LoginPage.Settle | client/src/pages/Login.js:25-36 | state and effects become those of the settled request |
| Login.LoginPage.Submit | client/src/pages/Login.js:17-37 | state and effects are those of the submission, started then settled |
| AdminPanel.Count | client/src/pages/AdminPanel.js:74-86 | a missing list counts 0 |
| AdminPanel.JoinComma | client/src/pages/AdminPanel.js:100 | joining no needs gives "", one need gives itself, and each further need adds at least a separator |
| AdminPanel.JoinCommaAppend | client/src/pages/AdminPanel.js:100 | appending a need appends ", " and the need to the joined text |
| AdminPanel.NeedsText | client/src/pages/AdminPanel.js:100 | the needs line is never empty: "None" for missing needs, no needs or a single empty need; one need shows itself; several show their comma join |
| AdminPanel.Loaded | client/src/pages/AdminPanel.js:12-31 | overview first, then seniors (`[]` when missing), each applied only while mounted; a failed overview only sets the load error; an unmount after the overview keeps it and ignores the seniors; a failed seniors fetch keeps the overview and sets the load error; the error changes only to the load error; matches and statuses are untouched |
| AdminPanel.LateResponsesIgnored | client/src/pages/AdminPanel.js:12-31 | once the page unmounts, no later response matters: the outcome does not depend on any response that settles after the unmount |
| AdminPanel.MatchesRequested | client/src/pages/AdminPanel.js:34-36 | the senior's button is busy; the page error and that senior's status line are cleared |
| AdminPanel.MatchesFound | client/src/pages/AdminPanel.js:33-45 | only that senior's matches change, to the returned list or `[]`, and only on success; failure keeps the matches and sets the error; nobody is busy afterwards |
| AdminPanel.FindMatchesCommute | client/src/pages/AdminPanel.js:39 | fetching for two different seniors gives the same matches in either order |
| AdminPanel.IdText | client/src/pages/AdminPanel.js:53 | a missing id prints as "undefined", a present one in decimal |
| AdminPanel.SessionCreated | client/src/pages/AdminPanel.js:47-61 | only that senior's status line changes: the session message on success, "Could not create session." on failure |
| AdminPanel.FindMatchesClearsSessionReport | client/src/pages/AdminPanel.js:33-60 | a session report stays until matches are fetched again for that senior |
| AdminPanel.AdminPage.constructor | client/src/pages/AdminPanel.js:5-10 | the page starts with no seniors, matches or statuses, nobody busy and no error |
| AdminPanel.AdminPage.Load | client/src/pages/AdminPanel.js:12-31 | state and requests are those of the guarded load |
| AdminPanel.AdminPage.FindMatches | client/src/pages/AdminPanel.js:33-45 | state and requests are those of the match fetch |
| AdminPanel.AdminPage.CreateSession | client/src/pages/AdminPanel.js:47-61 | state and requests are those of the session creation |

## Left out

- Haversine distance and `round` (backend/matching.py:10-23,68-69): floating-point trigonometry. The distance is an input of at least 0, and scores are exact reals.
- Matching.CalculateScore: `total_score` and `distance_km` are not rounded to 1 and 2 decimals, because rounding is floating-point formatting.
- Matching.SortByScoreDescending: stability of Python's sort is not stated. Only the order by score and the permutation are proved.
- Matching.SortByScoreDescending: Python sorts on the rounded `total_score`, so scores that differ only after the first decimal tie there and keep input order; the model sorts exact scores, so its top N can differ from the server's among such near ties.
- Matching.FindMatches: the Python default `limit=3` (backend/matching.py:73) is not modelled as a default; every caller passes the limit.
- Network calls, axios and the server endpoints become response parameters. Whatever the server does with a request is not modelled.
- JSON.parse and JSON.stringify of the stored user (client/src/components/AuthProvider.js:20,33) become the parameter functions `parse` and `stringify`.
- `Number(...)` on coordinates is the identity: coordinates arrive as JSON numbers or null and are modelled as `Option<real>`.
- Case mapping covers ASCII letters only. JavaScript's full Unicode `toLowerCase`/`toUpperCase` is not modelled.
- Real timers, window events and overlapping refreshes become explicit operations: tick, event, cleanup, and completion of a pending fetch.
- In the home pages and the admin panel, a late completion after unmount is modelled by `unmountAfter`: the number of awaits that had settled when cleanup ran.
- Lists and fields missing from a response are modelled as `None` and replaced by `[]` or `""` where the code does so. Other JSON shapes are not modelled.
- JSX rendering, CSS classes, the map, the address autocomplete widget and routing are not modelled. Only render decisions that carry logic are kept (RoleDashboard.Render, the sign-up hint, the admin needs line and counts).
- The Flask servers, the database layer and the seed scripts are not modelled (SQL and network I/O).
- The e-mail regular expression is modelled by a positional test, proved equal to the pattern read as `a@b.c` pieces (AccountForms.EmailTestIsPattern). No regex engine is modelled.
- Signup.SignupPage.SetRole: requires the general page, because only that page renders the role toggle.
- SeniorSignup.SeniorSignupPage.Change: requires a language value to be empty or one of the offered options, because the select offers only those.
- SeniorSignup.SeniorSignupPage.ToggleNeed: requires an offered need, because only offered needs have checkboxes.
- StudentHome.StudentHomePage.Confirm: requires a pending senior, because the confirm button exists only while the dialog shows one.
- Auth.User: a login or sign-up response is assumed to carry a user object. A missing `role` reads as "", which every redirect treats as "any other role".
- AdminPanel: the failure message of session creation is shown with the same style as success. This is rendering only.
