# M-cell session store and admin views, in Dafny

This project models the client core of the M-cell hostel-maintenance app, an iOS
app written in SwiftUI. The core has three parts.

- **The session store** (`AuthStore`). It holds the signed-in user, the loading
  and session-check flags, the last error, the engineers and complaints fetched
  for the admin, and a single toast slot. Signup, login, logout, the session
  check and the two admin fetches update this store in place.
- **The admin views' logic.** This covers the engineer and complaint filters,
  the status and priority badges, the engineer profile's derived figures
  (skills, workload, projects, contact rows), and what the dashboard tab shows.
- **The root routing decision.** The app shows a screen chosen from the
  session, and a fixed screen for each `AuthRoute`.

Layout, one module per source file:

- `swift.dfy` (`Swift`) gives value-level versions of the Swift operations the
  core relies on:
  - optionals, and `%` as Swift defines it (truncating toward zero);
  - ASCII `lowercased`, and integer interpolation into strings;
  - `prefix`, `filter` and `compactMapValues`.
- `models.dfy` (`Models`) holds the decoded records, and the outcomes of a
  network call as plain values.
- `transitions.dfy` (`Transitions`) has:
  - the store's published fields as a `SessionState` value;
  - one function per main-actor block and one per public operation;
  - the invariant every step keeps;
  - the properties that span several steps.
- `store.dfy` (`Store`) is the `AuthStore` class. Its methods update its fields
  in place. Each method is proved to move the fields exactly as the matching
  `Transitions` function moves a `SessionState`.
- `engineer_detail.dfy`, `engineer_section.dfy`, `complaint_section.dfy`,
  `admin_dashboard.dfy`, `dashboard_section.dfy` and `content_view.dfy` each
  cover the view file of the same name. The badge helpers of
  `AdminDashboard.swift` are in module `AdminDashboard`.

Network results enter as parameters:

- an `AuthReply` for signup, login and the session check: a decoded response,
  or the description of a thrown error;
- a `Delivery` for logout;
- a `Fetched` list for the admin fetches.

The toast's 3-second clear timers are a queue of pending clears in the state.
`FireTimer` runs the earliest one.

Three consequences of the code that the model keeps:

- **A logout request that throws does not sign the user out.** Only
  `handleError("Error logging out")` runs (AuthStore.swift:176-178), so the
  user and `isAuthenticated` stay as they were (see `Transitions.Logout`).
- **A failed signup or login keeps the previous user and authentication.** The
  failure paths set only `error`, the loading flag and the toast
  (AuthStore.swift:231-244), so a signed-in session stays signed in (see
  `Transitions.Authenticate`).
- **Any HTTP answer to `/logout` counts as delivered,** non-2xx included. The
  response of the call is never inspected (AuthStore.swift:167); only a thrown
  error takes the failure path.

## Model

| member | source | states |
|---|---|---|
| Swift.Rem | EngineerDetailView.swift:359-361 | Swift's `%` with a positive divisor: the Euclidean remainder for a non-negative dividend; for a negative one the negated remainder of its magnitude, in (-b, 0] |
| Swift.RemOdd | EngineerDetailView.swift:359-361 | truncating remainder is odd in the dividend: negating the dividend negates the remainder |
| Swift.RemCongruent | EngineerDetailView.swift:359-361 | the dividend minus its truncating remainder is a multiple of the divisor |
| Swift.Lowercased | EngineerDetailView.swift:319 | `lowercased()` keeps the length, lower-cases every ASCII capital, keeps every other character and leaves no ASCII capital |
| Swift.IntToString | EngineerDetailView.swift:214 | integer interpolation spells the number canonically: for a non-negative value its digits read back as the value, for a negative one a '-' followed by digits that read back as its magnitude; no leading zero in either case; '-' exactly for negative values |
| Swift.IntToStringInjective | EngineerDetailView.swift:214 | different integers interpolate to different strings |
| Swift.LowercasedEqualIffIgnoringCase | EngineerDetailView.swift:318-324 | comparing `lowercased()` strings is ASCII case-insensitive equality |
| Swift.Prefix | DashboardSectionContent.swift:76 | `prefix(n)` is a prefix of the input of length n, or the whole input when shorter |
| Swift.Filter | EngineerSectionContent.swift:87-90 | `filter` keeps only elements of the input that satisfy the predicate and is no longer than the input |
| Swift.FilterCounts | EngineerSectionContent.swift:87-90 | `filter` keeps every copy of a satisfying element and no copy of any other: each element's multiplicity is its input multiplicity when it satisfies the predicate, zero otherwise |
| Swift.SeparatedJoinInjective | CompllaintSectionContent.swift:211 | a string joined around a separator the first part lacks splits back into the same parts |
| Swift.CompactMapValues | AuthStore.swift:118 | `compactMapValues { $0 }` keeps exactly the non-nil keys, with their unwrapped values |
| Transitions.Initial | AuthStore.swift:60-71 | a fresh store has no user, is not authenticated, is checking the session, has no error, no data and no toast, and is valid |
| Transitions.SetLoading | AuthStore.swift:210-215 | setLoading keeps the invariant |
| Transitions.SetCheckingAuth | AuthStore.swift:217-222 | setCheckingAuth keeps the invariant |
| Transitions.ShowToast | AuthStore.swift:246-253 | showToast shows the message, schedules exactly one clear for it, changes nothing outside the toast slot and keeps the invariant |
| Transitions.FireTimer | AuthStore.swift:249-252 | a firing clear hides and empties the toast whatever it shows, consumes the earliest clear, changes nothing else and keeps the invariant |
| Transitions.FailureText | AuthStore.swift:224-244 | the failure text is the thrown error's description, or the response's message, or "Authentication failed" when the response has none |
| Transitions.HandleAuthResponse | AuthStore.swift:224-236 | handling a decoded auth response keeps the invariant |
| Transitions.HandleError | AuthStore.swift:238-244 | handling an error keeps the invariant |
| Transitions.SignedOut | AuthStore.swift:169-175 | the delivered-logout block keeps the invariant |
| Transitions.AuthChecked | AuthStore.swift:190-205 | the session-check completion blocks keep the invariant |
| Transitions.Authenticate | AuthStore.swift:102-156 | signup/login end not loading, with data and check flag untouched; an accepted reply stores exactly its user, authenticates, leaves no error and toasts the success text; anything else keeps user and authentication, stores the failure text as error and toasts it |
| Transitions.Logout | AuthStore.swift:159-179 | a delivered logout clears user and authentication with no error and toasts "Logged out successfully"; an undelivered one keeps the session, stores and toasts "Error logging out"; never loading afterwards |
| Transitions.CheckAuth | AuthStore.swift:182-207 | the check ends not checking and with no error, authenticated exactly when the reply signs in, holding its user then and none otherwise; toast, loading flag and data untouched |
| Transitions.FetchEngineers | AuthStore.swift:256-274 | a decoded list replaces the engineers and nothing else; a failure changes only the toast and shows "Failed to fetch engineers" |
| Transitions.FetchComplaints | AuthStore.swift:276-296 | a decoded list replaces the complaints and nothing else; a failure changes only the toast and shows the same engineers text |
| Transitions.SignupBody | AuthStore.swift:110-118 | the signup body has the four credentials always and roll/specialization exactly when present, with the given values |
| Transitions.LoginBody | AuthStore.swift:140-144 | the login body has exactly the keys email, password and role, holding the given values |
| Transitions.LoginBodyIsSignupBodyWithoutName | AuthStore.swift:140-144 | the login body is the signup body without optionals and without the name |
| Transitions.FireTimers | AuthStore.swift:249-252 | firing n clears consumes the n earliest, blanks the toast when n > 0 and changes nothing outside the toast slot |
| Transitions.AllClearsBlankTheToast | AuthStore.swift:246-253 | once every scheduled clear has fired, the toast is hidden and empty and the state is valid |
| Transitions.StaleClearHidesNewerToast | AuthStore.swift:246-253 | a clear scheduled for an earlier message hides a newer message before the newer message's own clear fires |
| Transitions.FetchesCommute | AuthStore.swift:256-296 | the two admin fetches give the same state in either order |
| Transitions.LoginScenario | AuthStore.swift:130-156 | a login answered with an admin user signs in exactly that user and toasts "Login successful" once |
| Transitions.RejectedLoginScenario | AuthStore.swift:224-234 | a rejected login keeps a signed-out session signed out, with the server message as error and toast |
| Store.AuthStore.constructor | AuthStore.swift:58-71 | the new store is valid and in the initial state |
| Store.AuthStore.EngineerPreviewData | AuthStore.swift:76-82 | installs the three fixture engineers and changes nothing else |
| Store.AuthStore.ComplaintPreviewData | AuthStore.swift:84-90 | installs the two fixture complaints and changes nothing else |
| Store.AuthStore.SetLoading | AuthStore.swift:210-215 | the fields move as Transitions.SetLoading, keeping the invariant |
| Store.AuthStore.SetCheckingAuth | AuthStore.swift:217-222 | the fields move as Transitions.SetCheckingAuth, keeping the invariant |
| Store.AuthStore.ShowToast | AuthStore.swift:246-253 | the fields move as Transitions.ShowToast, keeping the invariant |
| Store.AuthStore.FireTimer | AuthStore.swift:249-252 | the fields move as Transitions.FireTimer, keeping the invariant |
| Store.AuthStore.HandleAuthResponse | AuthStore.swift:224-236 | the fields move as Transitions.HandleAuthResponse, keeping the invariant |
| Store.AuthStore.HandleError | AuthStore.swift:238-244 | the fields move as Transitions.HandleError, keeping the invariant |
| Store.AuthStore.Signup | AuthStore.swift:102-127 | posts Transitions.SignupBody and moves the fields as Transitions.Authenticate with "Signup successful" |
| Store.AuthStore.Login | AuthStore.swift:130-156 | posts Transitions.LoginBody and moves the fields as Transitions.Authenticate with "Login successful" |
| Store.AuthStore.Logout | AuthStore.swift:159-179 | the fields move as Transitions.Logout, keeping the invariant |
| Store.AuthStore.CheckAuth | AuthStore.swift:182-207 | the fields move as Transitions.CheckAuth, keeping the invariant |
| Store.AuthStore.GetAllEngineersForAdmin | AuthStore.swift:256-274 | the fields move as Transitions.FetchEngineers, keeping the invariant |
| Store.AuthStore.GetAllComplainsForAdmin | AuthStore.swift:276-296 | the fields move as Transitions.FetchComplaints, keeping the invariant |
| EngineerDetail.StatusColor | EngineerDetailView.swift:318-324 | the profile status colour is orange, green or blue |
| EngineerDetail.StatusColorIgnoresCase | EngineerDetailView.swift:318-324 | orange exactly for "busy" in any letter case, green exactly for "available" in any case, blue for everything else |
| EngineerDetail.WorkloadStatus | EngineerDetailView.swift:337-346 | "Low Workload" exactly for ids up to 2, "Moderate Workload" for 3 to 6, "High Workload" from 7 |
| EngineerDetail.WorkloadColor | EngineerDetailView.swift:326-335 | green, orange and red on the same id bands as the workload label |
| EngineerDetail.Utilization | EngineerDetailView.swift:139 | ten times the id capped at 100; 100 exactly from id 10; non-negative for non-negative ids |
| EngineerDetail.ProjectCount | EngineerDetailView.swift:169 | id % 3 + 1 projects, 1 to 3, for non-negative ids; 1 - (-id) % 3 for negative ones, never more than 3 |
| EngineerDetail.ProjectCardAt | EngineerDetailView.swift:197-203 | card `index` is named "Project " and described "Working on " after the index-th entries of the two lists (wrapping past the end), with progress 30 + 20 * index |
| EngineerDetail.ProjectCardNamesDiffer | EngineerDetailView.swift:197-199 | the first three project cards have different names |
| EngineerDetail.ProjectCards | EngineerDetailView.swift:197-203 | one card per project; card i is "Project " and "Working on " with the i-th entries of the two lists and progress 30 + 20 * i; distinct names, progress 30 to 70 and strictly rising |
| EngineerDetail.InfoBoxes | EngineerDetailView.swift:167-171 | three boxes, Tasks, Projects and Utilization, with id + 3, the project count for every id (id % 3 + 1 under truncation) and the utilisation followed by "%"; whenever the count is non-negative the Projects box counts exactly the project cards; "1", "2" or "3" for non-negative ids |
| EngineerDetail.SkillIndex | EngineerDetailView.swift:361 | the skill index is below the table size and, for a non-negative sum, is its Euclidean remainder |
| EngineerDetail.GetSkills | EngineerDetailView.swift:348-371 | the 4 + id%4 skills picked by the id, in order, then the specialization exactly when non-empty and not yet listed; 4 to 8 skills for issued ids; a non-empty specialization is always listed |
| EngineerDetail.ExperienceLevel | EngineerDetailView.swift:373-376 | a level of the table, the id's remainder position for non-negative ids, "Junior" for the negative ids that do not trap |
| EngineerDetail.Department | EngineerDetailView.swift:378-381 | a department of the table, at the id's remainder position for non-negative ids |
| EngineerDetail.WeeksUntilAvailable | EngineerDetailView.swift:385 | 2 + id % 3 weeks, 2 to 4, for non-negative ids; 2 - (-id) % 3 for negative ones |
| EngineerDetail.Availability | EngineerDetailView.swift:383-389 | "Available now" exactly when the status is not "busy" in any case; otherwise "Available in N weeks" |
| EngineerDetail.SpacesToDots | EngineerDetailView.swift:213 | same length, each space replaced by a dot and every other character kept |
| EngineerDetail.ContactEmail | EngineerDetailView.swift:213 | the name lower-cased with a dot at every space position, then "@company.com"; the local part has no space and no capital |
| EngineerDetail.ContactPhone | EngineerDetailView.swift:214 | the phone starts with "+1 (555) "; for a non-negative id the rest is digits and exactly one dash |
| EngineerDetail.ContactPhoneSplits | EngineerDetailView.swift:214 | for every id, after the prefix a phone number is the first number, a dash and the second; for non-negative ids the first number holds no dash |
| EngineerDetail.ContactPhoneIdentifiesEngineer | EngineerDetailView.swift:214 | engineers with different non-negative ids get different phone numbers |
| EngineerDetail.AvatarInitial | EngineerDetailView.swift:85 | at most one character, never lower-case, the name's first letter up to case |
| EngineerSection.IsShown | EngineerSectionContent.swift:88-89 | an engineer passes exactly when each picker is "All" or equals its status, respectively its specialization |
| EngineerSection.ShownEngineers | EngineerSectionContent.swift:87-90 | the listed engineers are a subsequence of the store, an engineer is listed exactly when it passes both pickers, and as many times as the store holds it |
| EngineerSection.DefaultFiltersShowEverything | EngineerSectionContent.swift:7-8 | with both pickers on "All" every engineer is listed in order |
| EngineerSection.FilteringTwiceIsFilteringOnce | EngineerSectionContent.swift:87-90 | filtering the listed engineers again changes nothing |
| EngineerSection.SectionContent | EngineerSectionContent.swift:84-101 | the placeholder shows exactly when the store has no engineers; otherwise the filtered cards |
| EngineerSection.Card | EngineerSectionContent.swift:182-263 | capitalised initial, name, specialization, status; the status colour and workload colour of the profile: orange exactly for "busy" in any case, green exactly for "available" in any case, blue for every other status; workload green up to id 2, orange for 3 to 6, red from 7 |
| EngineerSection.RefreshData | EngineerSectionContent.swift:347-355 | in a preview installs both fixture sets and nothing else; otherwise fetches engineers, then complaints; the dashboard tab's refreshData (DashboardSectionContent.swift:121-129) is the same function and is modelled by this member |
| AdminDashboard.PriorityBadge | AdminDashboard.swift:84-101 | shows the priority as written; green exactly for "Low", orange exactly for "Medium", red for everything else |
| AdminDashboard.StatusBadge | AdminDashboard.swift:103-128 | relabels "Submitted" as "Unassigned" and keeps every other status; blue, orange, purple, green and yellow each for exactly one status, red for all the rest |
| AdminDashboard.StatusBadgesDistinguishStatuses | AdminDashboard.swift:103-117 | the six wire statuses get pairwise different colours and labels |
| AdminDashboard.StatusBadgeIdentifiesStatus | AdminDashboard.swift:103-128 | equal status badges mean equal statuses, for every pair of strings: "Submitted" and "Unassigned" share a label but not a colour |
| ComplaintSection.TagOf | CompllaintSectionContent.swift:36-42 | a picker title selects its tag from the menu; a title the menu lacks selects nothing |
| ComplaintSection.PickerTags | CompllaintSectionContent.swift:10-42 | the tags are distinct, the opening "In Progress" is one of them, every tag but "All" is a wire status, "Assigned" and "Resolved" cannot be chosen |
| ComplaintSection.PickerTitlesAgainstBadges | CompllaintSectionContent.swift:36-42 | each title names its complaints' badge except "Declined", whose complaints are badged "Rejected" |
| ComplaintSection.IsShown | CompllaintSectionContent.swift:61 | a complaint passes exactly when the selection is "All" or equals its status, and then its badge is the selection's badge |
| ComplaintSection.ShownComplaints | CompllaintSectionContent.swift:61 | the listed complaints are a subsequence of the store, a complaint is listed exactly when the selection is "All" or its status matches, and as many times as the store holds it |
| ComplaintSection.AllShowsEverything | CompllaintSectionContent.swift:61 | "All" lists every complaint in order |
| ComplaintSection.FilteringTwiceIsFilteringOnce | CompllaintSectionContent.swift:61 | filtering the listed complaints again changes nothing |
| ComplaintSection.ShownBadges | CompllaintSectionContent.swift:10-61 | on opening only orange "In Progress" badges are listed; under "Unassigned" only yellow "Unassigned" badges |
| ComplaintSection.SectionContent | CompllaintSectionContent.swift:58-72 | the placeholder shows exactly when the store has no complaints; otherwise the filtered cards |
| ComplaintSection.CardTitle | CompllaintSectionContent.swift:95 | the headline starts with "#C" and ends with the subject |
| ComplaintSection.CardTitleSplits | CompllaintSectionContent.swift:95 | after "#C" a headline is the id, a space, "- " and the subject, and the id holds no space |
| ComplaintSection.CardTitleIdentifiesComplaint | CompllaintSectionContent.swift:95 | equal headlines mean equal ids and equal subjects |
| ComplaintSection.Card | CompllaintSectionContent.swift:92-132 | the card draws the headline, "Submitted by " and the e-mail, and the two top-level badges; its partner CardIdentifiesComplaint proves that the card identifies the complaint it shows |
| ComplaintSection.CardIdentifiesComplaint | CompllaintSectionContent.swift:92-132 | equal complaint cards mean equal id, subject, submitter e-mail, priority and status |
| ComplaintSection.IssuanceDate | CompllaintSectionContent.swift:178 | the first min(11, length) characters of the creation timestamp |
| ComplaintSection.IssuanceOfTimestamps | CompllaintSectionContent.swift:178 | scenario: on the fixture timestamp the row is the date and a trailing space; on an ISO-8601 one, the date and the "T" |
| ComplaintSection.Location | CompllaintSectionContent.swift:211 | hostel, ", ", room, at the stated positions |
| ComplaintSection.LocationIdentifiesRoom | CompllaintSectionContent.swift:211 | with comma-free hostel names, equal locations mean equal hostel and room |
| ComplaintSection.Detail | CompllaintSectionContent.swift:145-237 | the sheet draws "Complaint #" and the id, the description, both badges, the issuance date, the e-mail and contact rows and the location; its partner DetailIdentifiesComplaint proves that the sheet identifies the complaint it shows |
| ComplaintSection.DetailIdentifiesComplaint | CompllaintSectionContent.swift:145-237 | with comma-free hostel names, equal detail sheets mean equal id, description, e-mail, phone, hostel, room, status and priority |
| ComplaintSection.RefreshData | CompllaintSectionContent.swift:134-142 | in a preview installs the fixture complaints only; otherwise fetches the complaints; the engineers are never touched |
| DashboardSection.EngineerPanel | DashboardSectionContent.swift:74-84 | the placeholder shows exactly when there are no engineers; otherwise exactly the first engineer |
| DashboardSection.ComplaintPanel | DashboardSectionContent.swift:88-98 | the placeholder shows exactly when there are no complaints; otherwise the first min(3, n) complaints in order |
| DashboardSection.EngineerCardColor | DashboardSectionContent.swift:222-224 | orange exactly for "Busy" spelled so, green otherwise |
| DashboardSection.EngineerCardColorAgreesWithProfile | DashboardSectionContent.swift:222-224 | for every status, the dashboard colour equals the profile colour exactly when the status is "Busy" as written or "available" in any case |
| DashboardSection.EngineerCardColorAgainstProfile | DashboardSectionContent.swift:222-224 | scenario: the dashboard and the profile agree on "Busy" and "Available" but not on "busy" or an unknown status |
| DashboardSection.EngineerCard | DashboardSectionContent.swift:194-231 | the card draws the name's first character as written, the name, specialization and status, in the dashboard colour; its partner EngineerCardAgainstEngineersTab compares it with the engineers tab's card |
| DashboardSection.EngineerCardAgainstEngineersTab | DashboardSectionContent.swift:194-231 | against the engineers tab's card: the same name, specialization and status; the same initial exactly when the name is empty or does not start lower-case; the same status colour exactly for "Busy" as written or "available" in any case |
| DashboardSection.AvatarInitialsAgainstEngineersTab | DashboardSectionContent.swift:200 | the dashboard and engineers-tab initials agree exactly when the name is empty or does not start lower-case |
| DashboardSection.ComplaintCard | DashboardSectionContent.swift:233-264 | the dashboard complaint card shows what the complaints tab card shows |
| DashboardSection.PriorityBadge | DashboardSectionContent.swift:131-148 | the tab's own priority badge equals the top-level one |
| DashboardSection.StatusBadge | DashboardSectionContent.swift:150-175 | the tab's own status badge equals the top-level one |
| ContentView.RoleDashboard | ContentView.swift:15-24 | "student", "admin" and "engineer" each select their own dashboard, every other role none |
| ContentView.RootScreen | ContentView.swift:10-27 | the progress view exactly while checking; a dashboard only for an authenticated user of that role; the role's dashboard whenever it has one; the landing page when signed out; never the login or signup view |
| ContentView.Destination | ContentView.swift:29-42 | each route pushes its own screen: Login exactly the login view, Signup exactly the signup view, each dashboard route exactly its dashboard; never the progress view or the landing page |
| ContentView.DashboardRoutesMatchRoles | ContentView.swift:15-42 | the admin, student and engineer routes push the dashboards the root picks for the "admin", "student" and "engineer" roles |
| ContentView.DestinationInjective | ContentView.swift:29-42 | different routes push different screens |
| ContentView.DestinationCoversScreens | ContentView.swift:29-42 | every pushable screen is pushed by some route |
| ContentView.StartsCheckingAuthentication | ContentView.swift:11-12 | a fresh store shows the progress view |
| ContentView.RootAfterCheckAuth | ContentView.swift:10-27 | after the session check the root is the signed-in role's dashboard (landing page for other roles) or the landing page |
| ContentView.RootAfterAuthenticate | ContentView.swift:13-24 | an accepted login or signup opens the new role's dashboard; a failed one leaves the root unchanged |
| ContentView.RootAfterLogout | ContentView.swift:25-26 | a delivered logout returns to the landing page; an undelivered one leaves the root unchanged |

## Left out

- URL construction, `URLRequest`, `URLSession` and JSON encoding and decoding
  are left out. A request's outcome is a parameter, and a request body is a
  string map. The `guard let url … else { return }` exits cannot fire with the
  constant base URL, so they are not modelled.
- Concurrency is left out: `async`/`await`, `MainActor.run` scheduling, and two
  operations running at once. Each main-actor block is one atomic step, and each
  public operation is its steps in order, with no other operation between them.
- Real time is left out. The 3-second toast delay is a queue of pending clears,
  fired by `FireTimer`.
- `isPreview()` reads the process environment. Every `RefreshData` takes its
  result as a boolean parameter.
- SwiftUI layout and styling are left out. This covers padding, gradients,
  animations, sheet presentation, `NavigationPath`, and the engineer card's
  pressed and options state. Colours are kept only as a hue token.
- The `CGFloat` widths of the workload bars are floating-point layout and are
  left out. The workload thresholds are modelled on the integer id.
- EngineerDetail.Utilization: `Int(min(CGFloat(id) * 10, 100))` is modelled on
  integers. The product is taken in `CGFloat`, so it cannot overflow, but
  `CGFloat(id)` is inexact for ids beyond 2^53, and `Int(...)` traps for ids
  below about `Int.min / 10`; neither edge is modelled.
- Swift's 64-bit `Int` overflow traps, in `id * 3 + i`, `100 + id * 111` and
  `id + 3`, are not modelled. Integers are unbounded.
- EngineerDetail.GetSkills, EngineerDetail.ExperienceLevel,
  EngineerDetail.Department and EngineerDetail.ProjectCards require an id for
  which the source does not trap. A negative id can make `% count` negative, and
  indexing with it, or `0..<n` with a negative `n`, traps at run time. The
  requires clauses exclude exactly those ids (`SkillIndicesInRange`,
  `Rem(id, 5) >= 0`, `ProjectCount(id) >= 0`); the trap itself is not modelled.
- EngineerDetail.AvatarInitial, DashboardSection.EngineerCard and
  ComplaintSection.IssuanceDate model `prefix(1)` and `prefix(11)` on
  characters as sequence elements. Swift counts grapheme clusters, so a name or
  timestamp with combining marks can differ.
- `lowercased()` and `capitalized` are modelled on ASCII letters only. Unicode
  case mapping is left out.
- EngineerDetail.AvatarInitial models `capitalized.prefix(1)` as the upper-case
  first character. Swift's word-based capitalisation of the rest of the name is
  not modelled, because only the first character is shown.
- The engineers tab's search field is not modelled. Its text is never read by
  the filter.
- `print` calls are left out.
- SignUpApp.swift is the app entry point and is not part of this model. It runs
  only a session check on a second store, which ContentView does not use.
- AuthRoute.swift is used only as the `ContentView.AuthRoute` datatype.
- The hard-coded `ActionCard` figures in AdminDashboard.swift and
  DashboardSectionContent.swift are constants for display only and are left out.
- The `onAppear` task of ContentView starts `checkAuth`. Only its effect is
  modelled, by `ContentView.RootAfterCheckAuth`.
- The "Details" and "Assign Engineer +" buttons are left out. They only open a
  sheet or do nothing.
- The `Identifiable` identities, `Models.Engineer.Id` and `Models.Complaint.Id`,
  are the wire ids and carry no contract.
