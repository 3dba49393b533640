# MineTrack downtime core, modelled in Dafny

MineTrack (mine-uptime-tracker) is a browser client that mine crews use to
track equipment downtime. Its core parts are:

- an equipment registry seeded with eight machines;
- a downtime ledger whose events move from `open` to `in_progress` to `closed`;
- a signed-in user whose role decides, through a static permission table,
  which pages and buttons they get;
- the forms and pages that tie these together: login, reporting a
  downtime, the report-breakdown dialog, the downtimes page with its
  Start Repair and Close buttons, the close dialog, the route guards, the
  navigation sidebar, the equipment search and the dashboard tallies.

This project models that core and proves what the code promises about
it.

How the model is laid out:

- One module per source file. `Common` holds the `Option` and
  `Stored` (absent / unparsable / parsed) datatypes, and `Text` holds the
  string helpers the code relies on. These are `toLowerCase`, `trim`,
  `includes`, the whitespace-to-`-` slug and the single `replace("_", " ")`.
- State the code replaces in place becomes a class with a `seq` field:
  - `DowntimeStore.DowntimeLedger` for the event list;
  - `EquipmentStore.EquipmentRegistry` for the equipment list;
  - `Session.AuthSession` for the signed-in user;
  - the dialogs' and login page's input state (`CloseForm`, `BreakdownForm`, `LoginForm`).
- Each store mutator assigns the result of a pure function to its field:
  `MarkInProgress`, `MarkClosed`, `WithStatusById` and `WithStatusByName`.
  Each function states, element by element, which records change and how.
- The handlers are methods over those objects. Their contracts give the
  validation guard, the order of the writes, the trimming and the
  defaults.
- The pure rules are functions with lemmas about them: the permission
  table, route guards, nav visibility, button gating, search and tallies.
- The router compares a location with its route paths ignoring ASCII case
  and trailing slashes (`AppRoutes.NormalPath`). Links and redirects name
  one of the five route paths, so they are modelled by the route
  (`AppRoutes.RoutePath`) rather than by its text.
- `causeCounts` is filled by a `forEach` loop. It is a method with a loop,
  proved against a specification function (`CausesInOrder`, `CountCause`).
- `Lifecycle` runs whole scenarios through the handlers.

Behaviour worth knowing:

- `setEquipmentDown` and `setEquipmentRunning` set every record whose
  name matches, not only the first (`src/hooks/useEquipmentStore.ts:44-46`,
  `:55-57`), and `WithStatusByName` does the same.
- `startRepair` does not look at the current status, so it also reopens
  a closed event (`StartRepairReopensClosed`). Only the downtimes page's
  button gating prevents that (`GatedTransitionsKeepWellFormed`).
- Starting a repair never sets the equipment to `under_repair`. It stays
  `down` until the close (`Lifecycle.BreakdownRepairClose`).
- The dashboard chart capitalises only the first letter of the stored
  cause and replaces only its first `_`. Its labels therefore differ from
  `CAUSE_LABELS` ("Operator error" against "Operator Error", "Scheduled"
  against "Scheduled Maintenance").

## Model

| member | source | states |
|---|---|---|
| Types.RoleLabel | src/types/index.ts:13-24 | `ROLE_LABELS`: one label per role; `RoleLabelsTotalAndDistinct` states its properties |
| Types.CauseKey | src/types/index.ts:40-47 | the stored spelling of each cause; `AllCausesEnumerated` states that the keys are distinct |
| Types.CauseLabel | src/types/index.ts:49-57 | `CAUSE_LABELS`: one display label per cause; `AllCausesEnumerated` states that none is empty |
| Types.AllRolesEnumerated | src/types/index.ts:1-11 | there are exactly ten roles: the list of them has length ten, holds every role and has no repeats |
| Types.RoleLabelsTotalAndDistinct | src/types/index.ts:13-24 | every role has a non-empty label, and no two roles share one |
| Types.AllCausesEnumerated | src/types/index.ts:40-57 | there are exactly seven causes, each with a non-empty label, and their stored keys are distinct |
| RoleAccess.AccessFor | src/hooks/useRoleAccess.ts:15-116 | `ACCESS_MAP`: the eight flags of each of the ten roles; the `RoleAccess` lemmas below state its rows' properties |
| RoleAccess.UseRoleAccess | src/hooks/useRoleAccess.ts:118-133 | with no user, all eight flags are false; with a user, the result is the table row for the user's role |
| RoleAccess.EveryRoleViewsAndReports | src/hooks/useRoleAccess.ts:15-116 | every role may view equipment and report downtime |
| RoleAccess.OnlyOperatorLacksDashboard | src/hooks/useRoleAccess.ts:15-116 | a role lacks the dashboard if and only if it is operator |
| RoleAccess.RepairRights | src/hooks/useRoleAccess.ts:15-116 | start-repair and close rights coincide for every role, and hold exactly for maintenance, engineer and admin |
| RoleAccess.RepairImpliesDowntimeList | src/hooks/useRoleAccess.ts:15-116 | a role that may start repairs may view the downtimes list |
| RoleAccess.UserManagementRights | src/hooks/useRoleAccess.ts:15-116 | user management holds exactly for mine manager and admin, and implies equipment management |
| RoleAccess.AdminHoldsAll | src/hooks/useRoleAccess.ts:106-115 | admin has all eight flags |
| Session.AuthSession.constructor | src/contexts/AuthContext.tsx:20-23 | the session starts with the stored user, or none |
| Session.AuthSession.Login | src/contexts/AuthContext.tsx:25-29 | the user becomes exactly the given name, role and number, and the session is authenticated |
| Session.AuthSession.Logout | src/contexts/AuthContext.tsx:31-34 | the user becomes none and the session is not authenticated |
| Session.LoginTwiceThenLogout | src/contexts/AuthContext.tsx:25-37 | after two logins only the second user remains; after logout none does |
| Session.AuthSession.IsAuthenticated | src/contexts/AuthContext.tsx:37 | `!!user`: authenticated exactly when there is a user; `Login` and `Logout` state it after each call |
| Text.Lower | src/hooks/useDowntimeStore.ts:90 | same length, each character case-folded |
| Text.LowerIdempotent | src/hooks/useDowntimeStore.ts:90 | folding twice is folding once |
| Text.Trim | src/pages/ReportDowntime.tsx:45 | empty exactly when the input is all whitespace; otherwise neither end of the result is whitespace; the result is a slice of the input, and everything cut off before and after it is whitespace |
| Text.TrimUnique | src/pages/ReportDowntime.tsx:45 | any slice that cuts only whitespace from both ends and leaves no whitespace at either end is the trimmed string, so the contract of `Trim` fixes its result |
| Text.TrimIdempotent | src/pages/ReportDowntime.tsx:51 | trimming twice is trimming once |
| Text.Contains | src/pages/Equipment.tsx:21-23 | true exactly when the needle occurs at some position of the text |
| Text.Slug | src/hooks/useDowntimeStore.ts:33 | the equipment id is no longer than the name and holds no whitespace |
| Text.SlugOfWord | src/hooks/useDowntimeStore.ts:33 | a name without whitespace slugs to its lower-case form |
| Text.SlugWordThen | src/hooks/useDowntimeStore.ts:33 | a leading word is lower-cased and kept as it is in front of the rest's slug |
| Text.SlugRunThen | src/hooks/useDowntimeStore.ts:33 | a whole run of whitespace becomes a single `-` |
| Text.SlugIgnoresCase | src/hooks/useDowntimeStore.ts:33 | names that differ only in case get the same id |
| Text.ReplaceFirstAt | src/pages/Dashboard.tsx:54 | with the first `from` at position k, exactly that character is replaced |
| Text.ReplaceFirstAbsent | src/pages/Dashboard.tsx:54 | with no `from` in the string, nothing changes |
| DowntimeStore.DowntimeLedger.constructor | src/hooks/useDowntimeStore.ts:6-13 | the ledger starts with the stored events, or empty when nothing is stored or it does not parse |
| DowntimeStore.DowntimeLedger.AddDowntime | src/hooks/useDowntimeStore.ts:22-50 | returns an open event with the given id and time, the slugged id, the input fields copied verbatim and no end time, root cause or notes; the ledger becomes that event followed by the old ledger |
| DowntimeStore.NewEvent | src/hooks/useDowntimeStore.ts:31-43 | the record `addDowntime` builds; `NewEventIsOpen` and `AddDowntime` state its fields |
| DowntimeStore.NewEventIsOpen | src/hooks/useDowntimeStore.ts:31-43 | a new event is open, well formed, and carries the name and its slug |
| DowntimeStore.MarkInProgress | src/hooks/useDowntimeStore.ts:54-56 | same length; every event with the id is set in progress, whatever its status was; every other event is unchanged |
| DowntimeStore.DowntimeLedger.StartRepair | src/hooks/useDowntimeStore.ts:52-61 | the ledger becomes `MarkInProgress` of the old ledger |
| DowntimeStore.MarkClosed | src/hooks/useDowntimeStore.ts:65-75 | same length; every event with the id is closed at the given time, with the root cause and notes verbatim; every other event is unchanged |
| DowntimeStore.DowntimeLedger.CloseDowntime | src/hooks/useDowntimeStore.ts:63-80 | the ledger becomes `MarkClosed` of the old ledger |
| DowntimeStore.UnknownIdIsNoOp | src/hooks/useDowntimeStore.ts:54-75 | with an id no event has, both transitions leave the ledger equal to before |
| DowntimeStore.MarkClosedKeepsWellFormed | src/hooks/useDowntimeStore.ts:65-75 | closing keeps every event well formed: closed exactly when end time, root cause and notes are present, and no end before start |
| DowntimeStore.MarkInProgressKeepsWellFormed | src/hooks/useDowntimeStore.ts:54-56 | starting a repair keeps the ledger well formed when no matching event is closed |
| DowntimeStore.StartRepairReopensClosed | src/hooks/useDowntimeStore.ts:54-56 | starting a repair on a closed event makes it in progress while it keeps its end time, so the ledger is no longer well formed |
| DowntimeStore.ActiveDowntimes | src/hooks/useDowntimeStore.ts:82-84 | holds exactly the events that are not closed |
| DowntimeStore.ActiveDowntimesAppend | src/hooks/useDowntimeStore.ts:82-84 | the filter distributes over concatenation, so ledger order is kept |
| DowntimeStore.DowntimeForEquipment | src/hooks/useDowntimeStore.ts:86-95 | nothing exactly when no non-closed event has the name, ignoring case; otherwise the lowest-index such event |
| DowntimeStore.DowntimeForEquipmentIgnoresCase | src/hooks/useDowntimeStore.ts:88-92 | names that differ only in case find the same event |
| EquipmentStore.SeedFacts | src/hooks/useEquipmentStore.ts:6-15 | of the seed constant `DefaultEquipment`: eight records with ids "1" to "8" and the seed's eight names in order; Drill Rig 101 down, Truck 401 idle, Grader 501 under repair, the rest running |
| EquipmentStore.Machine | src/hooks/useEquipmentStore.ts:6-15 | the shape of a seed record: `location` equal to `section`, and no `serial_number`, `installation_date` or `last_maintenance`; `SeedFacts` states the records built with it |
| EquipmentStore.SeedNamesDistinct | src/hooks/useEquipmentStore.ts:6-15 | the seed's names are pairwise distinct |
| EquipmentStore.EquipmentRegistry.constructor | src/hooks/useEquipmentStore.ts:17-24 | the registry starts with the stored records, or the seed when nothing is stored or it does not parse |
| EquipmentStore.WithStatusById | src/hooks/useEquipmentStore.ts:35 | same length; records whose id equals the id get the status and nothing else of theirs changes; all others are unchanged |
| EquipmentStore.EquipmentRegistry.UpdateStatus | src/hooks/useEquipmentStore.ts:33-40 | the registry becomes `WithStatusById` of the old registry |
| EquipmentStore.WithStatusByName | src/hooks/useEquipmentStore.ts:44-46 | same length; every record whose name matches ignoring case gets the status, not only the first; all others are unchanged |
| EquipmentStore.EquipmentRegistry.SetEquipmentDown | src/hooks/useEquipmentStore.ts:42-51 | the registry becomes `WithStatusByName(old, name, down)` |
| EquipmentStore.EquipmentRegistry.SetEquipmentRunning | src/hooks/useEquipmentStore.ts:53-62 | the registry becomes `WithStatusByName(old, name, running)` |
| EquipmentStore.WithStatusByNameIdempotent | src/hooks/useEquipmentStore.ts:44-46 | setting by name twice gives the same registry as once |
| EquipmentStore.NoMatchIsNoOp | src/hooks/useEquipmentStore.ts:35-57 | with no matching id or name, the setters leave the registry equal to before |
| CloseDowntimeDialog.FindById | src/components/downtime/CloseDowntimeDialog.tsx:24 | nothing exactly when no event has the id; otherwise the first event that has it |
| CloseDowntimeDialog.RegistryAfterClose | src/components/downtime/CloseDowntimeDialog.tsx:32 | `if (dt) setEquipmentRunning(dt.equipment_name)`: the machine named on the event found before the close goes back to running, and no event means no change; `CloseUnknownIdIsNoOp` states the no-event case, and `HandleClose` and `CloseFromDialog` use it for the new registry |
| CloseDowntimeDialog.CloseForm.constructor | src/components/downtime/CloseDowntimeDialog.tsx:21-22 | both inputs start empty |
| CloseDowntimeDialog.CloseForm.HandleClose | src/components/downtime/CloseDowntimeDialog.tsx:26-37 | closes exactly when the trimmed root cause is non-empty. A rejected close changes nothing. Otherwise: the ledger is closed with the trimmed root cause and notes; the equipment named on the event found before the close is set running; both inputs are reset. The event's status is not checked |
| CloseDowntimeDialog.CloseUnknownIdIsNoOp | src/components/downtime/CloseDowntimeDialog.tsx:24-32 | with an unknown id, neither the ledger nor the registry changes |
| CloseDowntimeDialog.CloseTargetsEventName | src/components/downtime/CloseDowntimeDialog.tsx:24-32 | the closed event gets the root cause, and exactly the records matching the event's stored name go back to running |
| ReportDowntime.OrUnknown | src/pages/ReportDowntime.tsx:52-53 | `s \|\| "Unknown"`: never empty, and a non-empty value is kept |
| ReportDowntime.ReporterName | src/pages/ReportDowntime.tsx:56 | `user?.name \|\| "Unknown"`: the name when there is a user with a non-empty name, "Unknown" otherwise; never empty |
| ReportDowntime.ReportInput | src/pages/ReportDowntime.tsx:50-57 | the name and description are trimmed; an empty trimmed type or section becomes "Unknown"; the cause is copied; the reporter is the user's name or "Unknown" |
| ReportDowntime.PathAfterReport | src/pages/ReportDowntime.tsx:65 | the "/downtimes" route exactly when the user may view downtimes, the "/equipment" route otherwise |
| ReportDowntime.PathAfterReportRenders | src/pages/ReportDowntime.tsx:65 | for a signed-in reporter that route renders its page (the downtime list or the equipment page) with no further redirect |
| ReportDowntime.HandleSubmit | src/pages/ReportDowntime.tsx:42-67 | writes exactly when the trimmed name and description are non-empty and a cause is chosen. Nothing changes otherwise. On success: the ledger gains the new open event at the front; the equipment matching the trimmed name is set down; the page navigates only without `onSuccess`. There is no check for an existing open event |
| ReportDowntime.ReportComplete | src/pages/ReportDowntime.tsx:45 | the form's guard: trimmed name and description non-empty and a cause chosen; `HandleSubmit` submits exactly when it holds |
| ReportBreakdownDialog.BreakdownInput | src/components/equipment/ReportBreakdownDialog.tsx:38-45 | the name, type and section pass through untrimmed; only the description is trimmed; the reporter defaults to "Unknown" |
| ReportBreakdownDialog.BreakdownForm.constructor | src/components/equipment/ReportBreakdownDialog.tsx:30-31 | the description starts empty and no cause is chosen |
| ReportBreakdownDialog.BreakdownForm.HandleSubmit | src/components/equipment/ReportBreakdownDialog.tsx:33-51 | writes exactly when the trimmed description is non-empty and a cause is chosen. Nothing changes otherwise. On success: the event is added first, then the same name is set down, then the inputs are reset |
| DowntimesPage.ClosedDowntimes | src/pages/Downtimes.tsx:24 | holds exactly the closed events |
| DowntimesPage.ActiveClosedPartition | src/pages/Downtimes.tsx:23-24 | the active and closed lists together are the ledger as a multiset, and their lengths add up to its length |
| DowntimesPage.ClosedDowntimesAppend | src/pages/Downtimes.tsx:24 | the closed filter distributes over concatenation, so ledger order is kept |
| DowntimesPage.OffersStartRepair | src/pages/Downtimes.tsx:62 | Start Repair shows for an open event when the user may start repairs; `ButtonGating` states its properties |
| DowntimesPage.OffersClose | src/pages/Downtimes.tsx:68 | Close Downtime shows for an in-progress event when the user may close downtimes; `ButtonGating` states its properties |
| DowntimesPage.ButtonGating | src/pages/Downtimes.tsx:62-73 | no event offers both buttons and closed events offer none; either button is shown only to a signed-in maintenance, engineer or admin user |
| DowntimesPage.GatedTransitionsKeepWellFormed | src/pages/Downtimes.tsx:18-73 | on a well-formed ledger with unique ids, a transition that a shown button triggers keeps the ledger well formed |
| DowntimesPage.CloseDialogId | src/pages/Downtimes.tsx:109-113 | the dialog gets the target id when a non-empty target is set, "" otherwise |
| DowntimesPage.CloseDialogOpen | src/pages/Downtimes.tsx:110 | `open={!!closeTarget}`: open exactly for a set, non-empty target; `CloseDialogId` states the id handed over in each case |
| AppRoutes.ProtectedRoute | src/App.tsx:15-19 | signed out means a redirect to /login; signed in renders the inner element |
| AppRoutes.DashboardGuard | src/App.tsx:21-25 | renders the dashboard exactly when the flag holds, otherwise redirects to /equipment |
| AppRoutes.DowntimesGuard | src/App.tsx:27-31 | renders the downtimes page exactly when the flag holds, otherwise redirects to /equipment |
| AppRoutes.Route | src/App.tsx:33-52 | `AppRoutes`: the route the location matches, looked up in the table; the lemmas below state what each location leads to |
| AppRoutes.RouteTo | src/App.tsx:15-49 | what each table entry shows, or the `*` redirect to "/"; `RenderedPagesAreAllowed`, `OpenPagesForAnyUser` and `SignedOutGoesToLogin` state its outcomes |
| AppRoutes.Resolve | src/App.tsx:15-49 | the page reached by following `<Navigate replace>` redirects a bounded number of times; `RoutingSettles` states that two hops suffice |
| AppRoutes.DropTrailingSlashes | src/App.tsx:36-49 | a prefix of the path, not ending in `/`, with only `/` cut off |
| AppRoutes.MatchRoute | src/App.tsx:36-49 | a matched route's path is the location's normal form; no match means no route path equals it |
| AppRoutes.NormalPath | src/App.tsx:36-49 | the form in which a location is compared with the route paths: lower-case, trailing `/` dropped, "/" when nothing is left; `MatchRouteIff`, `TrailingSlashIgnored` and `RouteIgnoresCase` state what it decides |
| AppRoutes.MatchNormal | src/App.tsx:36-47 | a normal-form path found in the table gives the route with that path, and no route has the path of a miss |
| AppRoutes.MatchRouteIff | src/App.tsx:36-49 | a location matches a route exactly when its normal form (lower case, no trailing slashes) is that route's path |
| AppRoutes.TrailingSlashIgnored | src/App.tsx:36-49 | a trailing `/` does not change where a location leads |
| AppRoutes.RouteIgnoresCase | src/App.tsx:36-49 | locations that differ only in ASCII case lead to the same place |
| AppRoutes.SignedOutGoesToLogin | src/App.tsx:37-48 | every location matching a protected route sends a signed-out user to /login |
| AppRoutes.LoginAndFallback | src/App.tsx:36-49 | a location whose normal form is /login always renders the login page, and one matching no route redirects to "/" |
| AppRoutes.OpenPagesForAnyUser | src/App.tsx:45-46 | the /equipment and /report-downtime routes render for any signed-in user |
| AppRoutes.RenderedPagesAreAllowed | src/App.tsx:15-49 | for every match and no match: a rendered page other than login implies a user, and the dashboard and downtimes pages imply their flags |
| AppRoutes.RoutingSettles | src/App.tsx:33-52 | for every match and no match, following redirects reaches a page within two hops: the login page when signed out, another page when signed in |
| AppLayout.VisibleItems | src/components/layout/AppLayout.tsx:37 | `navItems.filter((n) => n.visible)`; `VisibleItemsMembers` and `VisibleNavInOrder` state its result |
| AppLayout.NavPath | src/components/layout/AppLayout.tsx:31-34 | the `to` of each entry; `ShownLinksRender` states that each shown link renders a page |
| AppLayout.NavTitle | src/components/layout/AppLayout.tsx:31-34 | the `label` of each entry |
| AppLayout.NavTitlesDistinct | src/components/layout/AppLayout.tsx:31-34 | no two entries share a label |
| AppLayout.NavVisible | src/components/layout/AppLayout.tsx:31-34 | the `visible` flag of each entry; `LinkShownIffFlag` and `VisibleItemsMembers` state that it decides what is shown |
| AppLayout.VisibleItemsMembers | src/components/layout/AppLayout.tsx:37 | an item is kept exactly when it is in the list and its flag holds, and the list never grows |
| AppLayout.VisibleNavInOrder | src/components/layout/AppLayout.tsx:30-37 | the visible items are the flagged ones among Dashboard, Equipment, Report Downtime, Downtimes, in that order |
| AppLayout.LinkShownIffFlag | src/components/layout/AppLayout.tsx:30-37 | each item is shown exactly when its flag holds |
| AppLayout.ShownLinksRender | src/components/layout/AppLayout.tsx:30-35 | every link shown to a signed-in user leads to a route that renders a page without a redirect |
| AppLayout.RoleLine | src/components/layout/AppLayout.tsx:92-94 | the role's label for a user, "" for none |
| AppLayout.HandleLogout | src/components/layout/AppLayout.tsx:25-28 | the session ends with no user and the app goes to the /login route, which renders the login page |
| LoginPage.CheckLogin | src/pages/Login.tsx:24-28 | accepts exactly when the trimmed name, the trimmed ZP number and the role are all present, giving the trimmed user; otherwise gives the first failing check's message |
| LoginPage.FirstFailureWins | src/pages/Login.tsx:24-26 | the name is checked before the ZP number, and the ZP number before the role |
| LoginPage.LoginForm.constructor | src/pages/Login.tsx:16 | the error starts empty |
| LoginPage.LoginForm.HandleSubmit | src/pages/Login.tsx:20-30 | a rejected submit sets the message and leaves the session alone; an accepted one clears the error, logs the trimmed user in and goes to the "/" route |
| EquipmentPage.MatchesSearch | src/pages/Equipment.tsx:19-24 | the filter's test: name, section or machine type contains the search, both lower-cased; `FilterEquipment` and `SearchIgnoresCase` state its use |
| EquipmentPage.FilterEquipment | src/pages/Equipment.tsx:19-24 | a record is shown exactly when its name, section or machine type contains the search, ignoring case |
| EquipmentPage.FilterEquipmentAppend | src/pages/Equipment.tsx:19-24 | the filter distributes over concatenation, so registry order is kept |
| EquipmentPage.EmptySearchShowsAll | src/pages/Equipment.tsx:19-24 | an empty search shows the whole registry |
| EquipmentPage.SearchIgnoresCase | src/pages/Equipment.tsx:19-24 | searches that differ only in case show the same records |
| EquipmentPage.IsDown | src/pages/Equipment.tsx:48 | `isDown`: down or under repair; `ExactlyOneCardAction` states its use |
| EquipmentPage.OffersReportBreakdown | src/pages/Equipment.tsx:64-78 | the card shows Report Breakdown when the machine is not down; `ExactlyOneCardAction` states it excludes the info button |
| EquipmentPage.OffersDowntimeInfo | src/pages/Equipment.tsx:80-85 | the card shows View Downtime Info when the machine is down or under repair; `ExactlyOneCardAction` and `SeedDrillRigHasNoEvent` state its use |
| EquipmentPage.ExactlyOneCardAction | src/pages/Equipment.tsx:48-85 | each card offers exactly one of Report Breakdown and View Downtime Info; the info button shows exactly for down or under-repair equipment |
| EquipmentPage.InfoDowntime | src/pages/Equipment.tsx:26 | nothing for an absent or empty target; otherwise nothing exactly when no event for that name (ignoring case) is open or in progress, and else the first such event in ledger order |
| EquipmentPage.SeedDrillRigHasNoEvent | src/pages/Equipment.tsx:26 | with a fresh ledger, the seeded Drill Rig 101 offers the info button but no event is found for it |
| Dashboard.DownEquipment | src/pages/Dashboard.tsx:33 | holds exactly the equipment that is down or under repair |
| Dashboard.DownEquipmentAppend | src/pages/Dashboard.tsx:33 | the filter distributes over concatenation, so registry order is kept |
| Dashboard.DownEquipmentMultiplicity | src/pages/Dashboard.tsx:33 | each down or under-repair record is kept as many times as it occurs, and no other record is kept |
| Dashboard.CurrentlyDown | src/pages/Dashboard.tsx:33 | the length of the filtered list; `CurrentlyDownAdds` and `CurrentlyDownBounds` state its value |
| Dashboard.CurrentlyDownAdds | src/pages/Dashboard.tsx:33 | "currently down" adds up over concatenation, counting one for each down or under-repair record and zero for each other |
| Dashboard.CurrentlyDownBounds | src/pages/Dashboard.tsx:32-33 | "currently down" is at most the total, and is zero exactly when nothing is down or under repair |
| Dashboard.ActivePlusClosedIsTotal | src/pages/Dashboard.tsx:34-35 | active plus closed downtimes make up all downtimes |
| Dashboard.TotalEquipment | src/pages/Dashboard.tsx:32 | `equipment.length`; `CurrentlyDownBounds` states that the down count never exceeds it |
| Dashboard.ActiveDowntimeCount | src/pages/Dashboard.tsx:34 | the number of events that are not closed; `ActivePlusClosedIsTotal` states that with the closed ones it makes up the ledger |
| Dashboard.CountCause | src/pages/Dashboard.tsx:49-52 | the number of events with a cause, counted in ledger order; `CauseCounts` is proved against it |
| Dashboard.CausesInOrder | src/pages/Dashboard.tsx:49-52 | the causes present, each once, with a cause listed exactly when it has a count |
| Dashboard.Tally | src/pages/Dashboard.tsx:51 | one `forEach` step: bump the cause's entry, or append it with 1; `TallyStep` states its effect on the table |
| Dashboard.TallyStep | src/pages/Dashboard.tsx:50-52 | one `forEach` step keeps the table right for one more event |
| Dashboard.CauseCounts | src/pages/Dashboard.tsx:49-52 | one entry per cause present, in order of first appearance, holding the number of events with that cause; the counts sum to the number of events |
| Dashboard.CauseData | src/pages/Dashboard.tsx:53-56 | one entry per table entry, in order, with the chart label and the count |
| Dashboard.ChartLabel | src/pages/Dashboard.tsx:54 | the chart label of a stored cause; `ChartLabelPlain` and `ChartLabelTwoWords` state its value |
| Dashboard.ChartLabelPlain | src/pages/Dashboard.tsx:54 | a key with no `_` after its first letter only has that letter upper-cased |
| Dashboard.ChartLabelTwoWords | src/pages/Dashboard.tsx:54 | a key `w1_w2` becomes `W1 w2`: only the first `_` turns into a space, and the second word keeps its case |
| Dashboard.OperatorErrorChartLabel | src/pages/Dashboard.tsx:54 | "operator_error" is charted as "Operator error", which differs from its `CAUSE_LABELS` entry |
| Dashboard.ScheduledChartLabel | src/pages/Dashboard.tsx:54 | "scheduled" is charted as "Scheduled", which differs from its `CAUSE_LABELS` entry |
| Lifecycle.ReportFromCard | src/components/equipment/ReportBreakdownDialog.tsx:33-51 | on an empty ledger, a complete breakdown report stores exactly the new open event, and the card's machine name is set down in the registry |
| Lifecycle.CloseFromDialog | src/components/downtime/CloseDowntimeDialog.tsx:24-37 | with a non-blank root cause, the stored ledger is the old one closed by id with the trimmed texts, and the registry has the found event's machine running |
| Lifecycle.BreakdownRepairClose | src/components/equipment/ReportBreakdownDialog.tsx:38-46 | a breakdown reported from a card, then started, then closed. The machine is down after the report, and a registry loaded beside the ledger still shows it down after the start, which writes only the ledger and leaves the event in progress. After the close the machine runs, and the ledger is the one reported event, closed with the trimmed root cause and notes |
| Lifecycle.ClosedReportFacts | src/hooks/useDowntimeStore.ts:65-75 | that closed event keeps the report's id, cause, machine name and its slug, reporter, trimmed description and start time. It carries the end time, root cause and notes, and is well formed |
| Lifecycle.ReportTwice | src/pages/ReportDowntime.tsx:50-59 | two reports for the same machine leave two open events, the later one first, and the lookup by name finds the later one |
| Lifecycle.ReportFromPage | src/pages/ReportDowntime.tsx:50-59 | a complete report from the page puts the new open event in front of any stored ledger, and the registry has the trimmed machine name set down |

## Left out

- Persistence is not modelled: `localStorage` and `JSON.parse`/`JSON.stringify`. A load is a `Stored` value (absent, unparsable or parsed), and the fallback rule on it is modelled.
- Loading the session has no try/catch, unlike loading the two stores (`src/contexts/AuthContext.tsx:22`). The constructor takes the already-parsed user, so the failure path of this parse is not modelled.
- `crypto.randomUUID` and `new Date().toISOString()` are not modelled. Ids and instants are parameters, and instants are natural numbers rather than ISO strings.
- DowntimeStore.DowntimeLedger.AddDowntime: start and creation time share one instant. The source reads the clock twice, and the two readings may differ by a few milliseconds.
- The MTTR average is left out because it is floating point. The monthly trend is left out because it is calendar arithmetic (`src/pages/Dashboard.tsx:37-46`, `:58-71`).
- React plumbing (`useState`, `useCallback`, context, `navigate`) is not modelled. Each component using a store hook gets its own copy of the state, which can go stale; the model has one shared ledger and one shared registry, and navigation is a returned path.
- Presentation is left out: JSX, toasts, icons, charts, the dialogs' open/close wiring, `DowntimeInfoDialog.tsx` and `status-badge.tsx`.
- Behaviour across several browser tabs sharing storage is left out, because it is not sequential.
- `test_api.py` is not part of this model. It drives a backend whose model and serializer are not among the files modelled.
- Text.Lower: ASCII letters only. JavaScript's `toLowerCase` folds all of Unicode.
- Text.Trim: covers ASCII whitespace (space, tab, line feed, carriage return, vertical tab, form feed) only. JavaScript's `trim` and `\s` also remove Unicode spaces.
- Text.Slug: uses the same ASCII whitespace class as `Trim` for `/\s+/`.
- AppRoutes.NormalPath: covers ASCII case folding and trailing slashes only. Percent-decoding, repeated inner slashes, query strings and hashes are not part of the location as modelled.
- The downtimes page's `closeTarget` state and the equipment page's dialog targets are only modelled as the values they pass on (`CloseDialogId`, `InfoDowntime`).
