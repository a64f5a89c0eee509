# Online booking workflow, modelled in Dafny

The system is an event-booking site with two kinds of staff. Anyone may fill
in the public booking form; a valid submission becomes a booking in status
`inquiry`. Staff accounts are created by signing up, which is only open to
addresses in two domains. A new account is a pending admin, except for the
one configured super-admin address, which is active at once. The
super-admin's dashboard approves or denies pending admins, assigns an
unassigned inquiry to an active admin and clears confirmed events. An admin's
dashboard lists the bookings assigned to that admin and confirms inquiries.
The booking life cycle is therefore inquiry, then confirmed, then cleared.
An analytics page and a calendar summarise the same bookings.

The Dafny modules follow the source files:

- `Types` holds the records and enumerations (`src/types/index.ts`).
- `Auth` holds the sign-up domain rule and the profile provisioning (`src/lib/auth.ts`).
- `Routing` holds the dashboard page's choice of view (`src/pages/DashboardPage.tsx`).
- `Dashboards` holds the row filters, statistics and status badge of both dashboards.
- `Workflow` holds the store, the five update handlers and the sign-up hooks. The store is a class with two keyed maps, and each handler is a method that writes one field of one row. The same updates, as a pure `Step` function, support the proofs over sequences of actions.
- `BookingForm` holds the form schema and the submit handler.
- `Calendar` holds the booking-to-event mapping and the event colours.
- `Analytics` holds the status slices, the event-type histogram, the chart rows, the conversion rate and the active-account count.
- `Seqs` holds the order-preserving filter the views use throughout.

The handlers write to the store without checking the row's current state. What
keeps a booking moving forward is only that each dashboard shows a button on
the rows its filter admits. So the guards `CanApprove`, `CanAssign`,
`CanClear` and `CanConfirm` are predicates, not preconditions of the updates.
`Workflow.Offered` combines them with the view the actor is routed to.
Forward-only progress is proved for runs of offered actions only. A separate
lemma shows that the raw updates can skip a stage.

External effects are parameters:

- whether the store accepts an insert or an update (`storeAccepts`, `createSucceeds`);
- the store-assigned id of a new booking (`newId`);
- the timestamps the store writes (`stamp`);
- the identity the auth provider created (`created`);
- the e-mail format test of the validation library (`isEmail`).

## Model

| member | source | states |
|---|---|---|
| Types.ParseStatus | src/types/index.ts:8 | exactly the three strings inquiry, confirmed and cleared are booking statuses |
| Types.StatusNameRoundTrip | src/types/index.ts:8 | the status names encode the enum faithfully: parsing undoes naming, and a parsed string is the name of its status |
| Types.FormOf | src/types/index.ts:33-39 | the form data of a booking is exactly its five client fields |
| Auth.Split | src/lib/auth.ts:28 | `split` yields at least one part, and no part contains the separator |
| Auth.JoinSplit | src/lib/auth.ts:28 | joining the parts of a split with the separator gives back the original string |
| Auth.SplitJoin | src/lib/auth.ts:28 | splitting a join of separator-free parts gives back the parts |
| Auth.SplitSingle | src/lib/auth.ts:28 | a split has a single part exactly when the separator does not occur |
| Auth.DomainOf | src/lib/auth.ts:28-31 | the domain is undefined exactly when the address contains no '@', and a defined domain contains no '@' |
| Auth.Allowed | src/lib/auth.ts:30 | only an address with an '@' can be allowed |
| Auth.DomainOfAddress | src/lib/auth.ts:28 | the domain is the text between the first and the second '@', whatever follows |
| Auth.BeforeSignUp | src/lib/auth.ts:5-34 | a request is rejected exactly when its path is /sign-up and the domain is not one of the two allowed ones; every other request passes |
| Auth.NoAtRefused | src/lib/auth.ts:28-31 | an address without '@' is refused |
| Auth.UpperCaseDomainRefused | src/lib/auth.ts:28-30 | the comparison is case-sensitive: x@GMAIL.com is refused |
| Auth.SubdomainRefused | src/lib/auth.ts:28-30 | the comparison is exact: x@mail.gmail.com is refused |
| Auth.OtherDomainRefused | src/lib/auth.ts:28-30 | a domain outside the list, a@evil.com, is refused |
| Auth.SecondAtIgnored | src/lib/auth.ts:28-30 | text after a second '@' is not checked: a@gmail.com@evil passes |
| Auth.SuperAdminAllowed | src/lib/auth.ts:5-6 | the super-admin address passes the domain filter |
| Auth.Provision | src/lib/auth.ts:6-47 | the role is super_admin, and the status active, exactly for the super-admin address; no new profile is revoked |
| Auth.ProvisionNeverMixed | src/lib/auth.ts:46-47 | a new profile is never an active admin nor a pending super-admin |
| Auth.NewProfile | src/lib/auth.ts:49-56 | the inserted row copies the user's id and e-mail and takes role and status from Provision |
| Routing.ProfileQuery | src/pages/DashboardPage.tsx:12-27 | the profile is found exactly when there is a non-empty session user id with a stored row, and it is that row |
| Routing.Route | src/pages/DashboardPage.tsx:29-83 | no session gives access denied, no profile gives loading, pending and revoked give their own views whatever the role, and only an active profile reaches a dashboard: the super-admin one exactly for role super_admin |
| Routing.DashboardNeedsActiveProfile | src/pages/DashboardPage.tsx:12-83 | a dashboard is shown exactly when the session user's own stored profile is active |
| Seqs.Filter | src/components/dashboard/SuperAdminDashboard.tsx:22-24 | a filtered list holds exactly the elements that satisfy the predicate, and is no longer than the input |
| Seqs.FilterMultiplicity | src/components/dashboard/SuperAdminDashboard.tsx:22-24 | filtering keeps each selected element exactly as often as it occurs and drops every other one |
| Seqs.FilterIsSubsequence | src/components/dashboard/AdminDashboard.tsx:14-19 | filtering keeps the input order |
| Seqs.FilterConcat | src/pages/AnalyticsPage.tsx:29-32 | filtering distributes over concatenation |
| Seqs.FilterDisjointCounts | src/components/dashboard/AdminDashboard.tsx:18-19 | two exclusive predicates select at most as many elements as the input has |
| Seqs.FilterNone | src/components/dashboard/AdminDashboard.tsx:14-16 | a predicate that holds of no element selects nothing |
| Dashboards.CanApprove | src/components/dashboard/SuperAdminDashboard.tsx:22-153 | Approve and Deny are offered on pending profiles, which never appear in the list of admins to assign to |
| Dashboards.CanAssign | src/components/dashboard/SuperAdminDashboard.tsx:23-221 | assignment is offered for an unassigned inquiry to an active admin: never on a booking Clear is offered on, never to a pending profile or the super-admin |
| Dashboards.CanClear | src/components/dashboard/SuperAdminDashboard.tsx:24-278 | Clear is offered on confirmed bookings, which are never listed for assignment |
| Dashboards.CanConfirm | src/components/dashboard/AdminDashboard.tsx:14-149 | Confirm is offered only with a session user, on that user's own bookings in inquiry, never on one Clear is offered on |
| Dashboards.SuperAdminRows | src/components/dashboard/SuperAdminDashboard.tsx:22-278 | the pending, assignable-admin, unassigned-inquiry and confirmed tables hold exactly the rows their guards admit, in input order |
| Dashboards.SuperAdminRowCounts | src/components/dashboard/SuperAdminDashboard.tsx:22-24 | each table holds every admitted record exactly as often as the input does |
| Dashboards.StatusCountsSum | src/components/dashboard/SuperAdminDashboard.tsx:55-59 | the three status counts sum to the number of bookings, and the converted bookings are the confirmed plus the cleared |
| Dashboards.RoundedPercent | src/components/dashboard/SuperAdminDashboard.tsx:58-60 | the rounded percentage lies in 0..100, is within half a point of 100k/n, and is 0 when nothing converted and 100 when everything did |
| Dashboards.RoundingBounds | src/components/dashboard/SuperAdminDashboard.tsx:59 | half-up integer rounding brackets the exact percentage and stays within 0..100 |
| Dashboards.ConversionRate | src/components/dashboard/SuperAdminDashboard.tsx:58-60 | the rate is 0 without bookings, within 0..100, and the rounded share of non-inquiry bookings |
| Dashboards.SuperAdminStats | src/components/dashboard/SuperAdminDashboard.tsx:54-61 | each total is the number of bookings in its status, the totals add up to all bookings, and the rate is the conversion rate, the rounded share of confirmed plus cleared bookings |
| Dashboards.AdminRows | src/components/dashboard/AdminDashboard.tsx:14-149 | assigned bookings are exactly those whose assignee is the session user, none without a session user; inquiries and confirmed are disjoint, in order, and together no more than the assigned ones; Confirm is offered on exactly the inquiries |
| Dashboards.StatusBadge | src/components/dashboard/AdminDashboard.tsx:28-35 | the gray default exactly for strings that are not one of the three statuses |
| Dashboards.StatusBadgeDistinct | src/components/dashboard/AdminDashboard.tsx:28-35 | each status has its own badge |
| Workflow.Step | src/components/dashboard/SuperAdminDashboard.tsx:26-52 | no handler adds or removes a row, and each touches only the collection it writes to |
| Workflow.StepFrame | src/components/dashboard/SuperAdminDashboard.tsx:26-52 | every handler changes only its target row, and in it only the one field it sends; no role ever changes; rows stay keyed by their ids |
| Workflow.Offered | src/components/dashboard/SuperAdminDashboard.tsx:17-278 | an action is offered only to a signed-in user whose own profile is active, only on an existing row, and, except Confirm, only to the super-admin |
| Workflow.OfferedStepForward | src/components/dashboard/SuperAdminDashboard.tsx:22-52 | an offered action moves a booking at most one stage forward, moves a profile only out of pending_admin, and assigns only to an active admin |
| Workflow.OfferedRunMonotone | src/components/dashboard/AdminDashboard.tsx:21-149 | over any run of offered actions no booking goes backwards, no row appears or disappears, no role changes, and a profile that left pending_admin keeps its status |
| Workflow.AssignConfirmClearScenario | src/components/dashboard/SuperAdminDashboard.tsx:40-52 | the whole life cycle is reachable through offered actions: assign, then confirm by the assignee, then clear |
| Workflow.UnguardedUpdatesSkipStages | src/components/dashboard/SuperAdminDashboard.tsx:22-278 | the raw updates check nothing: clear takes an inquiry straight to cleared and approve re-activates a revoked admin; yet in every state, to every actor, clear is never offered on an inquiry nor approve on a revoked profile |
| Workflow.StaleViewApproveThenDeny | src/components/dashboard/SuperAdminDashboard.tsx:141-153 | Approve and Deny are both on screen for a pending row; sending both before a refetch takes the profile from active to revoked, a step no single offered action makes |
| Workflow.Store.ApproveAdmin | src/components/dashboard/SuperAdminDashboard.tsx:26-31 | sets only the target profile's status to active when the store accepts, and fails without change when the store refuses or no row has that id |
| Workflow.Store.DenyAdmin | src/components/dashboard/SuperAdminDashboard.tsx:33-38 | sets only the target profile's status to revoked when the store accepts, and fails without change when the store refuses or no row has that id |
| Workflow.Store.AssignInquiry | src/components/dashboard/SuperAdminDashboard.tsx:40-45 | sets only the booking's assignee when the store accepts, and fails without change when the store refuses or no row has that id |
| Workflow.Store.ClearEvent | src/components/dashboard/SuperAdminDashboard.tsx:47-52 | sets only the booking's status to cleared when the store accepts, and fails without change when the store refuses or no row has that id |
| Workflow.Store.ConfirmBooking | src/components/dashboard/AdminDashboard.tsx:21-26 | sets only the booking's status to confirmed when the store accepts, and fails without change when the store refuses or no row has that id |
| Workflow.Store.AfterSignUp | src/lib/auth.ts:40-59 | on /sign-up with a returned user, inserts one profile built by NewProfile and nothing else; any other request changes nothing |
| Workflow.Store.CreateBooking | src/hooks/useBookings.ts:25-33 | when the store accepts, adds exactly one booking built from the form data, and otherwise changes nothing |
| Workflow.NewBooking | src/hooks/useBookings.ts:25-33 | a new booking carries the submitted fields, status inquiry and no assignee, so it is listed as an unassigned inquiry |
| Workflow.SignUp | src/lib/auth.ts:20-62 | a profile is inserted exactly when the path is /sign-up, the request's address is allowed, the provider returned a user, the store accepts and the id is new; it is built from that user's id and e-mail, and nothing else changes |
| BookingForm.Utf16Len | src/components/forms/BookingForm.tsx:9-13 | a string's JavaScript length lies between its number of characters and twice that, and equals it when every character is in the basic plane |
| BookingForm.FieldOk | src/components/forms/BookingForm.tsx:8-14 | the rule of each field: name of length at least 2, a well-formed e-mail, non-empty type and date, message of length at least 10, lengths in UTF-16 code units |
| BookingForm.AstralCharactersCountTwice | src/components/forms/BookingForm.tsx:9-13 | a one-character emoji name and a five-emoji message pass the minimum-length rules |
| BookingForm.AllFieldsListed | src/components/forms/BookingForm.tsx:8-14 | the schema covers all five fields |
| BookingForm.FailingFields | src/components/forms/BookingForm.tsx:8-14 | a field is reported exactly when its rule fails |
| BookingForm.ErrorsFor | src/components/forms/BookingForm.tsx:9-13 | each reported field carries its own message |
| BookingForm.Validate | src/components/forms/BookingForm.tsx:8-14 | the form is valid exactly when the name has a JavaScript length of at least 2, the e-mail is well formed, type and date are non-empty and the message has a JavaScript length of at least 10; each failing field gives its own message |
| BookingForm.EventTypeChoices | src/components/forms/BookingForm.tsx:39-100 | seven event types are offered, each passes the type rule, and the empty placeholder fails it |
| BookingForm.EmptyFormRejected | src/components/forms/BookingForm.tsx:33 | a reset form fails every rule except possibly the e-mail one |
| BookingForm.Submit | src/components/forms/BookingForm.tsx:26-37 | the create runs only for a valid form; a created booking resets the form, and an invalid form or a failed create keeps the input |
| Calendar.ToEvent | src/components/calendar/InterestCalendar.tsx:24-33 | an event keeps the booking's id, is titled type, " - ", client name, starts and ends on the event date, and carries the status and assignee |
| Calendar.Events | src/components/calendar/InterestCalendar.tsx:24-33 | one event per booking, in the same order and with the same id |
| Calendar.StatusColour | src/components/calendar/InterestCalendar.tsx:38-48 | every status is drawn in amber, green or purple, never the default blue |
| Calendar.EventColour | src/components/calendar/InterestCalendar.tsx:35-48 | the colour is the status colour, and the default blue exactly when the event has no resource |
| Calendar.BookingColours | src/components/calendar/InterestCalendar.tsx:36-48 | the three statuses have distinct colours, and a booking's event is never drawn in the default |
| Analytics.StatusSlices | src/pages/AnalyticsPage.tsx:23-27 | three slices, inquiries, confirmed and cleared, each the number of bookings in that status, together all bookings |
| Analytics.SliceColoursMatchCalendar | src/pages/AnalyticsPage.tsx:23-27 | each slice has the calendar's colour for its status |
| Analytics.HistogramCounts | src/pages/AnalyticsPage.tsx:29-32 | the histogram's keys are exactly the event types that occur, and each entry is the number of bookings of that type |
| Analytics.EventTypeData | src/pages/AnalyticsPage.tsx:29-32 | the accumulation loop computes the histogram |
| Analytics.DistinctTypesFacts | src/pages/AnalyticsPage.tsx:29-34 | the distinct types hold no duplicate and are exactly the histogram's keys |
| Analytics.ChartData | src/pages/AnalyticsPage.tsx:34-37 | one row per distinct event type, carrying that type's count |
| Analytics.ChartDataFacts | src/pages/AnalyticsPage.tsx:29-37 | the chart rows cover exactly the types that occur, with no type twice, and their counts sum to the number of bookings |
| Analytics.SumOverIsSumCounts | src/pages/AnalyticsPage.tsx:34-37 | summing the rows equals summing the counts of their types |
| Analytics.TypeCountsSum | src/pages/AnalyticsPage.tsx:29-32 | counting over distinct types that cover every booking counts each booking once |
| Analytics.SumOverEmpty | src/pages/AnalyticsPage.tsx:29-32 | no bookings count zero for every list of types |
| Analytics.SumOverSnoc | src/pages/AnalyticsPage.tsx:29-32 | one more booking adds one to the sum when its type is listed |
| Analytics.AnalyticsConversionRate | src/pages/AnalyticsPage.tsx:39-42 | the rate is 0 without bookings, otherwise the rounded share of bookings past the inquiry stage (100 when none is an inquiry), within 0..100, and equal to the super-admin dashboard's |
| Analytics.ActiveAccounts | src/pages/AnalyticsPage.tsx:85 | the active count is at most the number of profiles, and zero exactly when no profile is active |
| Analytics.ActiveAccountsVersusAssignable | src/pages/AnalyticsPage.tsx:85 | the active count includes active super-admins, so it exceeds the dashboard's assignable-admin list by exactly them |

## Left out

- React rendering, JSX layout, styling, icons, the charts and the calendar widget are not modelled. The landing page, the calendar page and the navigation bar have no logic beyond a path comparison and a session check.
- Of the react-query and Supabase hooks (`src/hooks/useBookings.ts`, `src/hooks/useUserProfiles.ts`), only the insert and the update by id are modelled, as the store's methods. The store is two maps keyed by id. The lists the views receive are taken to be newest first, as the queries order them, and the model does not derive that order. Cache invalidation and refetching are not modelled.
- `src/lib/supabase.ts` is not part of this model. Its row types repeat `src/types/index.ts`.
- Workflow.NewBooking: status inquiry and an empty assignee are column defaults of the database, not visible in the code. The model assumes them.
- Workflow.Store.AfterSignUp: the insert's outcome is the `storeAccepts` parameter, and the hook ignores it. An insert under an id that already has a profile is taken to be refused by the store. Both timestamps come from the `stamp` parameter.
- Session handling, cookies, `src/lib/auth-client.ts` and the login form are not modelled. They are transport in front of the external auth provider.
- The e-mail format test of the validation library is the parameter `isEmail`.
- Dates are the booking's date string. Parsing, formatting and time zones are left to the libraries.
- Dashboards.RoundedPercent: `Math.round` of a floating-point ratio is modelled as exact half-up rounding of the fraction. Dashboards.ConversionRate, Dashboards.SuperAdminStats and Analytics.AnalyticsConversionRate inherit this. The float result may differ at a tie that is not exactly representable.
- Analytics.ChartData: the rows follow the first occurrence of each type. `Object.entries` puts integer-like keys first in ascending order, and the model does not capture that.
- Concurrent updates to one row are not modelled. The store keeps the last write.
- Workflow.Offered: the guards are evaluated on the store as it is at each step. The dashboards draw their buttons from the lists fetched last, so the forward-only results (Workflow.OfferedStepForward, Workflow.OfferedRunMonotone) assume each click follows a refetch. Two clicks on one row before the refetch can send actions the current store would not offer; Workflow.StaleViewApproveThenDeny shows the profile going active, then revoked.
- Analytics.EventTypeData: the page counts into a plain JavaScript object, and keys inherited from its prototype misbehave. A booking of type `__proto__` is dropped, and types such as `constructor`, `toString` or `valueOf` get a string instead of a count. The model counts every event type in a map, so Analytics.HistogramCounts, Analytics.ChartData and Analytics.ChartDataFacts hold for the source only when no booking has such a type.
- Missing icon imports are rendering defects. `User` is missing in the super-admin dashboard and `Calendar` in the dashboard page.
- Receipts are a record type only. The admin dashboard's Upload Receipt button has no handler at all.
- Toasts, console logging and the "selected booking" UI state, which the View button sets, are not modelled.
- Dashboards.CanAssign: the assign select also lists an empty "Select admin..." option. Choosing it after an admin was picked, before the list refreshes, would write an empty assignee. The offered Assign in the model always targets an assignable admin.
- BookingForm.Submit: `reset()` is modelled as all-empty fields. React-hook-form resets to its default values, which are undefined here, so the fields render empty.
