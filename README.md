# Tour-booking admin dashboard: a Dafny model of its client-side logic

The dashboard is a browser front end for a tour-booking business. This model covers the
parts of it that hold logic rather than markup:

- **The "Create Tour" form** (`TourForm`, tour_form.dfy). A form record keeps a per-day
  itinerary in step with the tour's type and day count. It has list editors for what is
  included and excluded, and editors for each day's plan. A submit handler resets the
  form or shows an error. Every `setForm(prev => …)` updater is a function from the old
  form to the new one. The component's state (form, `loading`, `error`, the two item
  text boxes) is the class `TourFormComponent`, whose methods apply those updaters. The
  `days` handler grows the itinerary with a loop (`AppendDefaultPlans`), as the source
  does. The invariant `ItineraryInStep` says: a multi-day tour has one plan per day,
  plan `i` is day `i + 1`, and any other tour has no plans. It is proved to survive
  every event except a negative day count.
- **The earlier plan-less tour form** (`SimpleTourForm`, tour_form_simple.dfy). Its
  change handler writes one property of the record by name.
- **Shared submit outcome** (`TourSubmit`, tour_submit.dfy). This is how a thrown value
  becomes the displayed error, and what `createTour` throws on a non-ok response.
- **The session store** (`Auth`, auth.dfy). The class `Browser` holds `localStorage` as a
  map from key to entry, a flag for whether `window` exists, and the last navigation
  target. The store's operations are its methods and its read-only queries are
  functions.
- **The route guard** (`AuthGuard`, auth_guard.dfy). This is the decision of `checkAuth`,
  the class `Guard` with its two flags and its pushed routes, and the render decision.
- **Display derivations** (`BookingDetails`, booking_details.dfy; `CalendarView`,
  calendar_view.dfy). The customer and phone labels of the booking dialog, and the
  mapping of bookings to calendar events.
- **JavaScript built-ins** (`Js`, js.dfy). `String.prototype.trim` over ECMAScript's
  white-space and line-terminator code points, the `||` fallback on strings,
  integer-to-text rendering with its inverse, and `slice(0, end)` with negative ends.
  `Wrappers` (wrappers.dfy) holds `Option` and `Result`.

Inputs that the code reads from outside are parameters. `Number(value)` is the
`numeric` field of a change event. The result of `createTour` is a `SubmitOutcome`. The
login response is a `LoginReply`. `new Date(text)` is the opaque `DateOf(text)`.

Points where the code behaves differently from what a reader might expect:

- `getAuthHeaders` adds `Authorization` only for a non-empty token, so an empty token
  counts as a session but gets no header.
- `login` returns the whole response body, not only the profile.
- A guard that redirects keeps `isLoading` true, so it goes on showing the spinner. It
  does not switch to rendering nothing.
- The guard's effect re-runs when `requireAdmin` changes. A re-check that fails after
  authorizing pushes `/login` but leaves the children on screen (`Guard.CheckAuth`
  keeps both flags).
- `createTour` reads the error envelope's `message` field, not `error`, and it ignores
  `details`.
- The API functions attach no credentials.

## Model

| member | source | states |
|---|---|---|
| Js.LeadingBlanks | src/app/tours/TourForm.tsx:124 | the count of leading characters is exactly the run of white space at the start: all of them are white space and the next one is not |
| Js.TrailingBlanks | src/app/tours/TourForm.tsx:124 | the count of trailing characters is exactly the run of white space at the end: all of them are white space and the one before is not |
| Js.TrimIsInfix | src/app/tours/TourForm.tsx:124-127 | `trim()` (`Trim`) returns the contiguous piece of the input that starts after its leading white space and is followed only by white space |
| Js.TrimHasNoBlankEnds | src/app/tours/TourForm.tsx:124-127 | a non-empty trimmed text starts and ends with a character that is not white space |
| Js.TrimEmptyIff | src/app/tours/TourForm.tsx:124 | the trimmed text is empty (falsy) exactly when the input is all white space |
| Js.TrimIdempotent | src/app/tours/TourForm.tsx:127 | trimming an already trimmed item changes nothing |
| Js.IntToStringRoundTrip | src/app/bookings/CalendarView.tsx:39 | the number rendered by `IntToString` into a template string can be read back, so rendering loses nothing |
| Js.IntToStringInjective | src/app/bookings/CalendarView.tsx:39 | distinct numbers render as distinct texts |
| Js.OrElseFallsBack | src/app/dashboard/bookings/BookingDetails.tsx:24-26 | the fallback operator on strings (`OrElse`) is the fallback exactly when `o` is null, undefined or empty (or already equal to it), and is never empty when the fallback is not |
| Js.SliceTo | src/app/tours/TourForm.tsx:105 | `slice(0, end)` is a prefix of length min(end, len) for end ≥ 0, and counts back from the length (clamped at 0) for a negative end |
| TourSubmit.CreateTourRejection | src/utils/api.ts:51-53 | a non-ok `createTour` throws an `Error` whose message is the envelope's `message`, or "Failed to create tour" when that is missing or empty |
| TourSubmit.DisplayedError | src/app/tours/TourForm.tsx:212-213 | an `Error` shows its message; any other thrown value shows "Error creating tour" |
| TourSubmit.RejectionMessageShown | src/utils/api.ts:51-53 | a backend rejection always shows a non-empty message, and shows "Error creating tour" only if the backend sent that text |
| TourForm.DefaultPlans | src/app/tours/TourForm.tsx:95-102 | the placeholders for indices `from..to-1` number `to - from` and the k-th is the placeholder of day `from + k + 1` |
| TourForm.FirstIndexOfDay | src/app/tours/TourForm.tsx:67 | `find` by day gives the first plan with that day, or none when no plan has it |
| TourForm.AppendDefaultPlans | src/app/tours/TourForm.tsx:95-102 | the push loop keeps the existing plans as a prefix and appends placeholders up to `newDays`, each numbered by its position |
| TourForm.AddItem | src/app/tours/TourForm.tsx:123-148 | add appends the trimmed text and clears the box when that text is non-empty; otherwise list and box stay as they were |
| TourForm.AddItemTrims | src/app/tours/TourForm.tsx:123-148 | nothing is added exactly when the box holds only white space, and an added item is non-empty with no white space at either end |
| TourForm.RemoveAtDeletesOne | src/app/tours/TourForm.tsx:133-155 | `filter((_, i) => i !== index)` (`RemoveAt`) deletes exactly the element at `index` and keeps the rest in order; an index outside the list removes nothing |
| TourForm.ApplyEdit | src/app/tours/TourForm.tsx:157-188 | no plan editor changes a plan's day |
| TourForm.EditPlanAt | src/app/tours/TourForm.tsx:160-162 | the indexed `map` keeps the length, edits the plan at `dayIndex` and leaves every other plan as it was |
| TourForm.ChangeTypeToSingle | src/app/tours/TourForm.tsx:57-86 | in the `type` branch (`ChangeType`), choosing "single" sets one day and no plans and changes nothing else |
| TourForm.ChangeTypeToMulti | src/app/tours/TourForm.tsx:57-86 | in the `type` branch (`ChangeType`), choosing "multi" sets max(days, 2) days, one plan per day, plan `i` being day `i + 1`, all within the day range, and changes nothing outside the itinerary |
| TourForm.MultiDayReusesFirstMatch | src/app/tours/TourForm.tsx:66-68 | on switching to "multi", the first existing plan for a day is reused unchanged at that day's index |
| TourForm.MultiDayFillsMissing | src/app/tours/TourForm.tsx:68-73 | a day with no existing plan gets `{day i+1, "Day i+1", "", []}` |
| TourForm.ChangeDaysOfMultiDayTour | src/app/tours/TourForm.tsx:87-114 | in the `days` branch (`ChangeDays`), for a multi-day tour and a day count ≥ 0, the plan count becomes the day count, the kept prefix is unchanged, new days get placeholders, nothing else changes |
| TourForm.ChangeDaysOfOtherTour | src/app/tours/TourForm.tsx:87-114 | in the `days` branch (`ChangeDays`), for a tour that is not multi-day only `days` changes |
| TourForm.ChangeDaysNegative | src/app/tours/TourForm.tsx:103-106 | a negative day count cuts plans from the end, so the plan count is max(len + days, 0) |
| TourForm.ChangeFieldWritesOneProperty | src/app/tours/TourForm.tsx:115-120 | in the last branch (`ChangeField`, which the editor's `onUpdate` at lines 44-46 also uses for `description`), `price` becomes the number, `title`, `location`, `category` and `description` become the text, each only when named; type, days, itinerary and both lists stay as they were |
| TourForm.ChangeTypeKeepsItinerary | src/app/tours/TourForm.tsx:57-86 | a change of tour type always leaves the itinerary in step with the type and day count |
| TourForm.ChangeDaysKeepsItinerary | src/app/tours/TourForm.tsx:87-114 | a non-negative day count leaves the itinerary in step with the type and day count |
| TourForm.ApplyChangeKeepsItinerary | src/app/tours/TourForm.tsx:55-121 | the whole updater (`ApplyChange`): every change event except a negative day count keeps the itinerary invariant |
| TourForm.EditPlanAtKeepsItinerary | src/app/tours/TourForm.tsx:157-188 | the plan editors keep the itinerary invariant |
| TourForm.UpdateTourPlanChangesOneField | src/app/tours/TourForm.tsx:157-164 | `updateTourPlan` (`UpdateTourPlan`) sets only the named field of the plan at `dayIndex`; an index outside the itinerary changes nothing |
| TourForm.AddTourPlanIncludedAppends | src/app/tours/TourForm.tsx:166-177 | `addTourPlanIncluded` (`AddTourPlanIncluded`) appends the trimmed item to that plan's `included` only, and does nothing for a blank item |
| TourForm.RemoveTourPlanIncludedDeletesOne | src/app/tours/TourForm.tsx:179-188 | `removeTourPlanIncluded` (`RemoveTourPlanIncluded`) deletes exactly the indexed item of that plan and touches no other plan or field |
| TourForm.TourFormComponent.constructor | src/app/tours/TourForm.tsx:15-53 | the initial form, `loading` false, no error, empty text boxes; the itinerary invariant holds |
| TourForm.TourFormComponent.HandleChange | src/app/tours/TourForm.tsx:55-121 | the new form is the updater applied to the old one; the `days` branch's loop is proved against it; the itinerary invariant is kept; nothing else changes |
| TourForm.TourFormComponent.EditNewIncluded | src/app/tours/TourForm.tsx:361 | typing sets the included text box only |
| TourForm.TourFormComponent.EditNewExcluded | src/app/tours/TourForm.tsx:399 | typing sets the excluded text box only |
| TourForm.TourFormComponent.AddIncluded | src/app/tours/TourForm.tsx:123-131 | list and box become `AddItem` of the old ones; no other field changes; the itinerary invariant is kept |
| TourForm.TourFormComponent.RemoveIncludedAt | src/app/tours/TourForm.tsx:133-138 | only `included` changes, by removing the indexed element; the itinerary invariant is kept |
| TourForm.TourFormComponent.AddExcluded | src/app/tours/TourForm.tsx:140-148 | list and box become `AddItem` of the old ones; no other field changes; the itinerary invariant is kept |
| TourForm.TourFormComponent.RemoveExcludedAt | src/app/tours/TourForm.tsx:150-155 | only `excluded` changes, by removing the indexed element; the itinerary invariant is kept |
| TourForm.TourFormComponent.UpdateTourPlanAt | src/app/tours/TourForm.tsx:157-164 | applies `updateTourPlan`'s updater and keeps the itinerary invariant |
| TourForm.TourFormComponent.AddTourPlanItem | src/app/tours/TourForm.tsx:166-177 | applies `addTourPlanIncluded`'s updater and keeps the itinerary invariant |
| TourForm.TourFormComponent.RemoveTourPlanItem | src/app/tours/TourForm.tsx:179-188 | applies `removeTourPlanIncluded`'s updater and keeps the itinerary invariant |
| TourForm.TourFormComponent.HandleSubmit | src/app/tours/TourForm.tsx:190-217 | success resets the form and both boxes; failure keeps them and shows the thrown value's message; `loading` is false afterwards |
| SimpleTourForm.ApplyChange | src/app/tours/TourForm-simple.tsx:44-58 | the `type` input writes `type` (and `days` for "single"); any other input writes only its own property, as a number for `days` and `price` and as text otherwise |
| SimpleTourForm.TypeChangeDays | src/app/tours/TourForm-simple.tsx:46-51 | "single" forces one day; any other type keeps the old day count with no minimum |
| SimpleTourForm.SimpleTourFormComponent.constructor | src/app/tours/TourForm-simple.tsx:15-42 | the initial form, `loading` false, no error |
| SimpleTourForm.SimpleTourFormComponent.HandleChange | src/app/tours/TourForm-simple.tsx:44-58 | the new form is the updater applied to the old one |
| SimpleTourForm.SimpleTourFormComponent.HandleSubmit | src/app/tours/TourForm-simple.tsx:60-81 | success resets to the empty simple form; failure keeps the form and shows the message; `loading` is false afterwards |
| Auth.HeadersFor | src/utils/auth.ts:93-101 | headers always declare JSON and carry `Bearer <token>` exactly when the token is present and non-empty |
| Auth.LoginFailure | src/utils/auth.ts:72-75 | a failed login reports the envelope's `error`, or "Login failed" when it is missing or empty; never an empty message |
| Auth.Browser.GetAuthToken | src/utils/auth.ts:17-20 | the stored token exactly when there is a window and a token entry |
| Auth.Browser.GetAuthUser | src/utils/auth.ts:36-40 | the cached user exactly when there is a window and a user entry |
| Auth.Browser.IsAuthenticated | src/utils/auth.ts:49-51 | holds exactly when a token entry exists, even an empty one |
| Auth.Browser.IsAdmin | src/utils/auth.ts:54-57 | holds exactly when a cached user exists with role exactly "ADMIN" |
| Auth.Browser.GetAuthHeaders | src/utils/auth.ts:93-101 | JSON content type always; `Authorization: Bearer <token>` exactly when the stored token is non-empty |
| Auth.Browser.SetAuthToken | src/utils/auth.ts:23-26 | with a window, the token entry becomes the token and reads back; without one nothing changes; the user entry is untouched |
| Auth.Browser.RemoveAuthToken | src/utils/auth.ts:29-33 | with a window, both entries go and the session is neither authenticated nor admin; without one nothing changes |
| Auth.Browser.SetAuthUser | src/utils/auth.ts:43-46 | with a window, the user entry becomes the user and reads back; the token is untouched |
| Auth.Browser.Login | src/utils/auth.ts:60-84 | a rejection stores nothing and fails with `LoginFailure`; an acceptance stores token then user and returns the body |
| Auth.Browser.Logout | src/utils/auth.ts:87-90 | with a window, both entries are cleared and the browser navigates to "/login"; without one it throws and changes nothing |
| Auth.NoWindowNoSession | src/utils/auth.ts:17-57 | without a window every getter returns null, no session or admin is reported, and headers carry no token |
| Auth.EmptyTokenAuthenticatedWithoutHeader | src/utils/auth.ts:93-101 | an empty stored token is a session but gets no `Authorization` header |
| Auth.TokenWithoutUserIsNotAdmin | src/utils/auth.ts:54-57 | a token with no cached user is never an admin session |
| AuthGuard.Render | src/components/AuthGuard.tsx:39-51 | the spinner exactly while loading, the children exactly when not loading and authorized, nothing otherwise |
| AuthGuard.Decide | src/components/AuthGuard.tsx:18-34 | `checkAuth` authorizes exactly when authenticated and either admin is not required or the user is admin |
| AuthGuard.ScreenAfterFirstCheck | src/components/AuthGuard.tsx:17-51 | after the first check the guard shows the children exactly when authorized, the spinner otherwise, never nothing |
| AuthGuard.DefaultLetsAnySessionIn | src/components/AuthGuard.tsx:12 | with the default `requireAdmin = false`, any authenticated user passes |
| AuthGuard.Guard.constructor | src/components/AuthGuard.tsx:13-14 | a mounted guard is loading, not authorized, and shows the spinner |
| AuthGuard.Guard.CheckAuth | src/components/AuthGuard.tsx:18-34 | a redirect pushes "/login" and keeps both flags; an authorization sets both flags together; the flags stay in step |
| AuthGuard.NeverRendersNothing | src/components/AuthGuard.tsx:47-49 | while the flags are in step the `return null` branch is dead |
| AuthGuard.FirstCheck | src/components/AuthGuard.tsx:12-51 | mount then check shows what `ScreenAfterFirstCheck` says; without a session only the spinner shows and "/login" was pushed once |
| BookingDetails.PhoneLabel | src/app/dashboard/bookings/BookingDetails.tsx:26 | the phone line is the guest phone, or "N/A" when it is null or empty; never empty |
| BookingDetails.Render | src/app/dashboard/bookings/BookingDetails.tsx:16-35 | a null booking renders nothing; otherwise the dialog shows the derived customer and phone lines |
| BookingDetails.RegisteredCustomerLabel | src/app/dashboard/bookings/BookingDetails.tsx:24 | with a user, the label (`CustomerLabel`) is the user's name followed by " (email)" exactly when the email is present and non-empty, and ignores the guest fields |
| BookingDetails.GuestLabel | src/app/dashboard/bookings/BookingDetails.tsx:24 | without a user, the label (`CustomerLabel`) starts with the guest name or "Guest", followed by " (guestEmail)" exactly when that email is non-empty |
| CalendarView.TourLabel | src/app/bookings/CalendarView.tsx:39 | the tour's title, or "Tour" when the tour or its title is missing or empty |
| CalendarView.ToEvent | src/app/bookings/CalendarView.tsx:37-46 | the title is label + " (" + people + " people)", start and end are the same date, and id, people, user, tour and date are copied |
| CalendarView.ToEvents | src/app/bookings/CalendarView.tsx:37 | exactly one event per booking, in the same order |
| CalendarView.TitleDeterminesPeople | src/app/bookings/CalendarView.tsx:39 | two events for the same tour have the same title only when their party sizes agree |

## Left out

- Numbers: `Number(value)` is taken as an integer input. NaN, fractions and the decimal
  `price` (step 0.01) are not modelled. The backend's numbers (`id`, `people`, `total`
  of a booking) are integers too, and `${b.people}` is rendered by `Js.IntToString` as
  a plain decimal integer. JavaScript's rendering of a fraction ("2.5") and of a
  magnitude of 1e21 or more in exponent form ("1e+21") is not modelled; the rendering is
  faithful only for integral values below 1e21 in magnitude.
- The rich-text editor (tiptap). Its `onUpdate` writes `description` as an opaque
  string, which `ChangeField` models. Its `setContent("")` on a successful submit is not
  modelled.
- `onCreated` is a callback the caller supplies. Its call after a successful submit is
  not modelled.
- TourForm.TourFormComponent.HandleChange: the `days` branch pushes into the previous
  state's plan array in place (the new form shares that array). The model builds the
  grown list as a new sequence, so this aliasing is not captured. Nothing else holds the
  old form, so no visible result differs.
- TourForm.ChangeField and SimpleTourForm.ApplyChange: an input name outside the form's
  own inputs leaves the record unchanged. In the source it would add a property. No
  such input exists.
- JSON: the cached user is stored as the record itself (`UserJson`), so
  `JSON.stringify` and `JSON.parse` form an identity round trip. Malformed stored text,
  on which `JSON.parse` throws, is not modelled. Other code never writes the two keys
  with anything else (`Browser.Valid`).
- Auth.Browser.Login: the HTTP request, `response.json()` failing on a non-JSON body,
  and a success body that lacks a token or user are not modelled. The reply is an
  input.
- HTTP, `fetch`, the API base URL, the read endpoints and `createBooking` in
  src/utils/api.ts are not modelled. Only `createTour`'s error message enters, as
  `TourSubmit.CreateTourRejection`.
- Dates: `new Date`, `toLocaleDateString` and the calendar widget are not modelled.
  Dates stay opaque text.
- Asynchrony: `await`, effect timing, React StrictMode's double call of updaters, and
  double submits guarded by `disabled={loading}` are not modelled. Each handler is one
  sequential step.
- `DashboardHeader`, the page shells, tables, `BookingForm` and the sidebar are
  markup with `||` defaults only, and are not modelled.
