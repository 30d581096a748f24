# Room-booking client, modelled in Dafny

This project models the browser client of a room-booking system (aulas,
laboratorios and salas). The client has these screens:

- sign-in and self-registration;
- a space directory with administrator-only editing and deletion;
- an add-space dialog and an administrator-creation form;
- a reservation form that books one-hour slots;
- a per-day availability view;
- a "my reservations" list with cancellation;
- an application shell that routes paths to these screens.

Every HTTP call becomes an outcome parameter: `Response<T>` is `Ok(data)` or
`Failed(errorBody)`. Browser storage is a `LocalStorage` object holding a
`map<string, string>`, and "logged in" means only that `auth_token` is
present. A React component whose state changes in place becomes a `class`
whose fields are that state. Where a handler shows a `loading` flag while it
awaits a request, it is split at the await into a `Begin…` and a `Complete…`
method. Other handlers take the outcome as a parameter and return the request
they sent and the navigation they trigger.

The lists, validators and paths are functions. Their properties are proved
as lemmas:

- the reservation list is sorted by a stable insertion sort;
- the e-mail pattern is given twice, as a reference predicate and as a
  recogniser, and the two are proved equivalent;
- slot times are integer milliseconds of local time, split into fields by
  Euclidean division.

Modules, one per source file:

- `Common`: options, responses, alerts, truthiness
- `Session`: browser storage
- `MyReservations`
- `ReservationWindow`
- `Availability`
- `EmailPattern`
- `Register`
- `Login`
- `Spaces`: the space card and its edit dialog
- `Dashboard`
- `AddSpace`
- `CreateAdmin`
- `Routing`

## Model

| member | source | states |
|---|---|---|
| Common.OrElse | src/pages/MyReservations.jsx:43 | `v \|\| fallback`: the stored value when it is a non-empty string, the fallback otherwise; an empty result means the fallback was empty |
| Session.Get | src/pages/Dashboard.jsx:36-37 | `getItem` is present exactly for stored keys and returns the stored value |
| Session.LoggedIn | src/App.jsx:12 | a session exists exactly when reading `auth_token` gives a value, whatever it is |
| Session.StoredText | src/auth/LoginPage.jsx:30 | `setItem` stores a present value as it is and a missing one as the text "undefined" |
| Session.TokenWritten | src/auth/LoginPage.jsx:29-31 | the storage after only the token was written: logged in, the token stored, every other key kept |
| Session.LocalStorage.GetItem | src/App.jsx:12 | the same read, from the storage object |
| Session.LocalStorage.SetItem | src/auth/LoginPage.jsx:30-33 | one key written, every other key kept |
| Session.LocalStorage.RemoveItem | src/pages/Dashboard.jsx:151-154 | one key removed, every other key kept; removing an absent key changes nothing |
| MyReservations.ToRows | src/pages/MyReservations.jsx:39-47 | the mapping succeeds exactly when every entry has a `space`; it then has one row per entry, with id, name, start, end and status copied and the location defaulting to `''` |
| MyReservations.IsUpcoming | src/pages/MyReservations.jsx:14-16 | a row is upcoming exactly when its end parses and is strictly after `now`; an unparsable end never is |
| MyReservations.OffersCancel | src/pages/MyReservations.jsx:152 | the cancel button shows exactly when the status is not 'cancelled' |
| MyReservations.Upcoming | src/pages/MyReservations.jsx:14-16 | keeps exactly the rows whose end is after `now`, with their multiplicities; an unparsable end is dropped |
| MyReservations.SortByStart | src/pages/MyReservations.jsx:49 | the result is sorted by start and is a permutation of the input |
| MyReservations.Insert | src/pages/MyReservations.jsx:49 | inserting into a sorted list keeps it sorted and adds exactly one element |
| MyReservations.SortIsStable | src/pages/MyReservations.jsx:49 | rows with equal starts keep their backend order, as the stable JavaScript sort does |
| MyReservations.SortKeepsSorted | src/pages/MyReservations.jsx:49 | sorting a list already sorted by start leaves it unchanged |
| MyReservations.InitialList | src/pages/MyReservations.jsx:39-51 | the first load succeeds exactly when there is a body whose entries all have a space; the list is sorted, every row ends after `now`, and it holds exactly the mapped upcoming rows |
| MyReservations.RefetchedList | src/pages/MyReservations.jsx:85-96 | the list reloaded after a cancel is sorted and is a permutation of all mapped rows, with nothing filtered out |
| MyReservations.EndedBookingOnlyAfterRefetch | src/pages/MyReservations.jsx:48 | a booking that has ended is absent from the first load but present after a refetch |
| MyReservations.CancelledBookingShownWithoutButton | src/pages/MyReservations.jsx:152-159 | a cancelled booking appears in the refetched list without a cancel button |
| MyReservations.MyReservationsPage.constructor | src/pages/MyReservations.jsx:20-23 | empty list, loading, no error, no alert |
| MyReservations.MyReservationsPage.CompleteFetch | src/pages/MyReservations.jsx:39-57 | a good load stores `InitialList`; a failed or malformed one sets 'Error al cargar reservas'; loading ends false either way |
| MyReservations.MyReservationsPage.Cancel | src/pages/MyReservations.jsx:63-77 | sends `{bookingId, 'cancelled'}`; success gives a success alert, loading true and a cleared error; failure gives 'Error al cancelar la reserva' and leaves the list unchanged |
| MyReservations.MyReservationsPage.CompleteRefetch | src/pages/MyReservations.jsx:78-102 | stores `RefetchedList` on success; on failure sets the cancel-error alert and keeps the list; loading ends false |
| ReservationWindow.FieldsCompose | src/pages/ReservationWindow.jsx:37-45 | an instant is the sum of its day, hour and minute fields, and each field is in range |
| ReservationWindow.SlotStart | src/pages/ReservationWindow.jsx:37-45 | the start takes its day from the date and its hour and minute from the time, with seconds and milliseconds zero |
| ReservationWindow.SlotStartUnique | src/pages/ReservationWindow.jsx:37-45 | only one instant has those fields |
| ReservationWindow.SlotRequest | src/pages/ReservationWindow.jsx:46-59 | the request carries the route's space id and the stored user id; the end is exactly 60 minutes after the start, so after it, and on the same day unless the slot starts at 23:00 |
| ReservationWindow.ReservePage.constructor | src/pages/ReservationWindow.jsx:16-19 | the route parameters; no date, no time, no alert |
| ReservationWindow.ReservePage.SelectDate | src/pages/ReservationWindow.jsx:17 | only the date changes |
| ReservationWindow.ReservePage.SelectTime | src/pages/ReservationWindow.jsx:18 | only the time changes |
| ReservationWindow.ReservePage.Confirm | src/pages/ReservationWindow.jsx:22-74 | a missing date or time warns before anything else and sends nothing; a missing or empty token or user id gives 'No autenticado' and sends nothing; otherwise it sends `SlotRequest`; success alerts and navigates to /dashboard, failure alerts an error and stays |
| Availability.ToEntries | src/pages/components/Availability.jsx:49-57 | one entry per booking, in order, with 'Espacio eliminado', 'Sin ubicación' and 'Desconocido' for falsy nested names |
| Availability.IsUpcoming | src/pages/components/Availability.jsx:15-22 | an entry is upcoming exactly when its end parses and is strictly after `now`; a parse failure counts as not upcoming |
| Availability.KeepUpcoming | src/pages/components/Availability.jsx:15-22 | keeps only entries whose end parses and is after `now` |
| Availability.KeepUpcomingCounts | src/pages/components/Availability.jsx:58 | exactly the upcoming entries are kept, with their multiplicities |
| Availability.KeepUpcomingConcat | src/pages/components/Availability.jsx:58 | filtering works piece by piece, so backend order is preserved |
| Availability.KeepUpcomingUnchanged | src/pages/components/Availability.jsx:58 | a list with every entry upcoming is returned unchanged, so there is no sort |
| Availability.Entries | src/pages/components/Availability.jsx:49-58 | null data gives `[]`; every result is upcoming; it holds exactly the mapped upcoming entries |
| Availability.AvailabilityPage.constructor | src/pages/components/Availability.jsx:28-33 | no date, no bookings, not loading, no alert, not yet searched, so the empty-list text is hidden |
| Availability.AvailabilityPage.SelectDate | src/pages/components/Availability.jsx:29 | only the date changes, and whether the empty-list text shows does not |
| Availability.AvailabilityPage.BeginCheck | src/pages/components/Availability.jsx:35-42 | without a date it warns and changes nothing else, the empty-list text included; with one it clears the alert and sets `hasSearched` and loading before the request, which hides the text while loading |
| Availability.AvailabilityPage.CompleteCheck | src/pages/components/Availability.jsx:44-68 | stores `Entries`; an empty result gives the info alert; a failure gives the error alert and keeps the list; loading ends false, so the empty-list text shows exactly when searched and empty, and an empty result after a search shows it |
| Availability.AvailabilityPage.ShowsNothingToShow | src/pages/components/Availability.jsx:111 | 'No hay reservas para mostrar' shows only after a search, and only with an empty list |
| Availability.EmptySearchShowsText | src/pages/components/Availability.jsx:35-68 | over one visit the empty-list text is hidden on arrival, still hidden after a search without a date, and shown after a dated search that comes back empty |
| EmailPattern.Matches | src/auth/RegisterPage.jsx:19 | the regular expression as a predicate over the positions of the `@` and the final `.`; any match has at least six characters |
| EmailPattern.IsValidEmail | src/auth/RegisterPage.jsx:19 | the one-pass recogniser; an address it accepts holds an `@` and has at least six characters |
| EmailPattern.FirstIndexOf | src/auth/RegisterPage.jsx:19 | the first position of a character, or the length when it is absent |
| EmailPattern.LastIndexOf | src/auth/RegisterPage.jsx:19 | the last position of a character, or -1 when it is absent |
| EmailPattern.RecogniserSound | src/auth/RegisterPage.jsx:19 | every address the recogniser accepts matches the pattern |
| EmailPattern.RecogniserComplete | src/auth/RegisterPage.jsx:19 | every way of matching the pattern is accepted by the recogniser |
| EmailPattern.IsValidEmailMatches | src/auth/RegisterPage.jsx:19 | recogniser and pattern agree on every string |
| EmailPattern.NoDotRejected | src/auth/RegisterPage.jsx:19 | "a@b" is rejected |
| EmailPattern.PlainAddressAccepted | src/auth/RegisterPage.jsx:19 | "ana.lopez@uv.mx" is accepted |
| EmailPattern.ShortLabelRejected | src/auth/RegisterPage.jsx:19 | "a@b.c" is rejected, since the final label needs 2 to 6 letters |
| Register.ValidationError | src/auth/RegisterPage.jsx:19-34 | no error exactly when all fields are filled, the e-mail matches and the password has at least 8 characters; otherwise the message of the first failing check, in source order |
| Register.RegisteredSession | src/auth/RegisterPage.jsx:46-50 | five keys written, a missing part as "undefined", the role fixed to 'user', other keys kept, logged in |
| Register.RegisterPage.constructor | src/auth/RegisterPage.jsx:11-14 | empty fields, no error |
| Register.RegisterPage.HandleRegister | src/auth/RegisterPage.jsx:16-58 | a failed check sets its message and sends nothing; otherwise it posts name, e-mail and password; a reply with a `user` writes `RegisteredSession` and navigates to /dashboard; a 2xx reply without `user` stores only the token, stays and sets the error; a failed request sets the error and leaves storage untouched |
| Register.UndottedEmailRefused | src/auth/RegisterPage.jsx:26-29 | a filled form with e-mail "a@b" is refused with 'Correo electrónico no válido' |
| Login.LoggedInSession | src/auth/LoginPage.jsx:30-33 | four keys written with the role from the reply, a missing part as "undefined", `user_email` unchanged, logged in |
| Login.LoginPage.constructor | src/auth/LoginPage.jsx:11-13 | empty fields, no error |
| Login.LoginPage.HandleLogin | src/auth/LoginPage.jsx:15-41 | an empty field errors, sends nothing and writes nothing; a reply with a `user` writes `LoggedInSession`, then notifies the shell if a callback is present, then navigates to /dashboard; a 2xx reply without `user` stores only the token and sets 'Email o contraseña incorrectos'; a failed request sets that message and leaves storage untouched |
| Spaces.IsSpaceType | src/pages/components/Space.jsx:7 | a type is accepted exactly when it is 'aula', 'laboratorio' or 'sala' |
| Spaces.ShowsAdminActions | src/pages/components/Space.jsx:138 | the card's edit and delete buttons show exactly for role 'admin' |
| Spaces.ReservePath | src/pages/components/Space.jsx:156 | the link is '/reserve/', the id, '/', then the name exactly as stored, with no encoding |
| Spaces.AvailabilityPath | src/pages/components/Space.jsx:163 | the link is '/availability/' followed by the id |
| Spaces.FormFrom | src/pages/components/Space.jsx:10-13 | every field comes from the space, `''` when falsy or when the space is missing, so a capacity of 0 shows empty |
| Spaces.Merge | src/pages/components/Space.jsx:51 | only name, type, capacity and location are replaced; the id and every other field are kept |
| Spaces.MergeUnchangedForm | src/pages/components/Space.jsx:10-13 | saving an untouched form returns the space, except that a zero capacity comes back empty |
| Spaces.UntypedSpaceNeedsType | src/pages/components/Space.jsx:28-31 | a space stored without a type cannot be saved until one is picked |
| Spaces.EditSpaceModal.constructor | src/pages/components/Space.jsx:10-15 | the form comes from `FormFrom`; not loading; no error |
| Spaces.EditSpaceModal.Reset | src/pages/components/Space.jsx:17-23 | a new `space` prop reloads the form and clears the error |
| Spaces.EditSpaceModal.Edit | src/pages/components/Space.jsx:70-94 | the form changes and nothing else does |
| Spaces.EditSpaceModal.BeginSave | src/pages/components/Space.jsx:27-50 | a type outside the three kinds sets the error and sends nothing; otherwise loading is set, the error cleared, and the form is sent unchecked to the space's id |
| Spaces.EditSpaceModal.CompleteSave | src/pages/components/Space.jsx:51-58 | success hands `Merge(space, form)` to `onSave`; failure sets 'Error al guardar los cambios'; loading ends false |
| Dashboard.ShowsAdminButtons | src/pages/Dashboard.jsx:105 | the add and create-admin buttons show exactly when the role the handlers check is 'admin', so they agree with the card's gate |
| Dashboard.DisplayName | src/pages/Dashboard.jsx:36 | the stored name, or 'Usuario' when it is absent or empty |
| Dashboard.RoleOf | src/pages/Dashboard.jsx:37 | the stored role, or `''` when it is absent |
| Dashboard.RemoveById | src/pages/Dashboard.jsx:65 | keeps exactly the spaces with a different id |
| Dashboard.RemoveByIdConcat | src/pages/Dashboard.jsx:65 | removal works piece by piece, so the survivors keep their order |
| Dashboard.RemoveAbsentId | src/pages/Dashboard.jsx:65 | removing an id no space has changes nothing |
| Dashboard.RemoveByIdIdempotent | src/pages/Dashboard.jsx:65 | removing twice is removing once |
| Dashboard.LoggedOutSession | src/pages/Dashboard.jsx:151-154 | token, name, role and id removed, `user_email` and everything else kept, logged out |
| Dashboard.DashboardPage.constructor | src/pages/Dashboard.jsx:14-16 | no spaces, dialog closed, no alert |
| Dashboard.DashboardPage.FetchSpaces | src/pages/Dashboard.jsx:18-29 | success replaces the list; failure keeps it and sets 'Error al cargar espacios' |
| Dashboard.DashboardPage.HandleReserve | src/pages/Dashboard.jsx:39-45 | an administrator is warned off; anyone else gets the info alert |
| Dashboard.DashboardPage.HandleEdit | src/pages/Dashboard.jsx:47-53 | a non-administrator is warned; an administrator gets the info alert; the list is unchanged |
| Dashboard.DashboardPage.HandleDelete | src/pages/Dashboard.jsx:55-71 | a request is sent exactly for an administrator; a non-administrator is warned and the list is unchanged; success removes exactly the entries with that id; failure keeps the list and sets the error |
| Dashboard.DashboardPage.OpenAddModal | src/pages/Dashboard.jsx:108 | only the dialog flag changes |
| Dashboard.DashboardPage.CloseAddModal | src/pages/Dashboard.jsx:146 | only the dialog flag changes |
| Dashboard.DashboardPage.DismissAlert | src/pages/Dashboard.jsx:75-78 | only the alert is cleared |
| Dashboard.Logout | src/pages/Dashboard.jsx:150-155 | storage becomes `LoggedOutSession` and navigation goes to /login |
| Dashboard.LogoutDropsAdminRights | src/pages/Dashboard.jsx:105 | after logout no administrator button or card action shows, and the greeting falls back to 'Usuario' |
| AddSpace.WithField | src/pages/components/AddSpaceModal.jsx:18-20 | the named field takes the value and the other three are unchanged |
| AddSpace.WithFieldCommutes | src/pages/components/AddSpaceModal.jsx:18-20 | edits of different fields commute; a later edit of the same field wins |
| AddSpace.AddSpaceModal.constructor | src/pages/components/AddSpaceModal.jsx:11-16 | the form starts as name '', type 'aula', capacity '', location '' |
| AddSpace.AddSpaceModal.HandleChange | src/pages/components/AddSpaceModal.jsx:18-20 | the form becomes `WithField` of the old form |
| AddSpace.AddSpaceModal.HandleSubmit | src/pages/components/AddSpaceModal.jsx:22-43 | the form is posted unchecked; success resets it and calls `onClose` then `onSuccess`; failure keeps it and raises 'Error al crear espacio' |
| CreateAdmin.ErrorMessage | src/auth/CreateAdmin.jsx:30-33 | the backend's `error` text when it is non-empty, otherwise 'Error al crear administrador'; never empty |
| CreateAdmin.CreateAdminPage.constructor | src/auth/CreateAdmin.jsx:9-13 | empty fields, no alert, not loading |
| CreateAdmin.CreateAdminPage.BeginSubmit | src/auth/CreateAdmin.jsx:18-26 | loading set, alert cleared, and the request always carries role 'admin' with the three fields |
| CreateAdmin.CreateAdminPage.CompleteSubmit | src/auth/CreateAdmin.jsx:27-37 | success alerts and navigates to /dashboard; failure alerts `ErrorMessage`; loading ends false either way |
| Routing.Before | src/pages/components/Space.jsx:156 | the longest prefix before the first occurrence of a character, all of the string when it has none |
| Routing.BeforeFirst | src/pages/components/Space.jsx:156 | a string is cut exactly at the first occurrence |
| Routing.PathnameOf | src/pages/components/Space.jsx:156 | the pathname of a `navigate` target, before the browser's own normalisation: a prefix with no `#` or `?`, the whole target when it has neither |
| Routing.Fallback | src/App.jsx:25 | /dashboard exactly when logged in, /login exactly when not |
| Routing.Split | src/App.jsx:27-32 | the segments have no slashes, and there is at least one |
| Routing.SplitPlain | src/App.jsx:27-32 | a slash-free string is a single segment |
| Routing.SplitAt | src/App.jsx:27-32 | a slash ends one segment and starts the next |
| Routing.TrimSlashes | src/App.jsx:27-32 | the result is a prefix that does not end in a slash, and only slashes were removed |
| Routing.Route | src/App.jsx:25-32 | an unmatched path redirects to /dashboard when logged in and to /login otherwise; the reserve route binds two, and the availability route one, non-empty slash-free segments |
| Routing.RouteIgnoresLogin | src/App.jsx:25-32 | the login flag changes only the fallback; every named route renders the same screen logged in or not |
| Routing.SegmentsOfTop | src/App.jsx:26-28 | a one-segment path splits into the root piece and that segment |
| Routing.FallbackIsRouted | src/App.jsx:25-28 | both fallback targets are routes of their own, so a redirect never redirects again |
| Routing.ReserveSegments | src/App.jsx:30 | a reserve link with non-empty slash-free id and name splits into exactly the root, 'reserve', the id and the name |
| Routing.ReservePathRoutes | src/pages/components/Space.jsx:156 | a card's reserve link reaches the reservation screen with its id and name, when both are non-empty, free of `/`, `?` and `#`, not a dot segment, free of `\`, tab, LF, CR and `%`, and the name does not end in a space or control character |
| Routing.TwoPartNameSegments | src/App.jsx:30 | a reserve link whose name holds one slash splits into five segments |
| Routing.SlashedNameRedirects | src/App.jsx:25-32 | such a link, built from pieces the browser leaves as they are, reaches only the wildcard |
| Routing.SlashedNameMisroutes | src/pages/components/Space.jsx:156 | the name is not encoded, so a space named "A/B" gets a link that only the wildcard matches |
| Routing.HashEndsPathname | src/pages/components/Space.jsx:156 | a link with a `#` and no `?` before it has as pathname exactly the text before the `#`, when the browser keeps every segment of that text |
| Routing.HashCutsName | src/pages/components/Space.jsx:156 | a `#` in the name starts the link's hash, so the screen receives only the part of the name before it, when the browser keeps the id and that part |
| Routing.HashInNameTruncates | src/pages/components/Space.jsx:156 | a space named "Sala #3" reaches the reservation screen as "Sala " |
| Routing.AvailabilitySegments | src/App.jsx:31 | an availability link with a non-empty slash-free id splits into exactly the root, 'availability' and the id |
| Routing.AvailabilityPathRoutes | src/pages/components/Space.jsx:163 | a card's availability link reaches the availability screen for its id, when it is non-empty, free of `/`, `?` and `#`, not a dot segment, free of `\`, tab, LF, CR and `%`, and does not end in a space or control character |
| Routing.App.constructor | src/App.jsx:12 | the flag starts as "a token is stored" |
| Routing.App.OnStorage | src/App.jsx:15-17 | a storage event recomputes the flag from the token |
| Routing.App.OnLogin | src/App.jsx:26 | the login callback sets the flag without reading storage |

## Left out

- HTTP: requests are not sent. Each call's outcome is a parameter: success with its data, or failure with the optional `error` text of the reply body. Headers, URLs and the backend itself, including overlap detection, are outside the model. A 2xx body that is `null` is handled as each handler handles it. The two loads of the reservations list throw on it, and the model takes their body as optional and fails on `None`. The login and registration handlers throw on it before writing anything, which the model treats as a failure. The availability check turns it into `[]` (`Availability.Entries`). The delete, update, create and reservation handlers ignore the body. The dashboard's space list is covered by the Dashboard.DashboardPage.FetchSpaces line below. A login or registration reply without `user` is modelled on its own: the token is stored first, then the handler fails. A list entry without `space` is modelled as the failure it leads to.
- Dates: the date and time pickers, `new Date`, `date-fns` and `toLocaleString` are not modelled. Instants are integer milliseconds of local time, so time zones and daylight-saving changes are not modelled, and "now" is a parameter. An end time that does not parse is `Unparsable` and is never "after" now.
- ReservationWindow.ReservePage.Confirm: a picker value that is an Invalid Date passes the `!selectedDate` guard. `format` then throws outside the `try` (src/pages/ReservationWindow.jsx:48-49), which gives no alert and no request. The model's picked values are always valid instants.
- Availability.AvailabilityPage.BeginCheck: a picker value that is an Invalid Date passes the `!selectedDate` guard (src/pages/components/Availability.jsx:36). `format` then throws inside the `try` (src/pages/components/Availability.jsx:45), so no request is sent and the error alert shows. The model's picked dates are always valid instants, so its dated check always sends.
- MyReservations.SortByStart: start times are assumed to parse. A JavaScript comparator that returns `NaN` for an unparsable start is not modelled.
- Rendering: JSX, the MUI and headlessui components, the page reload after a save, `setTimeout` navigation delays, `console.error`, and the browser `alert()` are not modelled. The dialog's `alert()` is returned as a notice.
- Browser form validation: the `required` attributes (src/auth/CreateAdmin.jsx:55, 65, 75) and `type="email"` inputs (src/auth/LoginPage.jsx:54, src/auth/RegisterPage.jsx:80, src/auth/CreateAdmin.jsx:61) can block a submit before its handler runs. The model's handlers run on every submit.
- Effects and concurrency: React's effect scheduling, re-renders, responses that arrive after unmount, and overlapping clicks are not modelled. A handler split at an await is assumed to complete before the next event.
- Routing.App.OnStorage: browsers fire `storage` only in other tabs. A logout in the same tab therefore leaves the flag stale, and how events are delivered between tabs is not modelled.
- Routing.PathnameOf: the browser's URL normalisation is not modelled. Before the router reads the path, the browser resolves `.` and `..` segments (also spelled with `%2e`), reads `\` as `/`, deletes tabs and line breaks, and strips spaces and control characters from the end of the URL. So the routing lemmas promise nothing for an id or name that is a dot segment, contains `\`, tab, LF, CR or `%`, or (as the last segment) ends in a space or control character. Their requires exclude these cases through `Routing.BrowserKeeps`, `Routing.BrowserKeepsPath` and `Routing.EndsVisibly`.
- Routing.ReservePathRoutes and Routing.AvailabilityPathRoutes: the router percent-decodes parameters and the model does not, so an id or name containing `%` is outside these lemmas. A `?` or `#` in them is modelled: it cuts the link, as Routing.HashInNameTruncates shows.
- Routing.Route: React Router matches static segments case-insensitively and percent-decodes parameters. Neither is modelled, so a path matches only in lower case and parameters are taken as written.
- The `useAuthGuard` hook (src/auth/useAuth.jsx) is not part of this model. It sends the user to /login when the stored token is falsy (src/auth/useAuth.jsx:7), which is `!Truthy(Get(m, AuthToken))` in the model's terms. This is not the `LoggedIn` predicate of `Session`, which tests only that the key is present. The two differ when the stored token is the empty string: `LoggedIn` holds and the guard still redirects.
- Register.ValidationError: JavaScript's `password.length` counts UTF-16 code units, while the model counts characters. The two differ only for characters outside the Basic Multilingual Plane.
- Dashboard.DashboardPage.FetchSpaces: a 2xx reply whose body is `null` is stored as the list without an error (src/pages/Dashboard.jsx:24), and the render then fails at `spaces.length` (src/pages/Dashboard.jsx:125). The model's successful reply always carries a list, so neither that state nor the crash is modelled.
- Dashboard.DashboardPage.HandleReserve: the space card never calls `onReserve`, so this is an isolated handler, not part of the reservation flow.
- Spaces.EditSpaceModal.CompleteSave: on success the dialog also calls `onClose` and reloads the page (src/pages/components/Space.jsx:52-53). The model returns only the record handed to `onSave`.
- Spaces.EditSpaceModal.CompleteSave: it requires a present `space`, because it models the step after `BeginSave` has sent a request, which happens only when `space` is present.
- The form fields of the login, register and create-admin screens are plain state writes with no separate method. Each handler reads them as fields.
- Login.LoginPage.HandleLogin and Register.RegisterPage.HandleRegister: a reply part that is `null` rather than missing is stored as the text "null". The model has only present or missing parts, and stores a missing one as "undefined".
