# Property booking and management — Dafny model

This project models the core of a property booking application, on both sides.

The server is an Express/Sequelize API:
- a property catalogue with image uploads;
- client reservations, each billed by an automatically created invoice;
- invoice administration and card payment of invoices;
- user accounts with registration, login and profile editing;
- an administrator's dashboard.

The client is a React front end. The model covers its booking form, the date-change dialog, the administrator's reservation table, the property form, and the sign-up, profile and user-administration pages.

The database is the class `Store.Db`: one map per table from id to row, plus one counter per table for the next auto-increment id. `Db.Valid()` states the invariant every handler keeps:
- each row is stored under its own id, below the counter;
- every invoice belongs to a reservation id that has been issued.

Each HTTP handler is a method on the store, or a function when it only reads. Its answer is an `Outcome`:
- `Ok(value)`, or `NotFound`, `BadRequest` or `Unauthorized` with the exact message the handler sends;
- `ServerError` for the 500 the database causes when a NOT NULL column would be NULL, a value is outside an ENUM column, or an amount does not fit its DECIMAL(10, 2) column.

Money is in integer cents, because the DECIMAL(10, 2) columns hold exactly two decimals. Such a column also holds at most eight digits before the point: `Models.FitsDecimal` bounds a stored amount by `Models.MAX_CENTS` (99 999 999.99), and a write beyond it is a 500. Instants are integer milliseconds.

The services the code calls are parameters:
- `hash` and `matches` stand for password hashing and checking;
- `upload` is the image host, mapping a file to its URL;
- `processor` is the card processor;
- `instant` reads a date text the way `new Date(text)` does.

JavaScript's `||` on optional fields is modelled by `Common.Truthy`, `OrString`, `OrInt` and `OrOption`: an absent value, the empty string and 0 are falsy.

The client pages that hold state are classes: `PropertyForm.Form`, `ReservationsManagement.Page`, `Profile.PasswordDialog` and `UsersManagement.Page`. Their fields are the component's state, and their methods are its event handlers. The server's answer to a request the page sends is a parameter of the handler.

## Model

| member | source | states |
|---|---|---|
| Models.ParsePropertyStatus | server/src/models/Property.js:29-32 | the ENUM('available','sold','rented') column accepts exactly the three status names, each denoting its own status |
| Models.ParseReservationStatus | server/src/models/Reservation.js:20-23 | the reservation ENUM accepts exactly pending, confirmed and cancelled |
| Models.ParseInvoiceStatus | server/src/models/Invoice.js:23-26 | the invoice ENUM accepts exactly paid, unpaid and pending |
| Models.StatusNamesRoundTrip | server/src/models/Invoice.js:23-26 | every stored status name of the three ENUM columns parses back to the same status |
| Models.NewProperty | server/src/models/Property.js:4-36 | an inserted property keeps the given columns; status defaults to available and images to the empty list |
| Models.NewReservation | server/src/models/Reservation.js:6-24 | an inserted reservation has status pending, the given id, user, property and dates, and the insertion instant as its creation time |
| Models.NewInvoice | server/src/models/Invoice.js:5-27 | an inserted invoice defaults to unpaid, is issued at the insertion instant and has no due date unless given |
| Store.InvoicesOf | server/src/models/Invoice.js:30-31 | the invoice ids that belong to a reservation are exactly the stored invoices carrying its id |
| Schemas.RegisterRole | server/src/validators/schemas.js:8 | the registration role is the one given, or client by default |
| Schemas.RegisterRoleIsClientOrAdmin | server/src/validators/schemas.js:4-9 | an accepted registration body has role client or admin, and client when it gives none |
| Schemas.ValidRegister | server/src/validators/schemas.js:4-9 | the registration schema: a name of at least 3 characters, an e-mail, a password of at least 6, and a role among client and admin when given |
| Schemas.ValidLogin | server/src/validators/schemas.js:10-13 | the login schema: an e-mail and a password, both required |
| Schemas.CreateStatus | server/src/validators/schemas.js:23 | the create schema's status is the one given, or available by default |
| Schemas.ValidPropertyCreate | server/src/validators/schemas.js:17-24 | the create schema: title, price, address and a listed type required, a listed status when given; PropertySchemasAgree relates it to the update schema and the ENUM |
| Schemas.ValidPropertyUpdate | server/src/validators/schemas.js:25-32 | the update schema: every field optional, with a listed type and status when given |
| Schemas.PropertySchemasAgree | server/src/validators/schemas.js:17-32 | the create schema implies the update schema and requires title, address, price and a listed type; every status either schema admits is a name the ENUM column accepts |
| Schemas.StatusUpdateMatchesEnum | server/src/validators/schemas.js:41-43 | the status-update schema admits exactly the names of the reservation ENUM |
| Schemas.ValidStatusUpdate | server/src/validators/schemas.js:41-43 | the status-update schema: one of pending, confirmed, cancelled, required |
| Schemas.ValidReservationCreate | server/src/validators/schemas.js:36-40 | the reservation schema: an integer property id, a start, and an end strictly after it |
| Schemas.ReservationSchemaDates | server/src/validators/schemas.js:36-40 | a reservation body is accepted iff the end is strictly after the start; a missing end or a fractional property id is refused |
| Reservations.CeilDivBounds | server/src/controllers/reservationController.js:32 | `Math.ceil(n / d)` is the least count of d-units covering n, and is 0 only for n = 0 |
| Reservations.DiffDaysIsCeiling | server/src/controllers/reservationController.js:29-32 | the day count is 0 exactly for equal instants and is otherwise the distance in days rounded up |
| Reservations.InvoiceAmountProperties | server/src/controllers/reservationController.js:29-36 | the billed amount is price × days rounded up, with a one-day minimum; it does not depend on the order of the dates and is at least one night's price |
| Reservations.ValidatedRequestBillsCeilingDays | server/src/controllers/reservationController.js:29-36 | for a body the schema accepts, the one-day minimum never applies: the amount is price × the rounded-up day count |
| Reservations.ThreeNightsExample | server/src/controllers/reservationController.js:29-36 | three nights at 100.00 are billed 300.00 |
| Reservations.OversizedStayExample | server/src/controllers/reservationController.js:20-41 | a property at 1 000 000.00 a night booked for a hundred days is billed beyond what the invoice column holds, while 100.00 a night for a year is not |
| Reservations.CeilDiv | server/src/controllers/reservationController.js:32 | `Math.ceil(n / d)` on whole numbers; its bounds are CeilDivBounds |
| Reservations.DiffDays | server/src/controllers/reservationController.js:29-32 | the absolute distance of the two instants in days, rounded up; characterised by DiffDaysIsCeiling |
| Reservations.BilledDays | server/src/controllers/reservationController.js:34-35 | the day count, or 1 when it is 0; InvoiceAmountProperties proves it is at least 1 |
| Reservations.InvoiceAmount | server/src/controllers/reservationController.js:36 | the nightly price times the billed days; its properties are InvoiceAmountProperties |
| Reservations.CreateReservation | server/src/controllers/reservationController.js:8-47 | an unknown property gives 404 and writes nothing; otherwise a pending reservation owned by the caller is inserted; when the InvoiceAmount fits the DECIMAL(10, 2) column exactly one unpaid invoice for it is inserted and the answer is the reservation, and when it does not the answer is a 500, no invoice is written and the reservation stays without one; the store invariant holds |
| Reservations.MyReservations | server/src/controllers/reservationController.js:52-62 | the caller's listing holds exactly the stored reservations whose user is the caller |
| Reservations.ListingsPartitionAll | server/src/controllers/reservationController.js:52-76 | every reservation of the administrator's listing appears in its owner's listing, and two users' listings are disjoint |
| Reservations.AllReservations | server/src/controllers/reservationController.js:67-76 | every stored reservation; ListingsPartitionAll relates it to the per-caller listings |
| Reservations.UpdateReservationStatus | server/src/controllers/reservationController.js:81-97 | a missing id gives 404 with no change; otherwise only that reservation's status changes |
| Admin.PaidOnly | server/src/controllers/adminController.js:16-19 | the invoices selected are exactly those with status paid |
| Admin.RevenueDependsOnContributions | server/src/controllers/adminController.js:20 | the revenue fold depends only on what each invoice contributes |
| Admin.RevenueCountsOnlyPaid | server/src/controllers/adminController.js:16-20 | unpaid and pending invoices contribute nothing: the revenue equals that of the paid invoices alone |
| Admin.RevenueNonNegative | server/src/controllers/adminController.js:16-20 | with non-negative amounts the revenue is non-negative |
| Admin.PayingAddsAmount | server/src/controllers/adminController.js:16-20 | marking one unpaid invoice paid raises the revenue by exactly its amount |
| Admin.RevenueBeyondIssuedKeys | server/src/controllers/adminController.js:16-20 | in a consistent store the fold over the issued ids counts every invoice |
| Admin.TotalRevenue | server/src/controllers/adminController.js:16-20 | the fold of the paid amounts over the issued invoice ids; GetDashboardStats and the revenue lemmas state its meaning |
| Admin.ActiveReservations | server/src/controllers/adminController.js:11-13 | the count is the number of confirmed reservations and is at most the number of reservations |
| Admin.InsertByRecency | server/src/controllers/adminController.js:23-25 | inserting into a newest-first list keeps it newest first and keeps every entry |
| Admin.LimitKeepsOrOutranks | server/src/controllers/adminController.js:24 | cutting a ranking to five keeps an entry or leaves it no newer than the fifth |
| Admin.RecentBelow | server/src/controllers/adminController.js:23-30 | the recent list has at most five stored reservations, newest first, and any stored reservation left out is no newer than the last one listed |
| Admin.RecentBelowIsFull | server/src/controllers/adminController.js:23-30 | with rows stored under their own ids, the recent list holds five reservations, or all of them when there are fewer, and lists none twice |
| Admin.RecentActivity | server/src/controllers/adminController.js:23-30 | at most five stored reservations, newest first |
| Admin.GetDashboardStats | server/src/controllers/adminController.js:7-42 | totalUsers and totalProperties are the table sizes; activeReservations is exactly the number of confirmed reservations; totalRevenue is the paid invoices' total and is non-negative for non-negative amounts; recentActivity holds min(5, number of reservations) distinct stored reservations, newest first, none left out being newer than the last listed |
| Invoices.GetInvoice | server/src/controllers/invoiceController.js:26-44 | a missing id gives 404 "Invoice not found"; otherwise the stored invoice |
| Invoices.GetInvoiceIgnoresOwnership | server/src/controllers/invoiceController.js:36-40 | the answer is the same whoever asks, because the ownership check is commented out |
| Invoices.ApplyPatch | server/src/controllers/invoiceController.js:82-86 | an invalid status, or a written amount beyond the DECIMAL(10, 2) column, gives a 500; otherwise amount, status and due date take the new value when it is truthy and keep the old one when it is not (an amount of 0 is never written), and id, reservation and issue date never change |
| Invoices.EmptyPatchIsIdentity | server/src/controllers/invoiceController.js:82-84 | an empty body leaves the invoice as it was |
| Invoices.ApplyPatchIdempotent | server/src/controllers/invoiceController.js:82-84 | applying the same body twice gives the same invoice as applying it once |
| Invoices.UpdateInvoice | server/src/controllers/invoiceController.js:73-93 | a missing id gives 404; otherwise the stored invoice becomes ApplyPatch of the old one, and nothing else changes |
| Invoices.CreateInvoice | server/src/controllers/invoiceController.js:48-68 | an unknown reservation gives 404; a missing amount, an amount beyond the DECIMAL(10, 2) column or an invalid status gives a 500 with nothing written; otherwise one invoice (default unpaid) is added to that reservation's invoices, whatever it already had |
| Invoices.DeleteInvoice | server/src/controllers/invoiceController.js:98-111 | a missing id gives 404; otherwise exactly that invoice is removed |
| Payments.CreatePayment | server/src/controllers/paymentController.js:4-30 | a missing invoice gives 404 and a paid one 400, and neither is charged; otherwise the processor is charged exactly the invoice's amount in USD; on success only the status becomes paid and the revenue rises by the amount; on failure a 400 is returned and nothing changes |
| Payments.PayTwice | server/src/controllers/paymentController.js:13-15 | after a successful payment, paying the same invoice again is refused with "Invoice already paid" and charges nothing |
| Properties.BuildWhere | server/src/controllers/propertyController.js:10-19 | the filter has a type or status condition iff that query field is truthy, and a price condition iff either bound is given |
| Properties.Satisfies | server/src/controllers/propertyController.js:21 | how the store evaluates the `where` object on a row: every condition present holds |
| Properties.Matches | server/src/controllers/propertyController.js:10-19 | the listing's meaning on the query itself: exact type and status and inclusive price bounds, each when given; WhereMeansQuery equates it with Satisfies of BuildWhere |
| Properties.WhereMeansQuery | server/src/controllers/propertyController.js:13-19 | a row satisfies the filter iff it has the given type and status and lies within the given inclusive bounds |
| Properties.GetProperties | server/src/controllers/propertyController.js:8-26 | a status outside the ENUM gives a 500; otherwise exactly the stored properties that match the query |
| Properties.NoFilterListsAll | server/src/controllers/propertyController.js:10-21 | with no filter every property is listed |
| Properties.NarrowingShrinksListing | server/src/controllers/propertyController.js:13-19 | adding or tightening a filter never enlarges the listing |
| Properties.CrossedBoundsListNothing | server/src/controllers/propertyController.js:15-18 | a minimum price above the maximum lists nothing |
| Properties.GetProperty | server/src/controllers/propertyController.js:31-41 | a missing id gives 404 "Property not found"; otherwise the stored property |
| Properties.Uploaded | server/src/controllers/propertyController.js:49-60 | one URL per file, the i-th being the upload of the i-th file |
| Properties.PushUploads | server/src/controllers/propertyController.js:49-60 | the upload loop appends the files' URLs in order after the list it starts from |
| Properties.BuildProperty | server/src/controllers/propertyController.js:62-70 | a missing title, address, price or type, a price beyond the DECIMAL(10, 2) column, or an invalid status gives a 500, and nothing else does; otherwise the row holds the body's fields, the uploaded URLs and status available by default |
| Properties.ValidCreateBodyIsStored | server/src/controllers/propertyController.js:62-70 | a body the create schema accepts is stored exactly when its price fits the column (the schema puts no bound on it), and then with a listed type |
| Properties.CreateProperty | server/src/controllers/propertyController.js:46-82 | the new row holds one URL per uploaded file in upload order (`[]` without files) and is stored under the next id; on failure nothing changes |
| Properties.ApplyPropertyUpdate | server/src/controllers/propertyController.js:109-117 | each field present in the body is written and each absent one kept; an invalid status or a new price beyond the DECIMAL(10, 2) column gives a 500, and nothing else does |
| Properties.UpdateBodies | server/src/controllers/propertyController.js:109-117 | a body the update schema accepts is stored exactly when its new price, if any, fits the column, and an empty body without files leaves the property unchanged |
| Properties.UpdateProperty | server/src/controllers/propertyController.js:87-128 | a missing id gives 404 with no change; otherwise the old images stay as a prefix, followed by the new URLs in order |
| Properties.DeleteProperty | server/src/controllers/propertyController.js:133-145 | a missing id gives 404 with no change; otherwise exactly that property is removed |
| Users.FirstWithEmail | server/src/controllers/userController.js:65-68 | the lowest id holding the e-mail, or None exactly when no account holds it |
| Users.FindByEmail | server/src/controllers/userController.js:65-68 | finds an account holding the e-mail, and answers None exactly when there is none |
| Users.Public | server/src/controllers/userController.js:5-7 | a listed user carries every column of the account except the password |
| Users.PublicHidesPassword | server/src/controllers/userController.js:5-7 | two accounts that differ only in their password are listed identically |
| Users.GetAllUsers | server/src/controllers/userController.js:3-12 | one password-free entry per stored account |
| Users.GetUserById | server/src/controllers/userController.js:14-26 | a missing id gives 404 "User not found"; otherwise the password-free account |
| Users.Summary | server/src/controllers/userController.js:77-82 | the answer of create-user and update-user: id, name, e-mail and role, without the password |
| Users.CreateUser | server/src/controllers/userController.js:61-86 | an e-mail already in use gives 400 and adds nothing; otherwise one account with the hashed password and role `role \|\| 'client'`; e-mail uniqueness is preserved |
| Users.ApplyUserUpdate | server/src/controllers/userController.js:97-99 | name, e-mail and role take the new value when it is truthy and keep the old one otherwise; nothing else changes |
| Users.UpdateUser | server/src/controllers/userController.js:88-112 | a missing id gives 404; otherwise the account becomes ApplyUserUpdate of itself |
| Users.UpdateUserRole | server/src/controllers/userController.js:28-44 | a missing id gives 404 with no change; otherwise only that account's role changes, and the answer is the message "User role updated" with the account's id, name and new role, and nothing else of the account |
| Users.DeleteUser | server/src/controllers/userController.js:46-59 | a missing id gives 404 with no change; otherwise exactly that account is removed |
| Users.ApplyProfile | server/src/controllers/userController.js:122-139 | a new password without a current one, or with one that does not match, gives a 400 with its message; every other request is accepted, the password becomes the new one's hash, the four profile fields fall back when falsy, and e-mail, role and id never change |
| Users.PasswordChangeNeedsCurrentPassword | server/src/controllers/userController.js:125-133 | whenever the stored password changes, a current password matching the old one was supplied and the new hash is that of newPassword |
| Users.View | server/src/controllers/userController.js:143-152 | the profile answer: the template name ("null" for a missing part) and the profile columns, without the password |
| Users.UpdateProfile | server/src/controllers/userController.js:114-156 | an unknown caller gives 404; a refused change gives its 400 with nothing changed; otherwise the caller's account becomes ApplyProfile of itself; e-mail uniqueness is preserved |
| Auth.NormaliseRole | server/src/controllers/authController.js:20 | the role is admin exactly when 'admin' was requested, and client otherwise |
| Auth.DisplayName | server/src/controllers/authController.js:35 | the name is the first name, one space, then the last name |
| Auth.SessionOf | server/src/controllers/authController.js:55-61 | the login and registration answer: id, display name, e-mail and role (the token is left out) |
| Auth.Register | server/src/controllers/authController.js:10-46 | an e-mail already in use gives 400 and creates nothing; otherwise one account with the hashed password and the normalised role; e-mail uniqueness is preserved |
| Auth.Login | server/src/controllers/authController.js:48-68 | a successful login is for an account with that e-mail whose stored hash matches the password; any failure is the single 401 "Invalid email or password"; an unknown e-mail always fails |
| Auth.LoginFailuresIndistinguishable | server/src/controllers/authController.js:62-64 | an unknown e-mail and a wrong password get the same answer |
| Auth.MatchingPasswordLogsIn | server/src/controllers/authController.js:52-61 | with unique e-mails, an account logs in with any password its hash accepts |
| ReservationForm.CalculateTotal | client/src/components/client/ReservationForm.jsx:26-33 | 0 until both dates are set and 0 for a zero-day stay; otherwise exactly the server's invoice amount for the same dates |
| ReservationForm.TotalIsSymmetric | client/src/components/client/ReservationForm.jsx:30 | the preview does not depend on the order of the dates |
| ReservationForm.SameDayPreviewDiffersFromInvoice | client/src/components/client/ReservationForm.jsx:26-33 | a same-instant stay previews 0 but would be billed one night |
| ReservationForm.HandleSubmit | client/src/components/client/ReservationForm.jsx:37-58 | without a user the visitor goes to login and nothing is sent; otherwise exactly {propertyId, startDate, endDate} is sent |
| ModificationModal.HandleSubmit | client/src/components/client/ModificationModal.jsx:22-26 | onSubmit (followed by onClose) happens iff both dates and a reason are given, with the reservation id and those three values |
| ModificationModal.DisabledMatchesGuard | client/src/components/client/ModificationModal.jsx:74 | the button is disabled exactly when submitting would do nothing, and onClose only follows onSubmit |
| ModificationModal.PickersAllowZeroLengthStay | client/src/components/client/ModificationModal.jsx:39-53 | the pickers forbid past days and an end before the start, but let the end equal the start, and such a request is sent |
| ReservationsManagement.StatusLabel | client/src/pages/admin/ReservationsManagement.jsx:151 | Confirmé iff confirmed, Annulé iff cancelled, En attente for every other status |
| ReservationsManagement.StatusColor | client/src/pages/admin/ReservationsManagement.jsx:152 | the chip's colour follows the label: success, error, warning |
| ReservationsManagement.RowActions | client/src/pages/admin/ReservationsManagement.jsx:168-188 | confirm and cancel are offered iff the status is pending; managing a modification is offered iff the modification status is pending |
| ReservationsManagement.RequestShownWithItsAction | client/src/pages/admin/ReservationsManagement.jsx:142-146 | the requested dates are shown exactly on the rows that offer to manage them |
| ReservationsManagement.ActionStatus | client/src/pages/admin/ReservationsManagement.jsx:171-176 | confirm sends confirmed and cancel sends cancelled |
| ReservationsManagement.ActionsSendValidStatuses | client/src/pages/admin/ReservationsManagement.jsx:171-176 | both statuses the page sends pass the server's status schema and denote different ENUM values |
| ReservationsManagement.Page.constructor | client/src/pages/admin/ReservationsManagement.jsx:37-39 | the page starts with no rows and no open dialog |
| ReservationsManagement.Page.OpenModificationDialog | client/src/pages/admin/ReservationsManagement.jsx:182-188 | the dialog opens on the row whose button was pressed |
| ReservationsManagement.Page.HandleStatusUpdate | client/src/pages/admin/ReservationsManagement.jsx:56-63 | the status is sent; success reloads the list, and failure alerts and keeps it |
| ReservationsManagement.Page.HandleModificationDecision | client/src/pages/admin/ReservationsManagement.jsx:65-85 | with no open dialog nothing is sent and nothing changes; otherwise the decision on the dialog's row is sent, success reloads the list and closes the dialog, and failure alerts and leaves it open |
| PropertyForm.SetField | client/src/components/admin/PropertyForm.jsx:43-46 | the spread adds at most one field; its meaning is stated by the three lemmas below |
| PropertyForm.SetFieldSets | client/src/components/admin/PropertyForm.jsx:43-46 | after the spread the named field holds the new value |
| PropertyForm.SetFieldNames | client/src/components/admin/PropertyForm.jsx:43-46 | the field names keep their order; a name the form had stays in place and a new one is appended |
| PropertyForm.SetFieldKeepsOthers | client/src/components/admin/PropertyForm.jsx:43-46 | every other field keeps its value |
| PropertyForm.InitialFields | client/src/components/admin/PropertyForm.jsx:22-34 | the initial field state, each field `\|\|` its default; InitialFieldsDefaults states its names and defaults |
| PropertyForm.InitialFieldsDefaults | client/src/components/admin/PropertyForm.jsx:22-34 | the form has its eleven fields in order; type, status and the checkboxes fall back to Apartment, available and off |
| PropertyForm.NewPropertyDefaults | client/src/components/admin/PropertyForm.jsx:22-34 | a new property's form has type Apartment, status available, both checkboxes off and an empty title |
| PropertyForm.Blobs | client/src/components/admin/PropertyForm.jsx:53 | one blob preview per new file, in order |
| PropertyForm.Existings | client/src/components/admin/PropertyForm.jsx:36 | one preview per stored image URL, in order |
| PropertyForm.RemoveAt | client/src/components/admin/PropertyForm.jsx:59 | the element at the index is dropped and the others keep their order; an index out of range drops nothing |
| PropertyForm.SyncedLengths | client/src/components/admin/PropertyForm.jsx:36 | while in step, there are as many previews as stored images plus new files |
| PropertyForm.RemoveAsWritten | client/src/components/admin/PropertyForm.jsx:58-81 | removal drops the preview at the index, and drops the new file at `index - initialCount` only when the index is at least the initial image count |
| PropertyForm.RemovingNewImageKeepsSync | client/src/components/admin/PropertyForm.jsx:77-80 | removing a new image keeps previews and files in step |
| PropertyForm.RemovingStoredImageDesyncs | client/src/components/admin/PropertyForm.jsx:58-81 | removing a stored image leaves the files alone, so the lists fall out of step with the initial count |
| PropertyForm.StaleOffsetCounterexample | client/src/components/admin/PropertyForm.jsx:77-80 | after removing a stored image, removing a new image's preview keeps its file, which is then uploaded with no preview; the corrected removal drops both |
| PropertyForm.RemoveImageTracked | client/src/components/admin/PropertyForm.jsx:58-81 | the corrected removal reads the number of stored previews off the current lists |
| PropertyForm.TrackedRemovalKeepsSync | client/src/components/admin/PropertyForm.jsx:58-81 | every corrected removal keeps the lists in step, and removes a file exactly when the preview is a new file's |
| PropertyForm.RemovalsAgreeWhileSynced | client/src/components/admin/PropertyForm.jsx:77-80 | until a stored image is removed, both removals do the same thing |
| PropertyForm.NoStoredImagesRemovalsStayInStep | client/src/App.jsx:46-47 | a form opened without stored images, as both routes open it, only ever removes new files: every removal as written is the corrected one and keeps the lists in step |
| PropertyForm.Form.constructor | client/src/components/admin/PropertyForm.jsx:21-36 | the form starts from the initial fields (from `initialData = {}` when given none), no new files and one preview per stored image, in step, and keeps `initialData.id`, absent when not given |
| PropertyForm.Form.HandleChange | client/src/components/admin/PropertyForm.jsx:41-47 | only the named field changes, to `checked` for a checkbox and to `value` otherwise |
| PropertyForm.Form.HandleFileChange | client/src/components/admin/PropertyForm.jsx:49-56 | the files are appended to `images` and their blobs to `previews` (no file, no change), keeping the lists in step |
| PropertyForm.Form.RemoveImage | client/src/components/admin/PropertyForm.jsx:58-81 | the new state is RemoveAsWritten of the old one |
| PropertyForm.Form.BuildFormData | client/src/components/admin/PropertyForm.jsx:87-89 | one text entry per field in field order, checkboxes as "true"/"false", then one 'images' entry per new file in order |
| PropertyForm.Form.HandleSubmit | client/src/components/admin/PropertyForm.jsx:83-105 | the body (every field as a text entry in the form's key order, then one `images` entry per new file in order) goes to the update of `initialData.id` when editing, which is `undefined` (None) for a form given no initial data, and to creation otherwise |
| RegisterForm.CriteriaMet | client/src/pages/auth/Register.jsx:54-57 | at most four criteria are met |
| RegisterForm.CalculatePasswordStrength | client/src/pages/auth/Register.jsx:52-59 | the score is 25 × the number of criteria met (length ≥ 8, an uppercase letter, a digit, a non-alphanumeric character), hence one of 0, 25, 50, 75, 100 |
| RegisterForm.GetStrengthColor | client/src/pages/auth/Register.jsx:94-98 | error below 50, warning from 50 to below 75, success from 75 |
| RegisterForm.StrengthColorIsMonotone | client/src/pages/auth/Register.jsx:94-98 | a higher score never shows a worse colour |
| RegisterForm.FullScoreMeansAllCriteria | client/src/pages/auth/Register.jsx:52-58 | the full score is reached iff all four criteria hold |
| RegisterForm.ValidateForm | client/src/pages/auth/Register.jsx:61-74 | a password mismatch is reported first, then an age below 18 in calendar years; the form passes iff neither applies |
| RegisterForm.HandleSubmit | client/src/pages/auth/Register.jsx:76-92 | an invalid form is refused with its error and nothing is sent; a valid one sends every field except confirmPassword |
| RegisterForm.FailureMessage | client/src/pages/auth/Register.jsx:88 | the server's message when it has one, or "Une erreur est survenue"; the alert is never blank |
| Profile.PasswordRequest | client/src/pages/client/Profile.jsx:81-84 | the current password is sent as `password` and the new one as `newPassword`, with no profile field |
| Profile.PasswordCheck | client/src/pages/client/Profile.jsx:71-78 | a mismatch is reported before a too-short password; the request may go iff the two agree and have at least 8 characters |
| Profile.CheckedRequestOnServer | client/src/pages/client/Profile.jsx:81-84 | on the server, a checked request with an empty current password is refused, and one with a matching current password sets the new password's hash and nothing else |
| Profile.PasswordDialog.constructor | client/src/pages/client/Profile.jsx:38-42 | the three password fields start empty and the dialog closed |
| Profile.PasswordDialog.HandlePasswordSubmit | client/src/pages/client/Profile.jsx:70-91 | a failed check sends nothing and changes nothing; otherwise the request is sent, success empties the three fields and closes the dialog, and failure shows the server's message and keeps the state |
| UsersManagement.WithRole | client/src/pages/admin/UsersManagement.jsx:122 | exactly the users with that role are kept |
| UsersManagement.WithRoleOfConcat | client/src/pages/admin/UsersManagement.jsx:122 | the filter preserves order: filtering a concatenation concatenates the filtered parts |
| UsersManagement.FullName | client/src/pages/admin/UsersManagement.jsx:130 | first name, a space, last name, with a missing part shown empty |
| UsersManagement.EditForm | client/src/pages/admin/UsersManagement.jsx:64-71 | the edit form copies the user's fields (missing ones empty) with an empty password |
| UsersManagement.Page.constructor | client/src/pages/admin/UsersManagement.jsx:36-43 | the page starts with the 'all' filter, the dialog closed and an empty client form |
| UsersManagement.Page.HandleOpenDialog | client/src/pages/admin/UsersManagement.jsx:61-84 | the dialog opens on a copy of the user's fields, or on an empty client form when there is no user |
| UsersManagement.Page.HandleCloseDialog | client/src/pages/admin/UsersManagement.jsx:86-89 | the dialog closes and forgets its user |
| UsersManagement.Page.HandleSubmit | client/src/pages/admin/UsersManagement.jsx:91-106 | the dialog's user is updated, or a user created when there is none; success reloads and closes, and failure alerts and changes nothing |
| UsersManagement.Page.Shown | client/src/pages/admin/UsersManagement.jsx:120-122 | 'all' shows the list unchanged; any other filter shows exactly the users with that role, in listed order (WithRole); a user is shown iff listed and admitted by the filter |

## Left out

- Request authentication and authorisation are out of scope: JWT signing and verification, and role checks in routes. The caller is a parameter, and login answers with the account's fields but no token.
- Payments.CreatePayment does not model the processor's transaction id, which is only echoed back, or a processor call that throws.
- Email sending is left out, along with the notification toasts other than the messages the model returns.
- Page navigation, loading flags and data fetching on page load are left out.
- Eager loading of associated rows (`include`) in the listings is left out: each listing returns the rows of its own table.
- Invoice listing (`getAllInvoices`) is not part of this model. It only returns every invoice with its reservation and user.
- `Invoices.CreateInvoice`, `Invoices.UpdateInvoice` and `Invoices.DeleteInvoice` are modelled as written, though the invoice routes only expose the two GET endpoints. The User model (with its password hook) is not part of this model: the model takes the password to be hashed on creation and on a password change.
- `Users.CreateUser`, `Users.UpdateUser` and `Users.UpdateProfile` are modelled as written, though the user routes do not expose them. The route file also refers to an availability handler the property controller does not define. The client's modification request and decision endpoints have no server handler, so the model stops at the request the client sends.
- Invoices.CreateInvoice: the one-invoice-per-reservation association is not enforced by the store the code writes to, so the model adds an invoice without checking whether the reservation already has one.
- Reservations.CreateReservation: DATEONLY columns truncate the stored dates to a day; the model keeps the instants the request carried. The pricing uses those same instants.
- Reservations.CreateReservation does not check that the stay overlaps no other reservation, because neither does the handler.
- The registration schema (name, email, password, role) and the handler (firstName, lastName, email, password, birthDate, phoneNumber, role) disagree. The model's `Auth.Register` follows the handler, and `Schemas.ValidRegister` the schema. Validation of e-mail syntax is a parameter.
- The property schemas do not list the type Penthouse that the client's form offers. The model follows the schema; the form's select options are not modelled.
- Properties.GetProperties: the price bounds are compared as numbers. The handler passes the query text and leaves the conversion to the database, and a non-numeric bound (a database error) is not modelled.
- Properties.UpdateProperty: the handler pushes the new URLs onto the loaded array in place. Whether the ORM notices that in-place change is not modelled: the new list is written.
- Auth.Register: the `Invalid user data` branch (the create returning nothing) cannot happen with a create that succeeds, and is left out.
- `Users.FindByEmail` answers the lowest matching id for `findOne`, whose choice among several matches the database leaves open.
- Admin.TotalRevenue sums exact cents. The handler adds the `parseFloat` of each amount in floating point, so its sum can differ from the exact total by rounding; floating point is not modelled.
- A failed insert leaves the model's id counter where it was. PostgreSQL may already have drawn the next value from the sequence, so later ids can skip one; ids stay abstract here.
- An amount or price with more than two decimals is rounded by the DECIMAL(10, 2) column; the model takes amounts in whole cents and does not model that rounding.
- PropertyForm.Form.HandleSubmit: with the edit route giving no initial data, the update goes to the id `undefined`. What the server answers to that id is not modelled: `Properties.UpdateProperty` takes an integer id.
- Foreign-key actions when a property, reservation or user with dependent rows is deleted are left out: the store removes just the row.
- Users.UpdateUser does not check the new e-mail against other accounts, because neither does the handler; e-mail uniqueness is therefore not preserved by it.
- RegisterForm.CalculatePasswordStrength counts characters, not UTF-16 code units, and uses the ASCII character classes of the page's patterns.
- RegisterForm.ValidateForm takes the birth year and the current year as parameters: time zones and date parsing are left out.
- ReservationForm.CalculateTotal takes the reading of the date texts as the parameter `instant`.
- The Register and Profile pages' general field editing (`handleChange`, the phone input) and the profile form's own submission are left out. They copy the field into the state, and the server side of the profile update is `Users.UpdateProfile`.

## Findings

| source | as written | input that shows it | evidently intended | confidence | as-written member | corrected member |
|---|---|---|---|---|---|---|
| client/src/components/admin/PropertyForm.jsx:77-80 | a new file's index in `images` is taken to be `index - initialCount`, where initialCount is the number of stored images the form started with, even after a stored image's preview has been removed | give the form an `initialData` with one stored image "a", add file "f", remove preview 0 (the stored image), then remove preview 0 again (the preview of "f"): previews become empty but `images` still holds "f", which is uploaded on submit. Latent in the app as routed: both routes (client/src/App.jsx:46-47) give the form no initial data, so it has no stored images and every removal is correct (PropertyForm.NoStoredImagesRemovalsStayInStep) | removing a new image's preview removes that file, the offset being the number of stored previews still shown | high (not executed) | PropertyForm.Form.RemoveImage, PropertyForm.StaleOffsetCounterexample | PropertyForm.RemoveImageTracked, PropertyForm.TrackedRemovalKeepsSync |
