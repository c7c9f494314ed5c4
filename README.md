# Glucose monitoring: a verified model of the server handlers and the client's decision logic

The application lets a patient log blood-glucose readings and medications. The patient names an emergency contact, and that contact gets an account of their own. The contact sees an overview of every patient they monitor. An Express server stores users, readings, medications and alert settings in MongoDB through Mongoose. A React client shows the patient's dashboard, the medication forms and the contact's overview.

This Dafny project models the logic underneath both sides:

- **The contact's overview** (`getPatients`), in `patient_status.dfy`. Each monitored patient gets a three-tier status. The status comes from the patient's latest reading, compared with the patient's own `dangerousLevels` and a 10 mg/dL warning band inside each bound. One LOW_GLUCOSE or HIGH_GLUCOSE alert is derived for each patient in danger.
- **The readings table and the e-mail alert** (`glucoseController.js`), in `glucose_controller.dfy`. The alert has two tiers and no band. It compares against the thresholds of the patient's AlertSettings document. LOW wins when both bounds are crossed. A reading is stored even when the alert fails.
- **Emergency-contact provisioning** (`saveSettings`, `getSettings`), in `alert_controller.dfy`. The contact's account is found by e-mail or created. The patient is added once to its `monitoringFor`. The patient points back at the contact. The settings document is upserted.
- **The medications table** in `medication_controller.dfy`, and **registration and login** in `user_controller.dfy`.
- **The patient's dashboard** (`Dashboard.jsx`), in `dashboard.dfy`. It covers the latest reading, the chart order, and how the local lists follow add, update and delete.
- **The medication forms** (`AddMedication.jsx`, `EditMedication.jsx`), in `medication_form.dfy`. It covers toggling a day, setting a field, adding or removing a schedule, loading and resetting.
- **The route guard** (`App.jsx`), in `routes.dfy`, and the contact page's colours and error handling (`EmergencyContactDashboard.jsx`), in `emergency_dashboard.dfy`.

Shared pieces:

- `common.dfy`: `Option`, `Response`, and decimal rendering of integers.
- `domain.dfy`: the documents of the four collections, taken from the Mongoose schemas.
- `tables.dfy`: JavaScript's `filter`, "first document matching a query", and removal at a position.
- `ordering.dfy`: a stable insertion sort standing for Mongo's `.sort` and `Array.prototype.sort`; the character-code string order; the latest-reading reduction.
- `store.dfy`: the `Store` class holding the collections, which the handlers update in place.

Modelling conventions:

- An HTTP answer is `Ok(status, body)` or `Fail(status, message)`.
- ObjectIds are natural numbers drawn from the store's `nextId` counter.
- Timestamps and glucose levels are integers.
- Things the model cannot see become parameters:
  - a bcrypt hash is a string parameter;
  - `bcrypt.compare` is a function parameter;
  - a JWT is the payload it carries (`Claims`);
  - `generateRandomPassword()` is a string parameter;
  - `Date.now()` is an integer parameter;
  - the mail relay's verdict is the boolean `delivered`.

The model follows the code where its behaviour may surprise:

- An update body is passed to `findOneAndUpdate` whole, with no validators. So an update may change a reading's `timestamp`.
- A failed alert mail is only logged. The answer is still 201 with the stored reading.
- The contact's overview classifies against the User's `dangerousLevels`, while the mail alert uses the AlertSettings thresholds. `saveSettings` never writes `dangerousLevels`, so the two can disagree.
- The register token carries only the user id, while the login token also carries `userType`. A freshly registered user's token is therefore refused by `addReading` (403) until the user logs in.
- A user with a token but no known role (no `userType` stored in the browser, or a third value) is sent from /dashboard to /dashboard by the route guard, and nothing is ever shown there (`Routes.UnknownRoleRedirectsToItself`, App.jsx:21-23).

## Model

All source paths are relative to the repository root. Server files are under `cp-local/server/backend/`, client files under `cp-local/CP-client/src/`.

| member | source | states |
|---|---|---|
| PatientStatus.Classify | cp-local/server/backend/controllers/emergencyContactController.js:19-28 | No reading gives normal. Danger holds exactly when the level is at or below the low bound or at or above the high bound. Warning holds exactly when the level is strictly inside both bounds and within 10 of one of them. |
| PatientStatus.DefaultNormalRange | cp-local/server/backend/controllers/emergencyContactController.js:19-28 | With the schema's default levels 70/180, a reading is normal exactly for levels 81 to 169. |
| PatientStatus.LatestReadingOf | cp-local/server/backend/controllers/emergencyContactController.js:16-17 | None exactly when the patient has no reading. Otherwise the result is one of that patient's readings, and no reading of theirs is later. |
| PatientStatus.SummariesOnePerId | cp-local/server/backend/controllers/emergencyContactController.js:15-41 | When every monitored id names a user, there is exactly one summary per id, in the same order. Each summary carries that patient's own `dangerousLevels` and the status of that patient's latest reading. |
| PatientStatus.NoReadingsIsNormal | cp-local/server/backend/controllers/emergencyContactController.js:19-38 | A patient without readings is normal, with no last reading. |
| PatientStatus.ExpectedAlertsSnoc | cp-local/server/backend/controllers/emergencyContactController.js:44-56 | Adding a patient at the end adds its alert at the end exactly when it is alerting. |
| PatientStatus.DeriveAlerts | cp-local/server/backend/controllers/emergencyContactController.js:44-56 | The loop yields the alerts of exactly the alerting patients, in patient order. |
| PatientStatus.AlertsFollowPatients | cp-local/server/backend/controllers/emergencyContactController.js:44-46 | Every patient in danger with a reading has its alert in the list, and every alert comes from such a patient. |
| PatientStatus.AlertTypeMatchesBound | cp-local/server/backend/controllers/emergencyContactController.js:50-53 | An alert is LOW_GLUCOSE exactly when the latest level is at or below the low bound; a HIGH_GLUCOSE alert's level is at or above the high bound. The alert's timestamp is the reading's own. |
| PatientStatus.GetPatients | cp-local/server/backend/controllers/emergencyContactController.js:7-61 | A caller that is not a stored emergency-contact user gets 403 and no data. Any other caller gets the per-patient summaries of its populated `monitoringFor` and the alerts derived from them. |
| GlucoseController.FiringCondition | cp-local/server/backend/controllers/glucoseController.js:37-41 | The rule fires exactly when the level is at or below the low threshold or at or above the high one. LOW is reported exactly when the level is at or below the low threshold, even if it is also high. |
| GlucoseController.DefaultFiringExamples | cp-local/server/backend/controllers/glucoseController.js:37-41 | With thresholds 70/180, levels 70 and 65 fire LOW, 75 does not fire, and 180 and 185 fire HIGH. |
| GlucoseController.AlertMail | cp-local/server/backend/controllers/glucoseController.js:43-59 | The mail goes to the contact's address. Its subject names the condition. Its body contains the level and the low-high window. |
| GlucoseController.CheckAndSendAlert | cp-local/server/backend/controllers/glucoseController.js:26-71 | Nothing is sent without settings, a contact, or a non-empty contact e-mail. An in-range level sends nothing. Otherwise the mail handed to the relay is the alert mail for the firing condition: to the contact, naming the condition, with the level and the low-high window. A refused mail is told apart from a delivered one. |
| GlucoseController.GetReadings | cp-local/server/backend/controllers/glucoseController.js:74-83 | The result is a permutation of exactly the caller's readings, newest first. |
| GlucoseController.AddReading | cp-local/server/backend/controllers/glucoseController.js:86-130 | A non-patient token gets 403 and the table is unchanged. A missing level or meal status gets 500 and the table is unchanged. Otherwise the reading, owned by the caller and stamped `now`, is appended and answered with 201, whatever the alert check ends in. |
| GlucoseController.Patched | cp-local/server/backend/controllers/glucoseController.js:135-139 | An update keeps the reading's id and owner. Each of level, timestamp, meal status and notes takes the body's value when the body carries it, and keeps the stored one otherwise. |
| GlucoseController.UpdateReading | cp-local/server/backend/controllers/glucoseController.js:133-148 | With no reading matching both id and owner, the answer is 404 and nothing changes. Otherwise only the matching reading is patched and answered; every other position is unchanged. |
| GlucoseController.DeleteReading | cp-local/server/backend/controllers/glucoseController.js:151-165 | The answer is 404 with nothing changed exactly when no reading matches both id and owner. Otherwise exactly the matching reading is removed, the rest keep their order, and the table shrinks by one. |
| AlertController.AddOnce | cp-local/server/backend/controllers/alertController.js:86-89 | The patient is in the list afterwards. Members are the old ones plus the patient, the old list is a prefix, and a list without repeats stays without repeats. |
| AlertController.NewContact | cp-local/server/backend/controllers/alertController.js:51-57 | A new account has the submitted e-mail and name, the emergency-contact role, and monitors exactly this patient. |
| AlertController.Provision | cp-local/server/backend/controllers/alertController.js:38-90 | It fails exactly when no account has the e-mail and the new account would have an empty e-mail or name. Otherwise the resulting account has the e-mail, and it was created exactly when none existed. |
| AlertController.LinkPatient | cp-local/server/backend/controllers/alertController.js:93-95 | Only the patient's `emergencyContactId` changes. A missing patient changes nothing. |
| AlertController.SettingsRecord | cp-local/server/backend/controllers/alertController.js:98-109 | The document is keyed by the patient and holds the submitted contact with the account id. Its thresholds are the submitted ones; without them, the stored ones on update or 70/180 on insert. |
| AlertController.SaveSettingsSpec | cp-local/server/backend/controllers/alertController.js:31-119 | A save fails exactly when the body has no contact, or a new account would fail validation. A successful save stores its answered record as the patient's settings document. |
| AlertController.CredentialsMail | cp-local/server/backend/controllers/alertController.js:62-79 | The credentials mail goes to the contact, with the fixed subject, and its body contains the e-mail and the temporary password. |
| AlertController.ProvisionContact | cp-local/server/backend/controllers/alertController.js:38-90 | The find-or-create step on the store does exactly what `Provision` describes, and the id counter advances only when an account is created. |
| AlertController.Persist | cp-local/server/backend/controllers/alertController.js:38-109 | The three writes leave the users, the settings and the counter as `SaveSettingsSpec` says, and keep the store well formed. |
| AlertController.SaveSettings | cp-local/server/backend/controllers/alertController.js:31-119 | A failing save answers 500 and writes nothing. A successful one answers 200 with the stored record. Only a newly created account is mailed its credentials, and a refused mail changes neither the answer nor the documents. |
| AlertController.GetSettings | cp-local/server/backend/controllers/alertController.js:121-125 | The answer is 200 with the caller's own settings document, or the empty answer when there is none. |
| AlertController.SaveKeepsValid | cp-local/server/backend/controllers/alertController.js:38-109 | A save keeps the users collection well formed: ids, unique e-mails, required fields, and no repeats in any monitoring list. |
| AlertController.ProvisionKeepsValid | cp-local/server/backend/controllers/alertController.js:38-90 | The find-or-create step keeps the users collection well formed. |
| AlertController.LinkKeepsValid | cp-local/server/backend/controllers/alertController.js:93-95 | The back-reference keeps the users collection well formed. |
| AlertController.SaveCreatesOneContact | cp-local/server/backend/controllers/alertController.js:38-59 | With no account for the e-mail, exactly one user is added. It has the submitted e-mail and name, the emergency-contact role, and monitors only this patient. |
| AlertController.SaveReusesContact | cp-local/server/backend/controllers/alertController.js:84-90 | With an existing account, no user is added. The patient is appended only if absent, the earlier entries keep their order, nothing repeats, and the account's role is unchanged. |
| AlertController.SaveLinksPatient | cp-local/server/backend/controllers/alertController.js:93-95 | The patient's `emergencyContactId` is the contact's account. The patient's `dangerousLevels` are unchanged, and so is every user other than the patient and the contact. |
| AlertController.SaveUpsertsSettings | cp-local/server/backend/controllers/alertController.js:98-109 | Afterwards the patient has exactly one settings document. It holds the submitted thresholds and the contact's account id, and other patients' documents are untouched. |
| AlertController.SaveIdempotent | cp-local/server/backend/controllers/alertController.js:45-109 | Saving the same body a second time creates nothing and leaves users, settings and the answered record as after one save. |
| AlertController.ProvisionMonitors | cp-local/server/backend/controllers/alertController.js:56 | After the find-or-create step, the contact's account monitors the patient. |
| AlertController.ProvisionAgain | cp-local/server/backend/controllers/alertController.js:86-89 | Finding an account that already monitors the patient writes nothing. |
| AlertController.LinkAgain | cp-local/server/backend/controllers/alertController.js:93-95 | Pointing the patient at the account it already points at writes nothing. |
| AlertController.SharedContact | cp-local/server/backend/controllers/alertController.js:38-90 | Two patients naming the same new address share one account, which monitors both in the order they saved. |
| AlertController.SaveThenGet | cp-local/server/backend/controllers/alertController.js:98-125 | `getSettings` after a save answers the document just saved, with the submitted thresholds. |
| MedicationController.GetMedications | cp-local/server/backend/controllers/medicationController.js:4-13 | The result is a permutation of exactly the caller's medications, sorted by name in character-code order. |
| MedicationController.ProjectSchedules | cp-local/server/backend/controllers/medicationController.js:24-28 | Each schedule keeps its time, dosage and days, in the original order. |
| MedicationController.AddMedication | cp-local/server/backend/controllers/medicationController.js:16-39 | A body without a schedules array, or one that fails the schema's required fields, gets 500 and nothing is stored. Otherwise a medication owned by the caller, with the projected schedules and active by default, is appended and answered with 201. |
| MedicationController.PatchedMedication | cp-local/server/backend/controllers/medicationController.js:44-48 | An update keeps id and owner. Each of name, type, schedules, notes and active takes the body's value when the body carries it, and keeps the stored one otherwise. |
| MedicationController.UpdateMedication | cp-local/server/backend/controllers/medicationController.js:42-57 | With no medication matching both id and owner, the answer is 404 and nothing changes. Otherwise only the match is patched and answered. |
| MedicationController.DeleteMedication | cp-local/server/backend/controllers/medicationController.js:60-74 | The answer is 404 with nothing changed exactly when no medication matches both id and owner. Otherwise exactly the match is removed and the rest keep their order. |
| UserController.NewPatient | cp-local/server/backend/controllers/userController.js:20-24 | A registered user has the e-mail, name and hash, the patient role, no contacts and the default levels. |
| UserController.RegisterSpec | cp-local/server/backend/controllers/userController.js:4-39 | Registration succeeds exactly when the e-mail is unused and the e-mail and name are non-empty. A failed registration writes nothing. |
| UserController.Register | cp-local/server/backend/controllers/userController.js:4-39 | The handler changes the users collection and answers exactly as `RegisterSpec` says, and keeps the store well formed. |
| UserController.LoadedRole | cp-local/server/backend/models/User.js:17-21 | The role of a loaded user is the stored one, or the schema default patient when the document lacks it. |
| UserController.LoginSpec | cp-local/server/backend/controllers/userController.js:42-81 | An unknown e-mail and a wrong password both give 400 "Invalid credentials". Otherwise the token names the user and the role of the loaded document (the schema default patient when none is stored), and the answered role is the same. |
| UserController.Login | cp-local/server/backend/controllers/userController.js:42-81 | The handler answers exactly as `LoginSpec` says. |
| UserController.LoginWithoutStoredRole | cp-local/server/backend/controllers/userController.js:47-62 | A stored user without a role who gives the right password gets a token with the patient role, so the patient handlers accept it. |
| UserController.RegisterDuplicate | cp-local/server/backend/controllers/userController.js:10-13 | A taken e-mail gets 400 and no user is added. |
| UserController.RegisterAddsOne | cp-local/server/backend/controllers/userController.js:16-35 | A fresh e-mail adds exactly one user, a patient with that e-mail, name and hash. The token carries only the new id, and the collection stays well formed. |
| UserController.RegisterThenLogin | cp-local/server/backend/controllers/userController.js:29-76 | Logging in right after registering gives a token that now carries the patient role. |
| Store.UserWithEmail | cp-local/server/backend/models/User.js:4-8 | The user found has the e-mail; none is found exactly when no user has it. |
| Store.UserWithEmailUnique | cp-local/server/backend/models/User.js:4-8 | Under the unique index, the user found is the only one with that e-mail. |
| Store.SettingsOf | cp-local/server/backend/controllers/glucoseController.js:29 | A patient's settings are found exactly when the patient has a document, and it is that document. |
| Store.Store.FindUserByEmail | cp-local/server/backend/controllers/userController.js:10 | The lookup on the store finds exactly the user `UserWithEmail` describes. |
| Ordering.SortBySorted | cp-local/server/backend/controllers/medicationController.js:6-7 | Sorting by a total preorder gives a sorted sequence; the sort itself is a permutation. |
| Ordering.LatestIndex | cp-local/CP-client/src/components/Dashboard.jsx:103-108 | The reduction picks an element with the largest timestamp, and no earlier element has that timestamp. |
| Dashboard.DashboardState.LatestReading | cp-local/CP-client/src/components/Dashboard.jsx:103-108 | The result is null exactly for no readings. Otherwise it is a reading with the largest timestamp, the first such in the list. |
| Dashboard.DashboardState.ChartData | cp-local/CP-client/src/components/Dashboard.jsx:95-101 | The state's readings are reordered in place, oldest first, as a permutation. There is one chart point per reading, in that order. |
| Dashboard.DashboardState.ListOrder | cp-local/CP-client/src/components/Dashboard.jsx:489-490 | The state's readings are reordered in place, newest first, as a permutation. |
| Dashboard.DashboardState.HandleAddReading | cp-local/CP-client/src/components/Dashboard.jsx:86-88 | The new reading is appended at the end. |
| Dashboard.DashboardState.HandleAddMedication | cp-local/CP-client/src/components/Dashboard.jsx:90-92 | The new medication is appended at the end. |
| Dashboard.DashboardState.HandleUpdateReading | cp-local/CP-client/src/components/Dashboard.jsx:117-123 | Readings with the answered id are replaced by the answer; the medications are untouched. |
| Dashboard.DashboardState.HandleUpdateMedication | cp-local/CP-client/src/components/Dashboard.jsx:144-150 | Medications with the answered id are replaced by the answer; the readings are untouched. |
| Dashboard.DashboardState.HandleDeleteReading | cp-local/CP-client/src/components/Dashboard.jsx:125-137 | The readings with that id are dropped, and only after confirmation and a successful request. |
| Dashboard.DashboardState.HandleDeleteMedication | cp-local/CP-client/src/components/Dashboard.jsx:152-164 | The medications with that id are dropped, and only after confirmation and a successful request. |
| Dashboard.Replaced | cp-local/CP-client/src/components/Dashboard.jsx:118-120 | Same length. Each position holds the answer if its id matches, else its old element. |
| Dashboard.ReplacedKeepsIds | cp-local/CP-client/src/components/Dashboard.jsx:118-120 | Replacing keeps every position's id, and applying the same answer twice is applying it once. |
| Dashboard.ReplacedAbsent | cp-local/CP-client/src/components/Dashboard.jsx:145-147 | An answer for an id the list does not hold changes nothing. |
| Dashboard.AddThenDelete | cp-local/CP-client/src/components/Dashboard.jsx:86-131 | Deleting a just-added element with a fresh id gives back the list before the add. |
| Dashboard.DeleteKeepsOthers | cp-local/CP-client/src/components/Dashboard.jsx:131 | An element survives a delete exactly when its id differs, and it survives as often as it occurred. |
| MedicationForm.ToggleDay | cp-local/CP-client/src/components/AddMedication.jsx:59-67 | After a click, the day is present exactly when it was absent before. An absent day is appended at the end; a present day is removed, every occurrence of it, and the other days keep their order. |
| MedicationForm.ToggleDayOthers | cp-local/CP-client/src/components/AddMedication.jsx:63-67 | Other days keep their membership. Removal drops every occurrence of the day, and keeps every other day as often as before. |
| MedicationForm.ToggleDayChanges | cp-local/CP-client/src/components/EditMedication.jsx:69-73 | A click always changes the day list. |
| MedicationForm.ToggleTwiceRestores | cp-local/CP-client/src/components/AddMedication.jsx:63-67 | Two clicks on an absent day give back the original list. |
| MedicationForm.SetField | cp-local/CP-client/src/components/AddMedication.jsx:49-52 | Only the named field takes the new value; the other field and the days are kept. |
| MedicationForm.ValuesOf | cp-local/CP-client/src/components/EditMedication.jsx:25-44 | The schedules the form's objects hold, one per object, in order. |
| MedicationForm.ClientMedication.constructor | cp-local/CP-client/src/components/Dashboard.jsx:365-377 | A medication parsed from the server's answer holds fresh schedule objects with the stored values, in order. |
| MedicationForm.RemovalKeepsFirst | cp-local/CP-client/src/components/AddMedication.jsx:196 | Removal as the form offers it (index above 0) never drops the first schedule. |
| MedicationForm.MedicationForm.constructor | cp-local/CP-client/src/components/AddMedication.jsx:28-38 | The form starts blank: empty name, type and notes, one blank schedule, no error. |
| MedicationForm.MedicationForm.Reset | cp-local/CP-client/src/components/EditMedication.jsx:118-127 | Cancel, like the reset after a successful add, leaves the form blank with no error. |
| MedicationForm.MedicationForm.LoadFrom | cp-local/CP-client/src/components/EditMedication.jsx:33-44 | Name and type are copied and notes default to "". An empty schedule list becomes one blank schedule, and a non-empty one is taken over object for object. |
| MedicationForm.MedicationForm.HandleScheduleChange | cp-local/CP-client/src/components/AddMedication.jsx:47-57 | Only the schedule at the index changes, and only in the named field; it is a fresh object. |
| MedicationForm.MedicationForm.HandleDayChangeAsWritten | cp-local/CP-client/src/components/EditMedication.jsx:65-79 | The day list of the schedule object at the index, shared with whoever else holds it, is toggled in place. |
| MedicationForm.MedicationForm.HandleDayChange | cp-local/CP-client/src/components/EditMedication.jsx:65-79 | Corrected handler; the code as written is `HandleDayChangeAsWritten`. Only the schedule at the index changes, to a fresh object with the toggled days; no existing object is written. |
| MedicationForm.MedicationForm.AddSchedule | cp-local/CP-client/src/components/AddMedication.jsx:75-80 | One blank schedule is appended and the rest are unchanged. |
| MedicationForm.MedicationForm.RemoveSchedule | cp-local/CP-client/src/components/EditMedication.jsx:88-94 | Exactly the schedule at the index is dropped and the others keep their order. |
| MedicationForm.CancelledToggleAsWritten | cp-local/CP-client/src/components/EditMedication.jsx:39-40 | Load, toggle a day, then cancel: the dashboard's own medication now shows a different day list. |
| MedicationForm.CancelledToggle | cp-local/CP-client/src/components/EditMedication.jsx:118-127 | The same steps with the copying handler leave the dashboard's medication as it was. |
| Routes.HomeOf | cp-local/CP-client/src/App.jsx:22 | A wrong role goes to the contact dashboard exactly for the contact role, and to the patient dashboard otherwise. |
| Routes.PrivateRoute | cp-local/CP-client/src/App.jsx:14-26 | No token sends to /login, replacing history. A token with a matching role, or no role required, shows the page. Otherwise the caller is sent to the home of its role. |
| Routes.GuardedWithoutToken | cp-local/CP-client/src/App.jsx:75-99 | Without a token both dashboards send to /login whatever the role, "/" goes to /login, and the public pages show. |
| Routes.DashboardsByRole | cp-local/CP-client/src/App.jsx:79-98 | With a token, each dashboard shows exactly for its own role. |
| Routes.KnownRoleSettles | cp-local/CP-client/src/App.jsx:14-26 | With a token and one of the two roles, either dashboard path reaches that role's dashboard after at most one redirect. |
| Routes.UnknownRoleRedirectsToItself | cp-local/CP-client/src/App.jsx:21-23 | With a token and no known role, both dashboard paths redirect to /dashboard, which redirects to itself. |
| Routes.PatientPageRedirect | cp-local/CP-client/src/components/Dashboard.jsx:79-84 | The patient page moves away exactly for the contact role, to the contact dashboard. |
| Routes.ContactPageRedirect | cp-local/CP-client/src/components/EmergencyContactDashboard.jsx:32-37 | The contact page moves away exactly for the patient role, to the patient dashboard. |
| Routes.ShownDashboardStays | cp-local/CP-client/src/App.jsx:79-98 | Once the guard shows a dashboard, that page's own role check never moves away. |
| EmergencyDashboard.StatusColor | cp-local/CP-client/src/components/EmergencyContactDashboard.jsx:59-70 | normal is success, warning is warning, danger is error, and anything else is default. |
| EmergencyDashboard.StatusColorsDistinct | cp-local/CP-client/src/components/EmergencyContactDashboard.jsx:59-70 | Each status the server produces gets its own colour, never the default. |
| EmergencyDashboard.AlertSeverity | cp-local/CP-client/src/components/EmergencyContactDashboard.jsx:143 | Severity is error exactly for HIGH_GLUCOSE, and warning otherwise. |
| EmergencyDashboard.SeverityOfAlertTypes | cp-local/CP-client/src/components/EmergencyContactDashboard.jsx:143 | A high alert shows as an error and a low one as a warning. |
| EmergencyDashboard.AlertsPanelOf | cp-local/CP-client/src/components/EmergencyContactDashboard.jsx:134-137 | The all-clear shows exactly for an empty alert list; otherwise every alert is listed. |
| EmergencyDashboard.AllClearIffNoneAlerting | cp-local/CP-client/src/components/EmergencyContactDashboard.jsx:134-137 | The all-clear shows exactly when no monitored patient is in danger with a reading. |
| EmergencyDashboard.ContactPage.FetchPatientsData | cp-local/CP-client/src/components/EmergencyContactDashboard.jsx:39-57 | Success stores the patients and alerts. A 401 navigates to /login, and any other failure keeps the page. Loading ends in every case. |

## Left out

- Network and mail transport (nodemailer's transporter, `verify`, `sendMail`) are not modelled. The relay's verdict is the parameter `delivered`.
- bcrypt salting, hashing and comparison, JWT signing and expiry, and the `Math.random` temporary password are not modelled. They are parameters, so a wrong or expired token is not modelled.
- Express wiring and the Mongoose connection are not modelled. A handler receives the decoded token payload directly.
- Concurrency is not modelled. `Promise.all` in `getPatients` is modelled as a sequential map, which keeps its order. The check-then-push race on `monitoringFor` is not modelled: each request is one step.
- Partial writes are not modelled. `saveSettings` writes sequentially without a transaction, but the model only fails before any write (missing contact, validation of a new account). A store error between writes is not modelled.
- Store errors are not modelled. The generic 500 answers that follow a database or driver failure (`Server error`, `Error fetching patient data`, `Error fetching alert settings`) are left out. The 500s modelled are those for a missing or invalid field of a well-typed request: a missing reading level or meal status, a medication failing the schema's required fields or without a schedules array, a new contact account failing validation, a missing contact in `saveSettings`, an empty e-mail or name at registration.
- Ill-typed request values are not modelled. A `:id` that is not an ObjectId makes Mongoose's cast throw in update and delete of readings and medications, and the answer is 500 "Server error", not 404. A `level` that is not a number fails the cast and `addReading` answers 500. In the model ids are natural numbers and levels integers, so these answers cannot occur; the 404 answers of the update and delete handlers are for well-typed ids only.
- Password hashes are not constrained. `passwordHash` stands for bcrypt's output, which is never empty, so Mongoose's `required` check on `password` (User.js:9-12) can never fail in `register` or when a contact account is created, and the model does not check it.
- Date handling is not modelled. Timestamps are integers, `toLocaleDateString` labels are left as the timestamp, and `Date.now()` is a parameter. `getPatients` reads `Date.now()` once per alert id; `PatientStatus.DeriveAlerts` stamps every alert id of one request with the same `now`.
- Enum values outside the schema are not modelled. A `mealStatus` or day outside its enum cannot be written in the model, so Mongoose's enum rejection is not modelled. A missing `mealStatus` is.
- Body fields outside the model are not modelled. An update body carrying `userId` or `_id` is not modelled: patches cover the document's own fields only. Extra fields inside a submitted schedule are dropped by the projection of `addMedication`, and the model has no such fields.
- Missing-body failures are only partly modelled. A missing `password` in `register` (bcrypt throws, 500) is not modelled, nor is a missing `password` in `login` for a known e-mail (`bcrypt.compare` rejects and the catch answers 500 "Server error"); in the model a password is always a string. A missing contact in `saveSettings` is.
- The React UI is not modelled: rendering, styling, dialogs, axios calls, `localStorage` and polling. AddGlucoseReading, EditGlucoseReading, AlertSettings, Login and Register are form-to-HTTP wrappers with no logic beyond copying fields. GenerateReport is PDF layout with floating-point averages.
- Out-of-range schedule indices are not modelled. The form's `HandleScheduleChange` and `HandleDayChange` require an index within the list. The UI only calls them for rendered rows, so an out-of-range index is not modelled.
- `Dashboard.DashboardState.ChartData` and `ListOrder`: the browser's sort is taken to be stable, which ECMAScript has required since 2019. The comparator's order among equal timestamps is that of a stable sort.
- `PatientStatus.LatestReadingOf`: among readings with the same largest timestamp the model picks the first stored one. Mongo does not promise which one `findOne().sort()` returns. The contract states only "a reading with the largest timestamp".

## Findings

| source | as written | input that shows it | evidently intended | confidence | as-written member | corrected member |
|---|---|---|---|---|---|---|
| cp-local/CP-client/src/components/EditMedication.jsx:39-40, 65-73 | The edit form takes over `medication.schedules` by reference. `handleDayChange` copies only the array, then assigns the new day list into the shared schedule object (lines 70 and 72). | Open Edit on a medication whose first schedule has days [Monday]. Click Tuesday, then Cancel. The dashboard's own medication (rendered at Dashboard.jsx:377) now lists [Monday, Tuesday], and reopening the form shows it too. | A cancelled edit leaves the dashboard's medication unchanged, as `handleScheduleChange` already ensures by replacing the object. | not executed | MedicationForm.CancelledToggleAsWritten | MedicationForm.CancelledToggle |
