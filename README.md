# health-connect-exchange in Dafny

A model of the telehealth web app health-connect-exchange. Patients book
doctors and pay from a wallet. Doctors consult over video or chat and issue
prescriptions. An administrator verifies doctors.

Its core is the browser-side record store `src/services/database.ts`. It keeps
ten tables of records, one per localStorage key, and this model holds it as
the class `Database.Store`. The other modelled parts sit on top of it:

- the authentication service `src/services/auth.ts` and the hook `src/hooks/useAuth.tsx`;
- the booking page `src/pages/BookDoctorPage.tsx`;
- the components in the core. The prescription form, chat and video call
  read from the store or write to it. The doctor dashboard shows built-in
  sample consultations. The wallet card, bank form, wallet history,
  consultation card and consultation details work only on the values they
  are given.

Modules:

- `Wrappers`: `Option`.
- `Seqs`: filter, find, look-up by key, stable sort, sums and counts, and
  their lemmas. The store and every page are written with these.
- `Records`: the record types. They also hold the `Partial<>` update
  objects and the `{...old, ...updates}` merge.
- `Database`: the class `Store`, with one method per write of the store.
  Its getters and its analytics are pure functions.
- `Analytics`: the four admin statistics.
- `Auth`, `UseAuth`: the signed-in user, the session slot and the wallet balance.
- `BookDoctor`, `PrescriptionForm`, `ChatInterface`, `VideoConsultation`,
  `WalletCard`, `BankDetailsForm`, `WalletHistory`, `DoctorDashboard`,
  `ConsultationCard`, `ConsultationDetails`: one module per page or component.
  Each component's state is a class whose methods are its event handlers.

Generated ids are a `newId` argument. The caller promises it is not already a
key of that table. Clock readings and formatted dates are arguments too.
`parseFloat` results are a `JsNumber`: NaN, `Infinity`, `-Infinity` or a
finite real.

## Model

| member | source | states |
|---|---|---|
| Database.Store.constructor | src/services/database.ts:134-137 | the store starts from whatever the ten keys hold (each read defaults to an empty table) |
| Database.Store.RegisterUser | src/services/database.ts:423-430 | the user is appended under the fresh id; nothing else changes |
| Database.LoginMatch | src/services/database.ts:417-421 | the FIRST stored user matching both e-mail and password; absent exactly when no stored user matches both |
| Database.UserByEmail | src/services/database.ts:438-442 | the FIRST stored user with that e-mail; absent exactly when no user has it |
| Seqs.GetByKey | src/services/database.ts:451-455 | the look-up by id behind every getById: the record at the first index with that key, and absent exactly when no record has it |
| Database.Store.CreateDoctor | src/services/database.ts:457-464 | the doctor is appended with the fresh id |
| Database.Store.UpdateDoctor | src/services/database.ts:466-475 | for an unknown id, null and no change; otherwise the first record with that id is replaced by the merge of the update over it, and that record is returned |
| Database.Store.DeleteDoctor | src/services/database.ts:477-482 | every doctor with that id is removed and the rest keep their order; the result is true exactly when one existed |
| Database.DoctorsByStatus | src/services/database.ts:484-502 | exactly the stored doctors with that status (pending verifications are the pending case) |
| Database.Store.UploadLicenseDocument | src/services/database.ts:489-497 | only the licence document of the first doctor with that id changes, and the updated doctor is returned; an unknown id gives null and no change |
| Database.Store.UpdateVerificationStatus | src/services/database.ts:504-512 | the doctor's status becomes approved or rejected; an unknown id changes nothing |
| Database.Store.CreatePatient | src/services/database.ts:527-534 | the patient is appended with the fresh id |
| Database.Store.UpdatePatient | src/services/database.ts:536-545 | merge into the first patient with that id, or null and no change |
| Database.Store.DeletePatient | src/services/database.ts:547-552 | the patients with that id are removed; true exactly when one existed |
| Database.Store.CreateConsultation | src/services/database.ts:567-582 | the consultation is appended with the fresh id and the room `room_` plus the first segment of a second UUID |
| Database.RoomIdFrom | src/services/database.ts:567-582 | the room id starts with `room_`, and the rest is the UUID up to its first '-' |
| Database.FirstSegment | src/services/database.ts:567-582 | `split('-')[0]`: a prefix with no '-', followed by a '-' or the end |
| Database.CreatedConsultationIsFound | src/services/database.ts:561-582 | reading a consultation by id right after creating it returns exactly the created record |
| Database.CreateKeepsExisting | src/services/database.ts:561-582 | a create leaves every existing consultation's look-up by id unchanged |
| Database.Store.UpdateConsultation | src/services/database.ts:584-593 | merge into the first consultation with that id, or null and no change |
| Database.Store.DeleteConsultation | src/services/database.ts:595-600 | the consultations with that id are removed; true exactly when one existed |
| Database.ConsultationsByDoctor | src/services/database.ts:602-605 | exactly the consultations of that doctor |
| Database.ConsultationsByPatient | src/services/database.ts:607-610 | exactly the consultations of that patient |
| Database.ConsultationsByStatus | src/services/database.ts:612-615 | exactly the consultations with that status |
| Database.DoctorConsultations | src/services/database.ts:617-623 | exactly the doctor's consultations, narrowed to one status when a status is given |
| Database.Store.UpdateStatus | src/services/database.ts:625-633 | only the status of the first consultation with that id changes; an unknown id gives null |
| Database.Store.UpdatePrice | src/services/database.ts:635-643 | only the price of the first consultation with that id changes; an unknown id gives null and no change |
| Records.MergeOneField | src/services/database.ts:584-593 | an update object with a single field changes that field and nothing else |
| Database.Store.CreatePrescription | src/services/database.ts:658-665 | the prescription is appended with the fresh id |
| Database.Store.UpdatePrescription | src/services/database.ts:667-676 | merge into the first prescription with that id, or null and no change |
| Database.Store.DeletePrescription | src/services/database.ts:678-683 | the prescriptions with that id are removed; true exactly when one existed |
| Database.PrescriptionsByPatient | src/services/database.ts:685-688 | exactly the patient's prescriptions |
| Database.PrescriptionOf | src/services/database.ts:690-694 | the FIRST stored prescription of that consultation; absent exactly when the consultation has none |
| Database.Store.CreateMessage | src/services/database.ts:709-716 | the message is appended with the fresh id |
| Database.Store.UpdateMessage | src/services/database.ts:718-727 | merge into the first message with that id, or null and no change |
| Database.Store.DeleteMessage | src/services/database.ts:729-734 | the messages with that id are removed; true exactly when one existed |
| Database.ConsultationMessages | src/services/database.ts:736-740 | the consultation's messages, each as often as stored (same multiset as the filter), in ascending timestamp order |
| Database.ConsultationMessagesStable | src/services/database.ts:736-740 | messages with equal timestamps keep their stored order, because the sort is stable |
| Database.Store.MarkAsRead | src/services/database.ts:742-750 | the first message with that id becomes read and nothing else changes; the result is false, with no change, when there is none |
| Database.UnreadCount | src/services/database.ts:752-755 | at most the number of messages; zero exactly when every message is the user's own or already read |
| Database.MarkedRead | src/services/database.ts:742-750 | only entry i changes, and only its read flag |
| Database.MarkReadLowersUnread | src/services/database.ts:742-755 | marking a message read lowers the user's unread count by one exactly when it was unread and from someone else, and keeps it otherwise |
| Database.Store.CreateTransaction | src/services/database.ts:770-777 | the transaction is appended with the fresh id |
| Database.TransactionsByPatient | src/services/database.ts:779-782 | exactly the transactions carrying that patient id |
| Database.TransactionsByDoctor | src/services/database.ts:784-787 | exactly the transactions carrying that doctor id; one without a doctor id matches no doctor |
| Database.Store.AddFunds | src/services/database.ts:789-797 | one credit of the amount is appended for the patient, with the fixed description |
| Database.Store.PayForConsultation | src/services/database.ts:799-809 | one debit is appended, linked to the patient, the consultation and the doctor id if one is given, described as a payment to the doctor |
| Database.Store.CreateHealthMetric | src/services/database.ts:823-830 | the metric is appended with the fresh id |
| Database.Store.UpdateHealthMetric | src/services/database.ts:832-841 | merge into the first metric with that id, or null and no change |
| Database.Store.DeleteHealthMetric | src/services/database.ts:843-848 | the metrics with that id are removed; true exactly when one existed |
| Database.MetricsByPatient | src/services/database.ts:850-853 | exactly the patient's metrics |
| Database.MetricsByType | src/services/database.ts:855-860 | the patient's metrics of that type, each as often as stored (same multiset as the filter), oldest first |
| Database.ProfileOf | src/services/database.ts:865-868 | the FIRST stored profile whose user id matches (looked up by user, not by record id); absent exactly when there is none |
| Database.Store.CreateUserProfile | src/services/database.ts:870-877 | the profile is appended with the fresh id |
| Database.Store.UpdateUserProfile | src/services/database.ts:879-894 | upsert by user id: an existing profile is merged in place; otherwise the update is spread over `{userId}`, given the fresh id and appended |
| Database.Store.CreatePriceNegotiation | src/services/database.ts:908-915 | the proposal is appended with the fresh id |
| Database.ConsultationNegotiations | src/services/database.ts:917-922 | the consultation's proposals, each as often as stored (same multiset as the filter), newest first |
| Database.Store.UpdatePriceNegotiation | src/services/database.ts:924-932 | the proposal's status becomes accepted or rejected; an unknown id gives null and no change |
| Analytics.GetConsultationStats | src/services/database.ts:937-947 | the total is the table size; each status field is the count of consultations with that status; the five add up to the total |
| Analytics.GetDoctorStats | src/services/database.ts:949-957 | the total is the table size; pending, approved and rejected are the counts of their statuses and add up to the total |
| Analytics.GetPatientStats | src/services/database.ts:959-966 | the total is the table size; active and inactive are the counts of their statuses and add up to the total |
| Analytics.GetTransactionStats | src/services/database.ts:968-976 | the count is the table size; the total is the sum of all amounts, the credit and debit amounts are the sums over credits and over debits, and total = credit + debit |
| Auth.Restored | src/services/auth.ts:36-45 | the user in memory wins; the session copy is used only when memory is empty |
| Auth.AuthService.constructor | src/services/auth.ts:3 | a fresh page has no user in memory and the session slot as it was |
| Auth.AuthService.Login | src/services/auth.ts:7-15 | the result is the store's login match; on a match it becomes the current user and is saved to the session, otherwise nothing changes |
| Auth.AuthService.Register | src/services/auth.ts:17-29 | a taken e-mail gives null and writes nothing; otherwise the user is stored with the fresh id and becomes current and saved |
| Auth.RegisterThenLogin | src/services/auth.ts:7-29 | after registering a new e-mail, logging in with the same credentials returns exactly the new user |
| Auth.AuthService.Logout | src/services/auth.ts:31-34 | no current user and an empty session slot |
| Auth.AuthService.GetCurrentUser | src/services/auth.ts:36-45 | the memory is restored from the session only when it is empty, and the result is the current user |
| Auth.AuthService.IsAuthenticated | src/services/auth.ts:47-49 | true exactly when a user is current once the session is consulted |
| Auth.AuthService.GetUserRole | src/services/auth.ts:51-54 | the current user's type, absent exactly when nobody is signed in |
| Auth.AuthService.GetUserTransactions | src/services/auth.ts:57-59 | the patient's transactions from the store |
| UseAuth.AuthHook.constructor | src/hooks/useAuth.tsx:6 | the hook starts with no user |
| UseAuth.AuthHook.Mount | src/hooks/useAuth.tsx:9-13 | the hook's user is what the service restores |
| UseAuth.AuthHook.Login | src/hooks/useAuth.tsx:15-19 | the hook's user is the service's answer, null on failure |
| UseAuth.AuthHook.Register | src/hooks/useAuth.tsx:21-25 | the hook's user is the newly stored user, or null when the e-mail is taken |
| UseAuth.AuthHook.Logout | src/hooks/useAuth.tsx:27-30 | afterwards nobody is authenticated and there is no role |
| UseAuth.PatientIdOf | src/hooks/useAuth.tsx:33 | present exactly for a patient user, and then it is the user's own id |
| UseAuth.DoctorIdOf | src/hooks/useAuth.tsx:36 | present exactly for a doctor user, and then it is the user's own id |
| UseAuth.IsAdmin | src/hooks/useAuth.tsx:39 | true exactly for an admin user |
| UseAuth.RolesExclusive | src/hooks/useAuth.tsx:33-39 | a user never has both a patient id and a doctor id, and an admin has neither |
| UseAuth.FoldIsCreditsMinusDebits | src/hooks/useAuth.tsx:46-53 | the reduce adds every credit and subtracts every debit, from any starting balance |
| UseAuth.WalletBalance | src/hooks/useAuth.tsx:42-54 | 0 without a patient id; otherwise the patient's credits minus their debits |
| UseAuth.PatientTransactionsAppend | src/services/database.ts:779-782 | a new transaction of the patient is the last of that patient's transactions |
| UseAuth.BalanceAfterAppend | src/hooks/useAuth.tsx:42-54 | a new credit raises the balance by exactly its amount and a new debit lowers it by exactly its amount, with no floor at zero |
| UseAuth.AuthHook.IsAuthenticated | src/hooks/useAuth.tsx:61 | signed in exactly when the hook holds a user, that is, exactly when it reports a role |
| UseAuth.AuthHook.GetWalletBalance | src/hooks/useAuth.tsx:42-54 | 0 unless the hook's user is a patient; for a patient with a non-empty id, their credits minus their debits in the store |
| UseAuth.AuthHook.UserRole | src/hooks/useAuth.tsx:62 | the user's type, absent exactly when no user is signed in |
| BookDoctor.ApprovedDoctors | src/pages/BookDoctorPage.tsx:82-96 | exactly the approved doctors |
| BookDoctor.BookingPage.constructor | src/pages/BookDoctorPage.tsx:68-79 | step 1, today's date, no time, a video call, nothing selected |
| BookDoctor.BookingPage.FetchDoctors | src/pages/BookDoctorPage.tsx:82-96 | lists the approved doctors; selects the one named in the URL only when it is among them |
| BookDoctor.BookingPage.HandleSearch | src/pages/BookDoctorPage.tsx:113-125 | accepted exactly when a date and a non-empty time are set, and then it searches at step 2; otherwise nothing changes |
| BookDoctor.BookingPage.HandleSelectDoctor | src/pages/BookDoctorPage.tsx:127-130 | the doctor is selected and the page moves to step 3 |
| BookDoctor.TotalPrice | src/pages/BookDoctorPage.tsx:155 | the patient pays the price plus one twentieth of it (5%) |
| BookDoctor.BookingRequest | src/pages/BookDoctorPage.tsx:158-171 | the new consultation is pending and unpaid, at the doctor's price, for the selected slot and type |
| BookDoctor.BookingPage.HandleConfirm | src/pages/BookDoctorPage.tsx:132-190 | missing information or an unknown patient writes nothing; otherwise one consultation marked paid and one debit of the total are appended, and the confirmation shows |
| BookDoctor.BookingPage.WriteBooking | src/pages/BookDoctorPage.tsx:173-186 | create, then pay with no doctor id, then mark paid: the tables grow by exactly that consultation and that debit |
| BookDoctor.MarkPaidAfterCreate | src/pages/BookDoctorPage.tsx:173-186 | the update after the create reaches the record just created and changes only its payment status |
| PrescriptionForm.PrescriptionFormState.constructor | src/components/PrescriptionForm.tsx:27-34 | the form starts with one blank medication and no signature |
| PrescriptionForm.MedicationsAdded | src/components/PrescriptionForm.tsx:36-44 | the old list followed by one blank entry |
| PrescriptionForm.MedicationUpdated | src/components/PrescriptionForm.tsx:46-56 | only the named field of entry `index` changes |
| PrescriptionForm.WithField | src/components/PrescriptionForm.tsx:46-56 | the field gets the value, and the other fields are kept |
| PrescriptionForm.UpdateUndoes | src/components/PrescriptionForm.tsx:46-56 | writing a field's old value back restores the list |
| PrescriptionForm.SpliceStart | src/components/PrescriptionForm.tsx:58-67 | `splice`'s start: an index in range is used as is, a negative one counts from the end, and the start is clamped |
| PrescriptionForm.MedicationRemoved | src/components/PrescriptionForm.tsx:58-67 | with one entry nothing changes; with more, the entry at an in-range index is removed and the others keep their order; an index past the end changes nothing; at least one entry stays |
| PrescriptionForm.RemoveUndoesAdd | src/components/PrescriptionForm.tsx:36-67 | removing the entry just added gives back the earlier list |
| PrescriptionForm.PrescriptionFormState.AddMedication | src/components/PrescriptionForm.tsx:36-44 | the list grows by a blank entry and never falls below one |
| PrescriptionForm.PrescriptionFormState.UpdateMedication | src/components/PrescriptionForm.tsx:46-56 | the list is the updated list |
| PrescriptionForm.PrescriptionFormState.RemoveMedication | src/components/PrescriptionForm.tsx:58-67 | the list is the removed list, still at least one entry long |
| PrescriptionForm.IssuedPrescription | src/components/PrescriptionForm.tsx:81-88 | the stored record carries the form's contents, the patient, the consultation and the issue date, with no id |
| PrescriptionForm.PrescriptionFormState.HandleSubmit | src/components/PrescriptionForm.tsx:69-100 | refused with no change while the signature is empty; otherwise the prescription is appended to the stored ones and passed on |
| ChatInterface.TrimStart | src/components/ChatInterface.tsx:46-61 | drops exactly the leading white space |
| ChatInterface.TrimEnd | src/components/ChatInterface.tsx:46-61 | drops exactly the trailing white space |
| ChatInterface.Trim | src/components/ChatInterface.tsx:46-61 | the result is the stretch of the draft that starts after its leading white space, with only white space before and after it; it is empty exactly when the draft is all white space, and otherwise it starts and ends with a non-space |
| ChatInterface.TrimmedStretch | src/components/ChatInterface.tsx:46-61 | a prefix without trailing white space of a suffix without leading white space is a stretch of the draft with only white space around it |
| ChatInterface.TrimIdempotent | src/components/ChatInterface.tsx:46-61 | trimming twice is the same as trimming once |
| ChatInterface.ChatState.constructor | src/components/ChatInterface.tsx:20-21 | an empty list and an empty draft |
| ChatInterface.ChatState.LoadMessages | src/components/ChatInterface.tsx:24-36 | the list is the consultation's messages, oldest first |
| ChatInterface.ChatState.SendMessage | src/components/ChatInterface.tsx:46-61 | sent exactly when the trimmed draft is non-empty; then one unread message with the trimmed text is stored and listed, drawn as the user's own, and the draft is cleared; otherwise nothing changes |
| ChatInterface.ChatState.IsCurrentUser | src/components/ChatInterface.tsx:93 | a message is drawn as the user's own exactly when this user sent it |
| VideoConsultation.Published | src/components/VideoConsultation.tsx:84-89 | a participant is added at the end only when their uid is not yet listed, so uids stay distinct |
| VideoConsultation.Unpublished | src/components/VideoConsultation.tsx:102 | no participant with that uid remains, and everyone else stays |
| VideoConsultation.UnpublishedKeepsUnique | src/components/VideoConsultation.tsx:102 | removal keeps uids distinct |
| VideoConsultation.PublishThenUnpublish | src/components/VideoConsultation.tsx:84-102 | publishing and then unpublishing a participant leaves the list as if they had never come |
| VideoConsultation.VideoCall.constructor | src/components/VideoConsultation.tsx:27-31 | no consultation, no channel joined, video and audio on, nobody remote |
| VideoConsultation.VideoCall.LoadConsultation | src/components/VideoConsultation.tsx:37-49 | the consultation with that id when the store has one; otherwise the old value |
| VideoConsultation.VideoCall.SetupCall | src/components/VideoConsultation.tsx:53-65 | the call joins a channel exactly when a consultation with a non-empty room is loaded, and the channel is that room; otherwise nothing changes |
| VideoConsultation.VideoCall.OnUserPublished | src/components/VideoConsultation.tsx:84-89 | the list is the published list, with uids still distinct |
| VideoConsultation.VideoCall.OnUserUnpublished | src/components/VideoConsultation.tsx:102 | the list is the unpublished list, with uids still distinct |
| VideoConsultation.VideoCall.ToggleVideo | src/components/VideoConsultation.tsx:127-130 | the flag flips, and the new value is what the video service receives |
| VideoConsultation.VideoCall.ToggleAudio | src/components/VideoConsultation.tsx:132-135 | the flag flips, and the new value is what the video service receives |
| VideoConsultation.VideoCall.EndCall | src/components/VideoConsultation.tsx:137-151 | a doctor ending a loaded consultation sets its stored status to completed and changes nothing else; a patient changes nothing |
| WalletCard.WalletCardState.constructor | src/components/WalletCard.tsx:17-18 | the dialog is closed and the field empty |
| WalletCard.WalletCardState.HandleAddFunds | src/components/WalletCard.tsx:21-40 | accepted exactly for a positive parsed amount, `Infinity` included (as for "1e400"), which is passed on unchanged while the field clears and the dialog closes; NaN, `-Infinity` or a finite amount of at most 0 changes nothing |
| BankDetailsForm.Utf16Length | src/components/BankDetailsForm.tsx:18-30 | the JavaScript length is between the number of code points and twice that |
| BankDetailsForm.Validate | src/components/BankDetailsForm.tsx:18-30 | a field is reported exactly when it breaks its rule; no errors means a positive amount (`Infinity` passes) and a routing number of at least nine units |
| BankDetailsForm.BankDetailsFormState.constructor | src/components/BankDetailsForm.tsx:40 | not submitting, and nothing submitted yet |
| BankDetailsForm.BankDetailsFormState.HandleSubmit | src/components/BankDetailsForm.tsx:53-61 | for values the schema accepted, the form is busy and holds the positive parsed amount |
| BankDetailsForm.BankDetailsFormState.FinishSubmit | src/components/BankDetailsForm.tsx:53-61 | when the delay ends the form is free again and the held positive amount is passed on |
| WalletHistory.Credits | src/components/WalletHistory.tsx:24 | exactly the credits |
| WalletHistory.Debits | src/components/WalletHistory.tsx:25 | exactly the debits |
| WalletHistory.TabsPartition | src/components/WalletHistory.tsx:24-25 | each transaction appears under exactly one tab, and both tabs keep the original order |
| WalletHistory.SignPrefix | src/components/WalletHistory.tsx:109 | credits show '+' and debits show '-' |
| DoctorDashboard.AsDoctorView | src/pages/DoctorDashboard.tsx:51-57 | the doctor column shows the patient with the specialty "Patient", and nothing else changes |
| DoctorDashboard.FormatConsultations | src/pages/DoctorDashboard.tsx:51-57 | the same records in the same order, each seen from the doctor's side |
| DoctorDashboard.FormatAppend | src/pages/DoctorDashboard.tsx:51-57 | formatting distributes over concatenation |
| DoctorDashboard.Section | src/pages/DoctorDashboard.tsx:203-222 | a section lists every consultation with its status (as many as there are), in stored order, each seen from the doctor's side |
| DoctorDashboard.SectionsDisjoint | src/pages/DoctorDashboard.tsx:203-222 | the requests section and the upcoming section share no consultation |
| ConsultationCard.StatusColor | src/components/ConsultationCard.tsx:40-53 | one colour per known status, each used for exactly that status; gray for the rest |
| ConsultationCard.Capitalize | src/components/ConsultationCard.tsx:89 | the first character is upper-cased and the rest is kept, for a first letter in ASCII |
| ConsultationCard.StatusLabel | src/components/ConsultationCard.tsx:89 | the status text with its own first letter upper-cased and the rest kept |
| ConsultationCard.TypeLine | src/components/ConsultationCard.tsx:105 | the type text with its first letter upper-cased, followed by " Consultation" |
| ConsultationCard.FooterButtons | src/components/ConsultationCard.tsx:113-160 | "View Details" comes first; the custom action shows exactly when both label and handler are given; each default shows exactly when there is no label and the status matches |
| ConsultationCard.NoDefaultForCancelled | src/components/ConsultationCard.tsx:134-160 | a cancelled card offers no default action |
| ConsultationDetails.JoinLabel | src/components/ConsultationDetails.tsx:130-137 | the join button's text for each consultation type |
| ConsultationDetails.Render | src/components/ConsultationDetails.tsx:23-142 | nothing is drawn exactly when there is no consultation; the badge's tone and text follow the status and the type line follows the type; "Paid" shows exactly when paid; symptoms and notes show exactly when non-empty; join shows and messaging is outlined exactly when upcoming |

## Left out

- Storage: localStorage, sessionStorage and JSON encoding are not modelled. Each key is a field of `Store`, and the session slot is a field of `AuthService`.
- Demo data: the seed records written on first load are not modelled. The store starts from arbitrary tables.
- DoctorDashboard: the page's built-in sample consultations are not modelled. Its sections are stated for any list of consultations.
- Generated ids: `crypto.randomUUID()` is not modelled. Each create takes a `newId` that is not yet a key of its table.
- Clocks and dates: `new Date()`, `toISOString` and `date-fns` formatting are not modelled. A formatted date is a string argument. Timestamps that the source compares (message, metric and negotiation times) are integers.
- `getRevenueByMonth` is not modelled, because it groups by formatted month names taken from the clock.
- Number formatting: `toFixed` is not modelled. `parseFloat` appears only as its result.
- Money is an exact `real`, so the model does not capture floating-point rounding of `price * 1.05` or of sums.
- Video: the Agora SDK and `videoService` are not modelled. Their events are method calls, and the toggles' arguments are recorded in a list. As written, `src/components/VideoConsultation.tsx` registers its `user-published` and `user-unpublished` listeners on its own module-level client (lines 23, 73 and 92), while `src/services/videoService.ts` joins a different client (lines 14, 23 and 41), so those events would not reach the page; the model delivers them as if both used one client.
- UI effects: toasts, navigation, dialogs' `onClose`, icons and CSS classes are not modelled. Colours are a `Tone`.
- Polling: the chat's 3-second interval is not modelled. Each poll is a call to `LoadMessages`.
- BookDoctor.BookingPage.HandleSearch: the 2-second timer (`src/pages/BookDoctorPage.tsx:103-107`, in an effect that watches `isSearching`) that ends the search is not modelled.
- BankDetailsForm.BankDetailsFormState.HandleSubmit: the 1.5-second delay is split into this method and `FinishSubmit`.
- PrescriptionForm.MedicationUpdated: requires an index inside the list, because JavaScript would create a sparse entry for any other index. It covers only the three field names the form uses.
- ChatInterface: scrolling to the newest message is not modelled.
- BookDoctor.BookingPage.constructor: `src/pages/BookDoctorPage.tsx:45` imports `useAuth` from `@/services/auth`, which exports only `authService` (`src/services/auth.ts:6`), so as written that import does not resolve and the page cannot load. The model assumes the hook of `src/hooks/useAuth.tsx` supplies `patientId`, and takes it as a constructor argument.
- ConsultationCard.Capitalize: upper-cases ASCII letters only, unlike `toUpperCase` ("é" to "É", "ß" to "SS"). Every caller passes a fixed ASCII status or type word, so the labels are the same.
- Pages outside the core are not part of this model: patient and admin dashboards, profile, wallet page, landing pages, and PDF export of prescriptions.
- Negotiation flow: no code path moves a consultation out of `negotiating` except a generic update. The model allows the same updates and proves nothing about that state.
