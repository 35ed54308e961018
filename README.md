# Health AI Agent — a verified model of its decision logic

The Health AI Agent is a web application for cancer patients. It has an
Express server (chat with an AI assistant, symptom analysis, emergency
assessment, and in-memory records of patients, notifications, appointments,
medications and symptoms) and a React client (authentication and patient
state, a notification list, a chat hook and a dashboard). This project models
the parts of both that decide something and proves what they promise:

- **AI service** (`ai_service.dfy`, module `AiService`):
  - the keyword severity classifier, where severe beats moderate beats mild;
  - the severity-to-advice table;
  - the canned fallback answers;
  - the prompt builder;
  - `generateResponse`, which falls back to a canned answer instead of
    failing;
  - `analyzeSymptoms`.

  The OpenAI call is a `provider` function that either completes with a
  text or fails.
- **AI routes** (`ai_routes.dfy`, module `AiRoutes`): the input guards of
  `/chat`, `/symptoms/analyze` and `/emergency/assessment`, the URGENT
  notice put in front of severe advice, and the `isEmergency` flag.
- **Client state**:
  - the authentication reducer (`auth_context.dfy`);
  - the patient-profile reducer and its fetch/clear trigger
    (`patient_context.dfy`);
  - the notification list (`notification_context.dfy`, a class whose list
    the operations replace);
  - the chat hook (`use_chat.dfy`, a class whose message log, loading flag
    and error change step by step).
- **Server tables**: the module-level arrays of the patient, notification,
  appointment, medication and symptom routes. Each is a class with a `seq`
  field, and each handler is a method that appends, updates in place or
  splices, with the same guards, status codes and messages as the handler.
  The tables that never delete keep their records numbered 1, 2, 3, …
- **Small decisions**:
  - the `requireRole` and `requirePatientAccess` middleware (`access.dfy`);
  - the Redis back-off strategies (`redis_retry.dfy`);
  - the dashboard's severity bands and mood colours (`dashboard.dfy`).

Shared modules:
- `Js` (`js.dfy`): JavaScript request values, truthiness, `||`, `===` and
  HTTP replies.
- `Text` (`text.dfy`): lower-casing, `includes`, `trim` and `join`.
- `Lookup` (`lookup.dfy`): `findIndex` as a specification function and a
  scanning loop proved equal to it.

## Model

| member | source | states |
|---|---|---|
| Text.Lower | server/services/aiService.js:206 | The lower-cased text has the same length and lower-cases each character. |
| Text.Includes | server/services/aiService.js:206 | `includes` holds exactly when the marker occurs at some position of the text. |
| Text.TrimEmptyIffBlank | server/routes/ai.js:10 | A text trims to nothing exactly when every character is whitespace. |
| Lookup.FirstIndex | server/routes/patients.js:63-66 | The result is -1 or a valid index whose record has the id and is the first such; it is -1 exactly when no record has the id. |
| Lookup.FindIndex | server/routes/patients.js:63-66 | The front-to-back scan returns the first matching index, or -1. |
| Lookup.FirstIndexUnique | server/routes/patients.js:20 | A matching index with no match before it is the one `find`/`findIndex` picks. |
| Lookup.NumberedLookup | server/routes/notifications.js:28 | In a table numbered 1, 2, 3, …, id `k` is found at position `k - 1`, and ids outside `1..length` are not found. |
| Lookup.NumberedAppend | server/routes/notifications.js:28-37 | Appending the record numbered `length + 1` keeps the numbering. |
| AiService.MentionsAny | server/services/aiService.js:205-211 | Holds exactly when the text contains one of the markers. |
| AiService.AnySymptomMentions | server/services/aiService.js:205-211 | Holds exactly when some symptom, lower-cased, contains some marker. |
| AiService.AssessSymptomSeverity | server/services/aiService.js:194-216 | Severe exactly when some symptom mentions a severe marker; moderate exactly when none does and some mentions a moderate marker; mild exactly when no symptom mentions any marker. |
| AiService.NoSymptomsIsMild | server/services/aiService.js:215 | An empty symptom list is mild. |
| AiService.MildCoughNotSevere | server/services/aiService.js:195-207 | No severe marker occurs in "mild cough". |
| AiService.MildCoughIsModerate | server/services/aiService.js:200-214 | "mild cough" is moderate, not mild: it contains the marker "cough" and no severe marker. |
| AiService.ShoutedHeadacheIsSevere | server/services/aiService.js:206 | "SEVERE HEADACHE today" is severe once lower-cased. |
| AiService.GenerateSymptomRecommendations | server/services/aiService.js:218-232 | The advice depends only on the severity: severe gives the one emergency line, moderate the two lines for within 24 hours and close monitoring, mild the two monitoring lines, always one or two lines. |
| AiService.RecommendationsDistinguishTiers | server/services/aiService.js:218-232 | The advice tells the tiers apart: it has one line exactly for severe, starts with the emergency line exactly for severe, and differs between any two tiers. |
| AiService.RecommendationsFor | server/services/aiService.js:218-232 | The advice table; GenerateSymptomRecommendations and RecommendationsDistinguishTiers state it. |
| AiService.GetFallbackResponse | server/services/aiService.js:101-149 | First match wins: symptom, pain or feel gives the symptom guidance; otherwise treatment, therapy or medication gives the treatment guidance; otherwise appointment, doctor or visit gives the appointment guidance; otherwise the general support text. The patient context plays no part. |
| AiService.SeverePainGetsSymptomGuidance | server/services/aiService.js:104-111 | "I have severe pain" gets the symptom guidance, through the keyword "pain". |
| AiService.SeverePainAsksAboutSymptoms | server/services/aiService.js:102-105 | "I have severe pain", lower-cased, contains the keyword "pain". |
| AiService.BuildContextualMessage | server/services/aiService.js:151-171 | The local built by successive `+=` equals the message followed by the diagnosis, stage, treatments and symptoms clauses, each present only when its field is given and not empty. |
| AiService.ContextualMessageExtends | server/services/aiService.js:151-171 | The built message begins with the user's message, and equals it exactly when the context gives nothing. |
| AiService.DiagnosisThenStage | server/services/aiService.js:154-160 | With a diagnosis and a stage only, the message is the user's text, then the diagnosis sentence, then the stage sentence. |
| AiService.ContextualMessage | server/services/aiService.js:151-171 | The prompt as a clause concatenation; BuildContextualMessage is proved equal to it, and ContextualMessageExtends, DefaultContextAddsNothing and DiagnosisThenStage state it. |
| AiService.DefaultContextAddsNothing | server/services/aiService.js:53 | The default context `{}` adds nothing to the user's message. |
| AiService.AIService.constructor | server/services/aiService.js:4-14 | The service is available exactly when an API key is set, is not empty, and is not the placeholder key. |
| AiService.AIService.GenerateResponse | server/services/aiService.js:53-99 | The provider is asked exactly when the service is available. Unavailable: the canned answer. Provider fails: the canned answer. Otherwise the provider's text. The method never fails. |
| AiService.AIService.AnalyzeSymptoms | server/services/aiService.js:173-192 | The analysis is the answer to the symptom prompt. The severity and the advice come from the symptoms alone, whatever the provider says. |
| AiService.AnswerIsProviderTextOrFallback | server/services/aiService.js:53-99 | Every answer is either the provider's completed text or the canned answer to the same message. |
| AiService.Answer | server/services/aiService.js:53-99 | The answer of generateResponse; GenerateResponse's contract and AnswerIsProviderTextOrFallback state it. |
| AiService.AnalysisPrompt | server/services/aiService.js:175-179 | The analysis prompt; AnalyzeSymptoms's contract ties the analysis to it. |
| AiRoutes.Texts | server/routes/ai.js:38 | Reading the symptom strings keeps their number and order: entry `i` is the text of the `i`-th item. |
| AiRoutes.UrgentOnlyWhenSevere | server/routes/ai.js:209-212 | The URGENT notice is first exactly when the severity is severe, and the original advice follows it unchanged. Non-severe advice passes through unchanged. |
| AiRoutes.EmergencyRecommendations | server/routes/ai.js:209-212 | The emergency advice; UrgentOnlyWhenSevere states it. |
| AiRoutes.Chat | server/routes/ai.js:6-27 | A missing, empty or blank message gets 400 without asking the provider. A non-text message gets 500. Otherwise 200 with `success` and the service's answer. |
| AiRoutes.AnalyzeRoute | server/routes/ai.js:30-51 | A missing, non-array or empty symptom list gets 400 without asking the provider. A list holding a non-text entry gets 500. Otherwise 200 with the service's analysis. |
| AiRoutes.EmergencyAssessment | server/routes/ai.js:196-227 | Same guards as the analysis route. A success carries the analysis and its severity unchanged, with the URGENT notice added only when severe, and `isEmergency` exactly when severe. |
| AiRoutes.AssessEmergency | server/routes/ai.js:206-221 | The emergency payload is the service's analysis and severity, with the URGENT notice in front of the advice and `isEmergency` set exactly when severe. |
| AuthContext.AuthStartKeepsSession | client/src/contexts/AuthContext.jsx:19-24 | AUTH_START sets loading and clears the error; user, token, authentication and new-user flag are unchanged. |
| AuthContext.AuthSuccessInstalls | client/src/contexts/AuthContext.jsx:26-35 | AUTH_SUCCESS installs user and token, authenticates, stops loading, clears the error, and takes the new-user flag from the payload, or false when that flag is falsy. |
| AuthContext.AuthFailureDropsSession | client/src/contexts/AuthContext.jsx:37-46 | AUTH_FAILURE clears user and token, deauthenticates, stops loading, records the payload as the error and resets the new-user flag. |
| AuthContext.LogoutIsSilentFailure | client/src/contexts/AuthContext.jsx:48-57 | LOGOUT yields what AUTH_FAILURE yields, except that the error is null. |
| AuthContext.UpdateUserMerges | client/src/contexts/AuthContext.jsx:59-63 | UPDATE_USER lays the payload's fields over the user's, keeps the user's other fields, adds no others, and changes nothing else. |
| AuthContext.ClearErrorIdempotent | client/src/contexts/AuthContext.jsx:65-69 | CLEAR_ERROR changes only the error, and repeating it changes nothing. |
| AuthContext.UnrecognizedIsIdentity | client/src/contexts/AuthContext.jsx:71-72 | Any other action type returns the state unchanged. |
| AuthContext.AuthReducer | client/src/contexts/AuthContext.jsx:17-74 | The reducer itself carries no contract; what each action does is stated by AuthStartKeepsSession, AuthSuccessInstalls, AuthFailureDropsSession, LogoutIsSilentFailure, UpdateUserMerges, ClearErrorIdempotent and UnrecognizedIsIdentity. |
| AuthContext.OnlySuccessAuthenticates | client/src/contexts/AuthContext.jsx:17-74 | If one action turns an unauthenticated state into an authenticated one, that action is AUTH_SUCCESS. |
| AuthContext.NoSuccessNoSession | client/src/contexts/AuthContext.jsx:17-74 | A sequence of actions with no AUTH_SUCCESS never authenticates an unauthenticated state. |
| AuthContext.LogoutThenNoSuccess | client/src/contexts/AuthContext.jsx:48-57 | After LOGOUT, the session stays unauthenticated until an AUTH_SUCCESS. |
| AuthContext.StartSignedOut | client/src/contexts/AuthContext.jsx:8-15 | The first state keeps the stored token and has no user, and no run of actions without AUTH_SUCCESS signs anyone in from it. |
| PatientContext.FetchStartKeepsProfile | client/src/contexts/PatientContext.jsx:16-21 | FETCH_PATIENT_START sets loading and clears the error, keeping the profile. |
| PatientContext.FetchOutcomes | client/src/contexts/PatientContext.jsx:23-37 | FETCH_PATIENT_SUCCESS shows the payload with no error. FETCH_PATIENT_FAILURE drops the profile and records the payload as the error. Both stop loading. |
| PatientContext.UpdatePatientMerges | client/src/contexts/PatientContext.jsx:39-43 | UPDATE_PATIENT merges the payload over the profile, keeping the profile's other fields, and leaves loading and error unchanged. |
| PatientContext.ClearAndUnrecognized | client/src/contexts/PatientContext.jsx:45-54 | CLEAR_PATIENT empties the state from any state. An unknown action changes nothing. |
| PatientContext.PatientReducer | client/src/contexts/PatientContext.jsx:14-56 | The reducer itself carries no contract; each action is stated by FetchStartKeepsProfile, FetchOutcomes, UpdatePatientMerges and ClearAndUnrecognized. |
| PatientContext.PatientEffect | client/src/contexts/PatientContext.jsx:62-68 | Fetch exactly when authenticated as a patient; clear exactly when not authenticated; nothing exactly for another signed-in role. |
| PatientContext.FetchEndsLoaded | client/src/contexts/PatientContext.jsx:70-84 | A fetch always ends with loading stopped. It ends with the profile and no error when the server answers, and with no profile and the message otherwise. |
| PatientContext.FetchPatientData | client/src/contexts/PatientContext.jsx:70-84 | START then the finishing dispatch with nothing in between; FetchEndsLoaded states its outcome. |
| PatientContext.OnSessionChange | client/src/contexts/PatientContext.jsx:62-68 | The state the effect leaves; SessionChangeOutcomes and FirstSessionChange state it. |
| PatientContext.SessionChangeOutcomes | client/src/contexts/PatientContext.jsx:62-68 | With no dispatch during a fetch's `await`: signing out leaves no profile, a signed-in non-patient leaves the state as it was, and a patient's fetch ends loaded. |
| PatientContext.PendingFetchOutlivesSignOut | client/src/contexts/PatientContext.jsx:62-84 | A sign-out's CLEAR_PATIENT between a fetch's START and its SUCCESS empties the state, and the late SUCCESS then installs the profile again. |
| PatientContext.FirstSessionChange | client/src/contexts/PatientContext.jsx:8-12 | From the initial state, signing out ends loading with no profile and a patient's fetch ends loading, but a signed-in user of another role leaves the state loading. |
| NotificationContext.WithoutMembers | client/src/contexts/NotificationContext.jsx:37-39 | Removal keeps exactly the entries whose id differs. |
| NotificationContext.Without | client/src/contexts/NotificationContext.jsx:37-39 | The `filter` of removeNotification; WithoutMembers, WithoutConcat and WithoutAbsent state it. |
| NotificationContext.MarkedRead | client/src/contexts/NotificationContext.jsx:41-49 | The `map` of markAsRead; MarkedReadAt, MarkedReadIdempotent and MarkedReadCount state it. |
| NotificationContext.AllRead | client/src/contexts/NotificationContext.jsx:51-55 | The `map` of markAllAsRead; AllReadMarksEvery states it. |
| NotificationContext.CountUnread | client/src/contexts/NotificationContext.jsx:68 | The unread count; CountUnreadBounds states it. |
| NotificationContext.WithoutConcat | client/src/contexts/NotificationContext.jsx:37-39 | Removal works piece by piece, so the kept entries stay in order. |
| NotificationContext.WithoutAbsent | client/src/contexts/NotificationContext.jsx:37-39 | Removing an id no entry has changes nothing. |
| NotificationContext.MarkedReadAt | client/src/contexts/NotificationContext.jsx:41-49 | Marking keeps length and order and sets `read` only on the entries with that id. |
| NotificationContext.MarkedReadIdempotent | client/src/contexts/NotificationContext.jsx:41-49 | Marking the same id twice is marking it once. |
| NotificationContext.MarkedReadCount | client/src/contexts/NotificationContext.jsx:41-49 | Marking never raises the unread count. |
| NotificationContext.AllReadMarksEvery | client/src/contexts/NotificationContext.jsx:51-55 | Marking all keeps length and makes every entry read, so nothing is unread. |
| NotificationContext.CountUnreadBounds | client/src/contexts/NotificationContext.jsx:68 | The unread count is at most the length, and zero exactly when every entry is read. |
| NotificationContext.NotificationProvider.AddNotification | client/src/contexts/NotificationContext.jsx:17-35 | The new unread entry goes in front, the earlier ones follow in order, and its id is returned. |
| NotificationContext.NotificationProvider.RemoveNotification | client/src/contexts/NotificationContext.jsx:37-39 | The list becomes the filtered list: an entry stays exactly when it was there and has another id. |
| NotificationContext.NotificationProvider.MarkAsRead | client/src/contexts/NotificationContext.jsx:41-49 | The list becomes the marked list, of the same length. |
| NotificationContext.NotificationProvider.MarkAllAsRead | client/src/contexts/NotificationContext.jsx:51-55 | The list becomes the all-read list and the unread count is zero. |
| NotificationContext.NotificationProvider.ClearAll | client/src/contexts/NotificationContext.jsx:57-59 | The list is empty. |
| NotificationContext.NotificationProvider.UnreadCount | client/src/contexts/NotificationContext.jsx:68 | The unread count is the number of entries not marked read, so it never exceeds the number of notifications. |
| UseChat.ErrorText | client/src/hooks/useChat.js:36 | The error text is never empty. It is the error's own message when that is present and not empty, and "Failed to get response from AI" otherwise. |
| UseChat.Stamped | client/src/hooks/useChat.js:48-54 | The added message has the caller's fields plus an id and a timestamp, and the caller's fields win. |
| UseChat.ChatSession.StartSend | client/src/hooks/useChat.js:13-22 | Before awaiting, exactly one user message with the text is appended, loading starts and the error clears. |
| UseChat.ChatSession.FinishSend | client/src/hooks/useChat.js:24-40 | On an answer, one AI message with the response is appended. On a failure, the log is kept and the error is the failure's message or the default. Loading stops either way. |
| UseChat.ChatSession.SendMessage | client/src/hooks/useChat.js:10-41 | A blank message changes no state. Otherwise the log gains the user message, then the AI message when answered; loading stops; the error is cleared or set from the failure. |
| UseChat.ChatSession.ClearMessages | client/src/hooks/useChat.js:43-46 | The log is empty and the error is cleared. |
| UseChat.ChatSession.AddMessage | client/src/hooks/useChat.js:48-54 | Exactly one stamped message is appended at the end. |
| UseChat.SentMessageIsLogged | client/src/hooks/useChat.js:20-34 | After sending, the earlier log is a prefix, the user's words follow it, and an AI reply comes after exactly when there was an answer. |
| PatientsRoute.Revised | server/routes/patients.js:70-78 | Each of name, email, age, gender and history is replaced only by a truthy new value. The id and creation time are kept and the update time moves. |
| PatientsRoute.FalsyRevisionKeepsFields | server/routes/patients.js:70-78 | A revision whose five fields are all falsy changes nothing but the update time. |
| PatientsRoute.PatientTable.List | server/routes/patients.js:8-15 | Returns the whole table. |
| PatientsRoute.PatientTable.Get | server/routes/patients.js:18-29 | Returns the first record with the id, or 404. |
| PatientsRoute.PatientTable.Create | server/routes/patients.js:32-58 | Without a truthy name and email: 400 and the table unchanged. Otherwise one record is appended, numbered `length + 1`, with history defaulting to `[]`, and returned with 201. |
| PatientsRoute.PatientTable.Update | server/routes/patients.js:61-85 | Unknown id: 404 and the table unchanged. Otherwise only the first matching record is replaced by its revision, and it is returned. |
| PatientsRoute.PatientTable.Delete | server/routes/patients.js:88-101 | Unknown id: 404 and the table unchanged. Otherwise exactly the first matching record is removed and the rest keep their order. |
| PatientsRoute.DeleteThenCreateRepeatsId | server/routes/patients.js:18-101 | On a fresh table, two creates, a delete of id 1 and a third create leave two records numbered 2, the older first, and GET 2 answers the older one. |
| NotificationsRoute.ReadMarked | server/routes/notifications.js:48-53 | Only the first record with the id becomes read; every other record and the length stay as they were. |
| NotificationsRoute.ReadMarkedIdempotent | server/routes/notifications.js:53 | Marking twice is marking once, and no id changes. |
| NotificationsRoute.ReadMarkedNumbered | server/routes/notifications.js:48-53 | In the numbered list, id `k` marks position `k - 1`, and other ids change nothing. |
| NotificationsRoute.NotificationTable.List | server/routes/notifications.js:8-15 | Returns the whole list in insertion order. |
| NotificationsRoute.NotificationTable.Create | server/routes/notifications.js:18-43 | Without a truthy title, message and type: 400 and the list unchanged. Otherwise an unread record numbered `length + 1` is appended and returned with 201. The numbering is kept. |
| NotificationsRoute.NotificationTable.MarkRead | server/routes/notifications.js:46-59 | The list becomes the marked list. An id outside `1..length` gets 404. Otherwise the record at that position is read and is returned. |
| AppointmentsRoute.PatientZeroRefused | server/routes/appointments.js:23-25 | A booking for patient 0 is refused, since 0 is falsy. |
| AppointmentsRoute.AppointmentTable.List | server/routes/appointments.js:8-15 | Returns the whole list. |
| AppointmentsRoute.AppointmentTable.Create | server/routes/appointments.js:18-44 | Without a truthy patient, doctor, date and time: 400 and the list unchanged. Otherwise a "scheduled" appointment numbered `length + 1` is appended at the end and is found again under that id. |
| MedicationsRoute.MedicationTable.List | server/routes/medications.js:8-15 | Returns the whole list. |
| MedicationsRoute.MedicationTable.Create | server/routes/medications.js:18-42 | Without a truthy name, dosage and frequency: 400 and the list unchanged. Otherwise one record numbered `length + 1` is appended at the end. |
| SymptomsRoute.SeverityZeroRefused | server/routes/symptoms.js:23-25 | Severity 0 or an empty description is refused. Any other number with any other text is accepted. |
| SymptomsRoute.SymptomTable.List | server/routes/symptoms.js:8-15 | Returns the whole log. |
| SymptomsRoute.SymptomTable.Create | server/routes/symptoms.js:18-42 | Without a truthy description and severity: 400 and the log unchanged. Otherwise one entry numbered `length + 1` is appended at the end. |
| Access.RequireRole | server/middleware/auth.js:42-54 | 401 exactly when there is no user. 403 exactly when the role is not one of the allowed strings. Otherwise the request goes on. |
| Access.RequireRoleWidening | server/middleware/auth.js:48 | Allowing more roles never refuses a request that was let through. |
| Access.NonStringRoleRefused | server/middleware/auth.js:48-50 | A missing or non-text role is always refused with 403. |
| Access.RequirePatientAccess | server/middleware/auth.js:56-76 | 401 exactly when there is no user. 403 exactly when a patient names a truthy patient id (path first, then body) not identical to their own. Every other request goes on. |
| Access.NonPatientsPass | server/middleware/auth.js:63-71 | Users who are not patients always pass. |
| Access.PatientOwnDataPasses | server/middleware/auth.js:64-71 | A patient passes when no patient id is named, or when the named id is their own. |
| Access.PathIdWins | server/middleware/auth.js:64 | The path's id is used before the body's. |
| Access.RequestedPatient | server/middleware/auth.js:64 | The path id, or the body's when the path's is falsy; PathIdWins and RequirePatientAccess state it. |
| Access.SessionUser | server/middleware/auth.js:29-33 | The user attached after authentication carries a role but no patient id. |
| Access.SessionPatientNamingAnyIdDenied | server/middleware/auth.js:63-68 | So a patient authenticated by the middleware is refused whenever the request names any patient id. |
| RedisRetry.Backoff | server/config/redis.js:24 | The delay is `attempt * 100` capped at 3000. |
| RedisRetry.BackoffMonotone | server/config/redis.js:24-36 | A later attempt never waits less. |
| RedisRetry.DevelopmentRetry | server/config/redis.js:11-25 | Gives up on a refused connection whatever the attempt. Otherwise after more than an hour. Otherwise after more than ten attempts, in that order. When none of these holds it retries after the back-off, which is then at most 1000 ms. |
| RedisRetry.ProductionRetry | server/config/redis.js:32-37 | Gives up exactly when more than an hour has been spent; otherwise waits the back-off. |
| RedisRetry.DevelopmentStricter | server/config/redis.js:11-37 | Whenever development retries, production retries after the same delay. |
| RedisRetry.RefusedOnFirstAttempt | server/config/redis.js:12-36 | A refused first attempt ends development retries at once; production waits 100 ms. |
| Dashboard.SeverityLabel | client/src/pages/Dashboard/DashboardPage.jsx:107-111 | Low exactly up to 3, Moderate exactly above 3 up to 6, High exactly above 6. |
| Dashboard.SeverityColor | client/src/pages/Dashboard/DashboardPage.jsx:101-105 | Health, warning and danger colours on exactly the same thresholds. |
| Dashboard.LabelAndColorAgree | client/src/pages/Dashboard/DashboardPage.jsx:101-111 | Two levels get the same label exactly when they get the same colour. |
| Dashboard.BandsMonotone | client/src/pages/Dashboard/DashboardPage.jsx:101-111 | A higher level never gets a lower band. |
| Dashboard.MoodColor | client/src/pages/Dashboard/DashboardPage.jsx:90-99 | The five known moods get their table colour. The neutral colour is given exactly to every other mood. |
| Dashboard.MoodsShareSeverityPalette | client/src/pages/Dashboard/DashboardPage.jsx:90-105 | Excellent, fair and poor use the colours of the low, moderate and high bands. |

## Left out

- The OpenAI client and its request are not modelled (server/services/aiService.js:79-88): the completion is a `provider` parameter that returns a text or fails. The system prompt, the model settings and a completion whose content is null are not modelled.
- The prompt-template wrappers (`generateTreatmentEducation`, `generateNutritionGuidance`, `generateMentalHealthSupport`, `generateAppointmentPreparation`, `generateMedicationGuidance`) are not modelled. They only interpolate a string and call `generateResponse`.
- Clocks, random ids and `new Date()` are parameters (`now`, `id`, `timestamp`); timestamps in replies are left out. Ids in a path arrive already parsed: `parseInt` returning `NaN` (which matches no record) is not modelled.
- JavaScript numbers are modelled as integers: fractional levels on the dashboard and fractional ids are not modelled.
- Text.Lower: lower-cases ASCII letters only; JavaScript's `toLowerCase` also folds other alphabets, which the marker lists do not need.
- AiRoutes.AnalyzeRoute: a symptom array with a non-text entry is modelled as a 500 after the provider was asked. In the source, `some` stops early, so a mixed array whose text entries already settle the severity check can still be analysed; that case is not modelled.
- AiRoutes.EmergencyAssessment: the same gap. A symptom array with a non-text entry is modelled as a 500 ("Unable to perform emergency assessment"). In the source, `join` accepts numbers and `some` stops at the first entry that settles the severity check (server/services/aiService.js:205-211), so `["severe pain with nausea", 5]` answers 200 with a severe, urgent assessment; that case is not modelled.
- AiRoutes.Chat: a non-text message that is truthy is modelled as a 500 without asking the provider; the source throws on `trim` for any such value.
- A `patientContext` that is `null` (not absent) is not modelled: the model has no null context, only absent fields. In the source, `/chat` still answers 200 with the canned answer, because `generateResponse` catches the TypeError from `buildContextualMessage` (server/services/aiService.js:75, 95-97) or never reads the context when the service is unavailable (lines 56-58); `/symptoms/analyze` and `/emergency/assessment` answer 500, because the analysis prompt reads the context (line 177) and `analyzeSymptoms` rethrows (line 190).
- The patient context's fields are typed (text, or lists of text). A field of another JSON type is not modelled. For example `currentTreatments: "chemo"` makes `join` throw: `/chat` then falls back to the canned answer (server/services/aiService.js:162-163, 95-97), while `/symptoms/analyze` answers 500 (line 178).
- PatientContext.SessionChangeOutcomes: a fetch is modelled as START then its finishing dispatch with nothing in between. The source awaits between them (client/src/contexts/PatientContext.jsx:73), so a sign-out can interleave and the late success re-installs the profile; `PatientContext.PendingFetchOutlivesSignOut` states that case. "Signing out leaves no profile" holds only when no fetch is pending.
- The `setTimeout` that removes a notification after five seconds is a timer. It is not modelled beyond a later explicit call of `RemoveNotification`.
- The side effects of the authentication and patient providers (local storage, requests to the server, toasts) are not modelled. The stored token is a parameter of the initial state, and a profile fetch is its outcome.
- `authMiddleware`, token signing, `routes/auth.js`, the validation schemas of `server/middleware/validation.js`, the database and migrations, the Redis client's I/O, the server start-up and the client's HTTP services are not part of this model. Only the user object `authMiddleware` attaches is modelled, as `Access.SessionUser`.
- `requirePatientAccess` answers 500 when reading the request throws; that path is not modelled.
- Dashboard.MoodColor: the colour table is a plain object, so keys such as `toString` inherited from its prototype would yield a function; only own keys are modelled.
- The React pages and components are not modelled. This includes the layout's unread badge, which reads `isRead` while the notification list sets `read`.
