# SafeCircle core, modelled in Dafny

SafeCircle is a campus safety app. A user in trouble raises an SOS. The
alert can be raised from the hold-to-activate button, from the SOS dialog, by
shaking the phone, or by typing `911` into a disguised calculator. Nearby
helpers and the user's trusted circle respond. Responders earn points,
levels and badges. A check-in timer raises a silent alert when the user fails
to check in before it expires.

This project models the core of that system:

- **The Supabase edge functions.** `trigger-sos`, `respond-to-incident`,
  `resolve-incident`, `check-in-timer` and `award-points` are methods on one
  `Database.Db` class. That class holds the tables (`incidents`,
  `incident_helpers`, `check_in_timers`, `user_locations`,
  `trusted_circles`), the points ledger, and a log of the stored-procedure
  calls made.
- **The client hooks.** `useIncidents`, `useTrustedCircle`, `useMessages`
  and `useCheckIn` are classes holding the React state they update, plus
  the pure functions that compute that state. `useGamification` holds no
  state of its own and is modelled only as pure functions.
- **The UI state machines.** These are the SOS button, the SOS dialog,
  shake-to-alert, the emergency calculator, the profile-setup wizard, the
  rating screen, the responder views and the leaderboard.

Each state-changing operation is a method whose `ensures` gives its new state
as a function of the old state and its inputs. Each such function has
lemmas about what the source promises: the table invariants each edge
function keeps, round trips, idempotence, ordering, and both directions of
each if-and-only-if.

Failures of the store or of a stored procedure are explicit inputs, such as
`insertFails`, `awardFails` or `ledgerFails`, so each error path is modelled
beside the happy path. Clocks, geolocation and uploads are parameters too.

Module layout:

- **Shared helpers.** `Common` holds JavaScript truthiness and `x || fallback`,
  `JsNumbers` holds number arithmetic with `NaN` and infinities and
  `parseFloat` on keypad text, and `Seqs` holds filter, subsequence and a
  sort by an integer key.
- **Tables and store.** `Schema` holds the table rows and invariants, and
  `Database` holds the store.
- **Edge functions.** There is one module per edge function.
- **Client side.** There is one module per hook or component.

## Model

| member | source | states |
|---|---|---|
| AwardPoints.ResolveArgs | supabase/functions/award-points/index.ts:49-58 | the request is accepted exactly when `points` is present and positive, otherwise the error is "Points must be greater than 0"; the target defaults to the caller and the reason to "action" when falsy |
| AwardPoints.Award | supabase/functions/award-points/index.ts:49-87 | a rejected request changes nothing; otherwise the award procedure is called; when it fails the ledger is unchanged and no badge check runs; when it succeeds the target's balance grows by exactly the amount, the badge check runs, and the reply carries the new balance and the badge summary or the empty default |
| AwardPoints.AwardsAccumulate | supabase/functions/award-points/index.ts:61-66 | two successful awards to one user add up, and the balance strictly grows |
| Database.Credit | supabase/functions/award-points/index.ts:61-66 | crediting changes the credited user's balance by the amount and every other balance not at all |
| Database.CreditsCommute | supabase/functions/resolve-incident/index.ts:105-139 | credits to the ledger commute, so the order of the payout calls does not change the final balances |
| Database.Db.Award | supabase/functions/award-points/index.ts:62-72 | `award_user_points` is recorded as a call; it succeeds exactly when it does not fail, and only then is the target's balance credited by the amount |
| Database.Db.CheckBadges | supabase/functions/award-points/index.ts:74-76 | `check_badge_unlocks` is recorded as a call and changes nothing else |
| Common.StringOr | supabase/functions/award-points/index.ts:52-54 | `s \|\| fallback` on an optional string: the string when it is non-empty, the fallback otherwise |
| Common.StringOrNull | supabase/functions/trigger-sos/index.ts:77-81 | `s \|\| null`: present exactly when the string is non-empty, and then unchanged |
| Common.IntOr | src/hooks/useGamification.ts:166-172 | `n \|\| fallback` on an optional number: the number when it is non-zero, the fallback otherwise |
| Common.FlagOr | src/components/incident/EmergencyCalculator.tsx:36 | `flag \|\| false` is true exactly when the flag is present and true |
| TriggerSos.NewIncident | supabase/functions/trigger-sos/index.ts:72-86 | the inserted incident belongs to the caller, is active and unresolved, keeps the coordinates, and stores each optional text field exactly when it is non-empty and each flag exactly when it is true |
| TriggerSos.HasRequiredFields | supabase/functions/trigger-sos/index.ts:67-69 | a request passes only with a type and both coordinates present and non-zero |
| TriggerSos.AutoContactOnlyWhenPresent | supabase/functions/trigger-sos/index.ts:94-147 | emergency services are auto-contacted exactly when `auto_contact` is given; notifications are created first and nearby helpers are searched last, within 2 km |
| TriggerSos.NotifiedCountIsAcceptedRows | supabase/functions/trigger-sos/index.ts:115-127 | the notified count is the number of the caller's accepted outgoing trusted-circle rows |
| TriggerSos.TriggerSos | supabase/functions/trigger-sos/index.ts:54-174 | a missing type or a zero coordinate is rejected and a failed insert is an error, both without changes; otherwise exactly one active incident is appended, the procedure calls are made in order, the caller's location is upserted as shared, and the reply counts the accepted contacts and the nearby helpers |
| TriggerSos.Raise | supabase/functions/trigger-sos/index.ts:72-174 | the successful path: the table invariants are kept, the incident gets the next id, and the incident, call, location and reply effects are as above |
| RespondToIncident.Reward | supabase/functions/respond-to-incident/index.ts:140-149 | the first responder gets 150 points for "first_responder"; any other gets 100 for "sos_response" |
| RespondToIncident.LocationsAfter | supabase/functions/respond-to-incident/index.ts:119-131 | the helper's location is upserted as shared exactly when both coordinates are non-zero; no other user's location changes |
| RespondToIncident.FirstResponderIffNoEarlierHelper | supabase/functions/respond-to-incident/index.ts:134-140 | after the insert, the incident has exactly one helper row if and only if it had none before |
| RespondToIncident.TouchKeepsInvariants | supabase/functions/respond-to-incident/index.ts:77-85 | re-responding keeps one row per (incident, helper) and the row ids |
| RespondToIncident.InsertKeepsOneRowPerHelper | supabase/functions/respond-to-incident/index.ts:68-116 | inserting only when no row exists keeps one row per (incident, helper) |
| RespondToIncident.Respond | supabase/functions/respond-to-incident/index.ts:49-159 | a missing id, an inactive or missing incident, or a failed insert changes nothing; an existing row is refreshed to responding with no points; otherwise one helper row is appended, the location is upserted, and the reward for being first or not is awarded, followed by the badge check |
| RespondToIncident.Join | supabase/functions/respond-to-incident/index.ts:103-159 | the new-responder path: the table invariants are kept, one row is appended, and the location, award and badge effects are as above |
| RespondToIncident.InsertHelper | supabase/functions/respond-to-incident/index.ts:103-140 | the helper row gets the next id, keeps the invariants, and is first exactly when the incident had no helpers |
| ResolveIncident.PaidHelpersArePayableRows | supabase/functions/resolve-incident/index.ts:105-129 | the helpers paid are exactly the arrived or completed rows whose award succeeded, in table order |
| ResolveIncident.HelperIdsAppend | supabase/functions/resolve-incident/index.ts:117-120 | the reported helper ids of two row sequences concatenate |
| ResolveIncident.PayoutLedgerBalance | supabase/functions/resolve-incident/index.ts:105-129 | each user's balance grows by 100 times the number of that user's payable rows whose award succeeded |
| ResolveIncident.ResolveCompletesEveryHelper | supabase/functions/resolve-incident/index.ts:141-148 | the bulk update marks every helper row of the incident completed and leaves other incidents' rows alone |
| ResolveIncident.CompleteAllKeepsHelperCount | supabase/functions/resolve-incident/index.ts:141-148 | the incident keeps its number of helper rows, all of them now completed |
| ResolveIncident.RepeatResolvePaysEveryHelper | supabase/functions/resolve-incident/index.ts:104-148 | after a resolve, every helper row of the incident is payable, so a second resolve pays every helper |
| ResolveIncident.PayHelpers | supabase/functions/resolve-incident/index.ts:105-129 | the payout loop returns the paid helpers, makes the award and badge calls, and credits the ledger as the payout functions say |
| ResolveIncident.MarkResolvedKeepsInvariants | supabase/functions/resolve-incident/index.ts:80-88 | resolving keeps `resolved_at` set exactly on non-active incidents, and keeps the ids |
| ResolveIncident.CompleteAllKeepsInvariants | supabase/functions/resolve-incident/index.ts:141-148 | the bulk completion keeps one row per (incident, helper) and the ids |
| ResolveIncident.NoHelpersNothingToComplete | supabase/functions/resolve-incident/index.ts:142 | with no helper rows, the bulk update changes nothing |
| ResolveIncident.Close | supabase/functions/resolve-incident/index.ts:80-148 | the incident is resolved at `now`, the helpers are paid and completed, and a resolving reporter receives 10 points unless that separate award fails, independently of any helper payout to the same user |
| ResolveIncident.Resolve | supabase/functions/resolve-incident/index.ts:49-148 | a missing id, a missing incident, or a caller who is neither the reporter nor a helper changes nothing; otherwise the invariants are kept and the resolve, payout, reporter award (with its own failure outcome) and bulk completion happen as above, with the reply listing the paid helpers |
| CheckInTimer.CreateLeavesOneActive | supabase/functions/check-in-timer/index.ts:60-82 | after creation the user has exactly one active timer, the new one, and no other user has two |
| CheckInTimer.Create | supabase/functions/check-in-timer/index.ts:52-82 | a missing or non-positive duration is rejected without changes; otherwise the user's active timers are expired and a new active timer expiring `duration` minutes after `now` is appended |
| CheckInTimer.FindOpen | supabase/functions/check-in-timer/index.ts:103-114 | finds the caller's active timer with that id, or reports that none exists |
| CheckInTimer.CheckInChangesOnlyThatTimer | supabase/functions/check-in-timer/index.ts:103-108 | checking in changes exactly the one matching timer, to checked in |
| CheckInTimer.CheckInTimer | supabase/functions/check-in-timer/index.ts:98-122 | a missing id, or no active timer of the caller with that id, changes nothing; otherwise that timer is checked in and 10 points are awarded for "check_in_timer_used", unless the award fails |
| CheckInTimer.StoredCoordinate | supabase/functions/check-in-timer/index.ts:162-176 | a stored coordinate is present exactly when the user has a location row whose coordinate is non-zero |
| CheckInTimer.MarkExpiredDueIsSweep | supabase/functions/check-in-timer/index.ts:142-159 | expiring the selected timers one by one gives the same table as one sweep over all active timers past their expiry |
| CheckInTimer.MarkExpiredKeepsInvariants | supabase/functions/check-in-timer/index.ts:156-159 | expiring timers keeps the ids and at most one active timer per user |
| CheckInTimer.AlertsWithinExpired | supabase/functions/check-in-timer/index.ts:154-189 | the sweep raises at most one alert per due timer; each alert is an active silent incident with the expiry description, for a user who had a due timer |
| CheckInTimer.SweepIsIdempotent | supabase/functions/check-in-timer/index.ts:142-159 | after a sweep no timer is due, so a second sweep at the same time expires nothing |
| CheckInTimer.SweepOne | supabase/functions/check-in-timer/index.ts:154-189 | one loop step: the timer is expired, and an alert is appended with the next id unless the insert fails |
| CheckInTimer.ExpireDue | supabase/functions/check-in-timer/index.ts:154-189 | the loop expires every selected timer and appends one alert per successful insert, in order, with consecutive ids |
| CheckInTimer.CheckExpired | supabase/functions/check-in-timer/index.ts:138-196 | the sweep keeps the invariants, expires exactly the due timers, appends the alerts, and reports the due count, the alert count and one result per alert |
| CheckInTimer.LatestActive | supabase/functions/check-in-timer/index.ts:206-223 | returns an active timer of the user, or none exactly when the user has no active timer |
| CheckInTimer.LatestActiveIsTheActiveTimer | supabase/functions/check-in-timer/index.ts:206-214 | since a user has at most one active timer, `get_active` returns exactly that timer |
| CheckInTimer.Handle | supabase/functions/check-in-timer/index.ts:49-232 | dispatches on `action`; an unknown action is an error without changes; `get_active` changes nothing; each of the other actions has the effects above |
| IncidentsFeed.Prepend | src/hooks/useIncidents.ts:39-40 | an inserted incident goes to the front of the list, and the rest of the list is unchanged |
| IncidentsFeed.ReplaceById | src/hooks/useIncidents.ts:41-46 | an update replaces every entry with that id and nothing else |
| IncidentsFeed.RemoveById | src/hooks/useIncidents.ts:47-48 | a delete removes exactly the entries with that id |
| IncidentsFeed.ActiveIncidents | src/hooks/useIncidents.ts:194-196 | the active list holds exactly the active incidents |
| IncidentsFeed.ActiveIncidentsKeepOrder | src/hooks/useIncidents.ts:194-196 | the active list keeps the feed's order |
| IncidentsFeed.DeleteKeepsOrder | src/hooks/useIncidents.ts:47-48 | a delete keeps the order of the remaining entries |
| IncidentsFeed.ChangesAreIdempotent | src/hooks/useIncidents.ts:41-48 | replaying an update or a delete changes nothing more |
| IncidentsFeed.DeleteCommutesWithActive | src/hooks/useIncidents.ts:47-196 | deleting and then filtering the active incidents equals filtering and then deleting |
| IncidentsFeed.InitialLoad | src/hooks/useIncidents.ts:59-69 | the initial load holds at most 50 rows, newest first, taken from the table |
| IncidentsFeed.InitialLoadKeepsNewest | src/hooks/useIncidents.ts:62-66 | every row cut off by the limit is no newer than every row kept, and kept plus cut is the whole table |
| IncidentsFeed.Feed.Load | src/hooks/useIncidents.ts:59-75 | a successful fetch replaces the list with the initial load; a failed one keeps the list and records the error |
| IncidentsFeed.Feed.OnChange | src/hooks/useIncidents.ts:38-49 | a realtime change updates the list as the insert, update and delete functions say |
| IncidentsFeed.Feed.ActiveList | src/hooks/useIncidents.ts:194-196 | exactly the active incidents of the current list |
| TrustedCircle.Combine | src/hooks/useTrustedCircle.ts:37-79 | the combined list holds the sent rows first, each paired with the trusted user, then the received rows, each paired with the sender; every row touching the user appears and nothing else does |
| TrustedCircle.SentCoversOwnRows | src/hooks/useTrustedCircle.ts:38-74 | every row the user initiated appears, paired with the trusted user |
| TrustedCircle.ReceivedCoversIncomingRows | src/hooks/useTrustedCircle.ts:54-78 | every row naming the user as trusted appears, paired with the initiator |
| TrustedCircle.WithStatus | src/hooks/useTrustedCircle.ts:81-82 | the filter keeps exactly the entries with the given status |
| TrustedCircle.StatusPartition | src/hooks/useTrustedCircle.ts:81-82 | accepted, pending and rejected entries partition the combined list, so none is counted twice |
| TrustedCircle.SetStatus | src/hooks/useTrustedCircle.ts:120-168 | only the row with that id naming the user as trusted changes, and only its status |
| TrustedCircle.FindReceived | src/hooks/useTrustedCircle.ts:120-128 | finds the row with that id naming the user as trusted, or reports that none exists |
| TrustedCircle.SenderCannotDecide | src/hooks/useTrustedCircle.ts:123-166 | the initiator of a request cannot accept or reject it: the update matches no row |
| TrustedCircle.DeleteById | src/hooks/useTrustedCircle.ts:182-185 | removes exactly the row with that id |
| TrustedCircle.DeleteKeepsOrder | src/hooks/useTrustedCircle.ts:182-185 | a delete keeps the order of the remaining rows |
| TrustedCircle.DeleteKeepsIds | src/hooks/useTrustedCircle.ts:182-185 | a delete keeps the row-id invariant of the table |
| TrustedCircle.CircleHook.Reload | src/hooks/useTrustedCircle.ts:31-88 | the hook shows the accepted entries as contacts and the pending ones as requests |
| TrustedCircle.CircleHook.AddTrustedContact | src/hooks/useTrustedCircle.ts:90-113 | a pending row from the user is appended and both lists are reloaded from the table, with loading ended; a failed insert changes neither the table nor the hook |
| TrustedCircle.CircleHook.AcceptRequest | src/hooks/useTrustedCircle.ts:115-155 | only a request addressed to the user is accepted; the user then earns 15 points for "added_to_trusted_circle", the badge check runs and both lists are reloaded; with no such request neither the table nor the hook changes |
| TrustedCircle.CircleHook.RejectRequest | src/hooks/useTrustedCircle.ts:157-178 | only a request addressed to the user is rejected, with no points, and both lists are reloaded; with no such request neither the table nor the hook changes |
| TrustedCircle.CircleHook.RemoveTrustedContact | src/hooks/useTrustedCircle.ts:180-194 | the row is deleted and both lists are reloaded, with loading ended |
| TrustedCircle.DecidedRequestLeavesPending | src/hooks/useTrustedCircle.ts:115-178 | after accepting or rejecting, the request is no longer in the reloaded pending list, and an accepted one is among the trusted contacts |
| TrustedCircle.RemovedRowLeavesBothLists | src/hooks/useTrustedCircle.ts:180-189 | after a delete by id, neither reloaded list holds a row with that id, whether a contact or an outgoing request |
| Messages.Conversation | src/hooks/useMessages.ts:123-130 | the conversation is a permutation of the messages to or from the other user, oldest first |
| Messages.ConversationIsThatUsersMessages | src/hooks/useMessages.ts:123-130 | a message is in the conversation if and only if it was sent by or to the other user |
| Messages.UnreadCountCountsUnreadRows | src/hooks/useMessages.ts:132-134 | the unread count is the number of unread messages |
| Messages.UnreadCount | src/hooks/useMessages.ts:132-134 | the count is at most the number of messages, and is 0 exactly when every message is read |
| Messages.MarkRead | src/hooks/useMessages.ts:115-117 | only the messages with that id become read |
| Messages.MarkReadLowersUnread | src/hooks/useMessages.ts:106-121 | marking a message read never raises the unread count, and an unknown id leaves it unchanged |
| Messages.InitialLoad | src/hooks/useMessages.ts:60-68 | the load holds min(100, number of the user's messages) of the user's messages, newest first |
| Messages.InitialLoadKeepsNewest | src/hooks/useMessages.ts:60-65 | the load and the messages it cuts off together are exactly the user's messages, and no message cut off is newer than one kept |
| Messages.InitialLoadIsTheUsersMessages | src/hooks/useMessages.ts:60-65 | every loaded message is a stored message sent by or to the user |
| Messages.MessagesView.Mount | src/hooks/useMessages.ts:22-74 | with no user nothing is loaded; otherwise the list becomes the initial load with the error state kept, or on an error the list is kept and the error recorded |
| Messages.MessagesView.Receive | src/hooks/useMessages.ts:30-45 | an inserted message addressed to the signed-in user is put at the front; any other row leaves the list unchanged |
| Messages.MessagesView.Send | src/hooks/useMessages.ts:76-104 | without a user, or when the insert fails, the list is left and the error recorded; otherwise the returned row, put at the front, has the user as sender and the given receiver, content and type |
| Messages.MessagesView.MarkAsRead | src/hooks/useMessages.ts:106-121 | on success the message is marked read locally; a failed update leaves the list and records the error |
| CheckInHook.TimeRemaining | src/hooks/useCheckIn.ts:126-134 | there is no remaining time exactly when there is no active timer; otherwise it is the time until expiry, never negative, and zero exactly from the expiry on |
| CheckInHook.IsExpired | src/hooks/useCheckIn.ts:136-139 | the timer is expired exactly when it is active and its expiry has been reached |
| CheckInHook.ClientExpiresNoLaterThanSweep | src/hooks/useCheckIn.ts:136-139 | every timer the server sweep treats as due is expired for the client too; at the exact expiry instant the client already says expired while the sweep, which needs `expires_at < now`, does not yet |
| CheckInHook.CheckInView.Load | src/hooks/useCheckIn.ts:26-56 | the view shows the user's active timer as returned by `get_active` |
| CheckInHook.CheckInView.CreateTimer | src/hooks/useCheckIn.ts:58-90 | a positive duration expires the user's active timers and appends the new one, which becomes the shown timer and the user's latest active one; otherwise the store is unchanged and an error is recorded |
| CheckInHook.CheckInView.CheckIn | src/hooks/useCheckIn.ts:92-124 | a check-in succeeds exactly when the user has that active timer; then the timer is checked in, 10 points are requested and the shown timer is cleared; otherwise the store is unchanged and the error recorded |
| Gamification.NextLevelPoints | src/hooks/useGamification.ts:165-168 | 500 without a profile or with a falsy level, otherwise (level + 1) × 500 |
| Gamification.ProgressToNextLevel | src/hooks/useGamification.ts:170-176 | 0 without a profile or with falsy points; otherwise a clamped percentage of one level's 500 points; a falsy level gives a zero denominator, so the result is 100, 0 or `NaN` at exactly 500 points |
| Gamification.ProgressIsMonotone | src/hooks/useGamification.ts:170-176 | at a fixed positive level, more points never show less progress |
| Gamification.UnlockedBadges | src/hooks/useGamification.ts:156-158 | the unlocked badges are the user's badges, in order |
| Gamification.LockedBadges | src/hooks/useGamification.ts:160-163 | at most the catalogue's badges, each a catalogue badge whose id no user badge holds |
| Gamification.LockedIffNotUnlocked | src/hooks/useGamification.ts:160-163 | a catalogue badge is locked if and only if the user has not unlocked it; the locked list keeps the catalogue's order |
| JsNumbers.InverseOperations | src/components/incident/EmergencyCalculator.tsx:77-90 | adding then subtracting a number returns the start value, and so does multiplying then dividing by a non-zero one |
| JsNumbers.NatToStringRoundTrip | src/components/incident/EmergencyCalculator.tsx:69 | the decimal text of a natural number reads back as that number |
| JsNumbers.ParseFloat | src/components/incident/EmergencyCalculator.tsx:61-93 | `parseFloat` of keypad text is `NaN` exactly when the text has no digit before or right after a leading dot; otherwise it is non-negative |
| JsNumbers.ParseFloatReadsNatToString | src/components/incident/EmergencyCalculator.tsx:61-69 | `parseFloat` of the decimal text of a natural number is that number |
| EmergencyCalculator.Calculate | src/components/incident/EmergencyCalculator.tsx:77-90 | dividing by zero gives 0; an unknown operator gives the second operand; finite operands give a finite result |
| EmergencyCalculator.CalculateInverse | src/components/incident/EmergencyCalculator.tsx:77-90 | `+` is undone by `-`, and `×` by `÷` with a non-zero operand |
| EmergencyCalculator.PressKeepsKeypadText | src/components/incident/EmergencyCalculator.tsx:42-48 | typing a key keeps the display within keypad text |
| EmergencyCalculator.TypeKeysAppends | src/components/incident/EmergencyCalculator.tsx:47 | once the display is neither empty nor "0", keys are appended as typed |
| EmergencyCalculator.TypingANumberShowsIt | src/components/incident/EmergencyCalculator.tsx:42-61 | typing the digits of a number from "0" shows exactly that number, and it is read back as that value |
| EmergencyCalculator.NextCode | src/components/incident/EmergencyCalculator.tsx:51-52 | the secret-code buffer keeps the last four keys |
| EmergencyCalculator.NumberKeyCompletesCode | src/components/incident/EmergencyCalculator.tsx:51-56 | a key completes `911` if and only if the buffer held exactly `91` and the key is `1` |
| EmergencyCalculator.LastKeys | src/components/incident/EmergencyCalculator.tsx:52 | the buffer never exceeds four keys |
| EmergencyCalculator.CodeAfterIsLastKeys | src/components/incident/EmergencyCalculator.tsx:51-57 | after any key sequence the buffer holds its last four keys |
| EmergencyCalculator.CodeMatchesOnlyAsFirstKeys | src/components/incident/EmergencyCalculator.tsx:51-107 | the buffer spells `911` if and only if those were the only keys since the last clear, so `911` typed after other digits never triggers |
| EmergencyCalculator.CalculatorRequest | src/components/incident/EmergencyCalculator.tsx:128-138 | the calculator sends a silent SOS of type "other", marked as triggered by the calculator |
| EmergencyCalculator.Calculator.LoadSetting | src/components/incident/EmergencyCalculator.tsx:24-40 | with a signed-in user the trigger is enabled exactly when the profile flag is true; otherwise it stays as it was |
| EmergencyCalculator.Calculator.SecretTrigger | src/components/incident/EmergencyCalculator.tsx:118-119 | a trigger is started only when the feature is enabled |
| EmergencyCalculator.Calculator.NumberKey | src/components/incident/EmergencyCalculator.tsx:42-58 | the display takes the key, either fresh after an operator or appended; the code buffer advances, and a trigger starts exactly when it then spells `911` and the feature is enabled |
| EmergencyCalculator.Calculator.OperationKey | src/components/incident/EmergencyCalculator.tsx:60-75 | the first operator stores the value; a later one computes the pending result, treating a falsy stored value as 0, and shows it; the calculator then waits for an operand |
| EmergencyCalculator.Calculator.EqualsKey | src/components/incident/EmergencyCalculator.tsx:92-108 | with a pending operation the result is shown and the operation cleared; a trigger starts when the buffer spells `911`; the buffer is emptied |
| EmergencyCalculator.Calculator.ClearKey | src/components/incident/EmergencyCalculator.tsx:110-116 | display "0", no stored value or operation, empty code buffer |
| EmergencyCalculator.Calculator.SecretTriggerSettles | src/components/incident/EmergencyCalculator.tsx:118-152 | without a location nothing is sent; otherwise the silent SOS is sent, and on success the calculator is cleared and closed; when nothing is sent or the send fails, the display, operands and code buffer are kept |
| EmergencyCalculator.SecretCodeThenEquals | src/components/incident/EmergencyCalculator.tsx:50-107 | typing `911` and then `=` starts two triggers when the feature is enabled, one on the last `1` and one on `=`, and none otherwise |
| ShakeToAlert.Step | src/hooks/useShakeToAlert.ts:67-82 | a strong shake resets the count after a gap longer than the window, then counts; detection happens exactly when the count reaches 15 (the inner constant), and then resets it |
| ShakeToAlert.DetectionNeedsFifteenShakes | src/hooks/useShakeToAlert.ts:65-82 | each detection uses up at least 15 strong shakes |
| ShakeToAlert.QuickShakesAllCount | src/hooks/useShakeToAlert.ts:70-82 | when shakes follow each other within the window, every one counts toward a detection |
| ShakeToAlert.ShakeRequest | src/hooks/useShakeToAlert.ts:102-112 | a shake sends a silent SOS of type "other", marked as triggered by shaking |
| ShakeToAlert.ShakeDetector.constructor | src/hooks/useShakeToAlert.ts:15-27 | the window defaults to 2000 ms; the counters start at zero |
| ShakeToAlert.ShakeDetector.Install | src/hooks/useShakeToAlert.ts:29-143 | the listener is attached when enabled and motion permission is not needed or is granted; the profile preference does not stop it |
| ShakeToAlert.ShakeDetector.Uninstall | src/hooks/useShakeToAlert.ts:145-147 | the listener is removed |
| ShakeToAlert.ShakeDetector.OnMotion | src/hooks/useShakeToAlert.ts:51-88 | a motion event while not processing, with a strong acceleration, advances the count as in `Step`, and a detection starts processing; any other event changes nothing |
| ShakeToAlert.ShakeDetector.LocationResolved | src/hooks/useShakeToAlert.ts:94-125 | one pending location request settles: without a location processing ends and nothing is sent, otherwise the silent SOS is sent; either way a cooldown timer is armed |
| ShakeToAlert.ShakeDetector.CooldownElapsed | src/hooks/useShakeToAlert.ts:121-124 | any armed cooldown, including one left by an earlier detection, ends processing when it fires, even while a later detection awaits its location |
| ProfileSetup.ProfileUpdateOf | src/components/auth/ProfileSetup.tsx:143-162 | the profile update copies the form; an empty medical field or a missing avatar URL is written as null |
| ProfileSetup.SavedContactsAreTheCompleteOnes | src/components/auth/ProfileSetup.tsx:166-178 | one contact row is inserted per emergency contact that has both a name and a phone, in order |
| ProfileSetup.SavedContactsHaveNameAndPhone | src/components/auth/ProfileSetup.tsx:168-176 | every inserted contact has a name and a phone and belongs to the user |
| ProfileSetup.RemoveAt | src/components/auth/ProfileSetup.tsx:197-202 | removes the contact at an index inside the list; any other index leaves the list unchanged |
| ProfileSetup.UpdateAt | src/components/auth/ProfileSetup.tsx:204-211 | only the contact at the index can change |
| ProfileSetup.UpdateAtWritesOneField | src/components/auth/ProfileSetup.tsx:204-211 | updating a field of one contact sets that field and keeps that contact's other fields |
| ProfileSetup.AddThenRemoveRestores | src/components/auth/ProfileSetup.tsx:190-202 | adding a blank contact and removing it again restores the list |
| ProfileSetup.NextStep | src/components/auth/ProfileSetup.tsx:113-129 | moves forward one step up to step 6, where it stays |
| ProfileSetup.BackStep | src/components/auth/ProfileSetup.tsx:131-135 | moves back one step, never below step 1 |
| ProfileSetup.BackUndoesNext | src/components/auth/ProfileSetup.tsx:113-135 | going back after going forward returns to the same step |
| ProfileSetup.Wizard.EditForm | src/components/auth/ProfileSetup.tsx:72-74 | editing a form field replaces the field values and keeps the contact list |
| ProfileSetup.Wizard.AddContact | src/components/auth/ProfileSetup.tsx:190-195 | appends a blank contact |
| ProfileSetup.Wizard.RemoveContact | src/components/auth/ProfileSetup.tsx:197-202 | offered only with more than one contact; removes the contact as `RemoveAt` says |
| ProfileSetup.Wizard.UpdateContact | src/components/auth/ProfileSetup.tsx:204-211 | updates the contact as `UpdateAt` says |
| ProfileSetup.Wizard.Next | src/components/auth/ProfileSetup.tsx:113-567 | before the last step it advances, keeping an uploaded avatar URL only from the avatar step; on the last step it submits |
| ProfileSetup.Wizard.Back | src/components/auth/ProfileSetup.tsx:131-135 | offered only while not loading; moves back as `BackStep` says |
| ProfileSetup.Wizard.Submit | src/components/auth/ProfileSetup.tsx:137-188 | without a user nothing happens; otherwise the profile is written; the complete contacts are inserted and setup completes only when that write succeeds |
| RatingScreen.Merge | src/components/incident/RatingScreen.tsx:44-56 | a helper with no previous rating always gets the default entry |
| RatingScreen.UpdateRating | src/components/incident/RatingScreen.tsx:43-57 | the edited helper gains an entry and no other helper's entry changes |
| RatingScreen.UpdateIsLost | src/components/incident/RatingScreen.tsx:46-55 | as written, the edited field is overwritten by the previous values, so an update leaves the helper's entry as it was, or the default |
| RatingScreen.EditsNeverLeaveDefaults | src/components/incident/RatingScreen.tsx:43-57 | any sequence of edits from an empty form leaves every entry at the default, unrated |
| RatingScreen.ResponseMinutes | src/components/incident/RatingScreen.tsx:59-64 | the response time is rounded to the nearest minute, measured to arrival or to now |
| RatingScreen.StopIndex | src/components/incident/RatingScreen.tsx:69-91 | submission stops at the first helper who is unrated or whose write fails |
| RatingScreen.WrittenUpdates | src/components/incident/RatingScreen.tsx:78-88 | the updates written are those of the helpers before the stop, in order |
| RatingScreen.StopIndexIsFirstStop | src/components/incident/RatingScreen.tsx:69-91 | any index with every earlier helper rated and written, and a stop at the index itself, is the stop |
| RatingScreen.SubmitCompletesIffAllRated | src/components/incident/RatingScreen.tsx:69-94 | submission completes if and only if every helper is rated and written; with no helpers it completes at once |
| RatingScreen.FilledFormStopsAtFirstHelper | src/components/incident/RatingScreen.tsx:43-75 | as written, a form filled only through the editor never submits, stopping at the first helper |
| RatingScreen.RatingForm.Update | src/components/incident/RatingScreen.tsx:43-57 | the form's ratings change as `UpdateRating` says |
| RatingScreen.RatingForm.Submit | src/components/incident/RatingScreen.tsx:66-101 | writes the updates up to the stop, reports all rated, missing rating or store error at the stop, completes only when all are rated, and ends not submitting |
| SosButton.Progress | src/components/SOSButton.tsx:31-32 | progress is capped at 100 and reaches it exactly when the hold lasted 2000 ms |
| SosButton.ProgressIsMonotone | src/components/SOSButton.tsx:31-32 | holding longer never shows less progress |
| SosButton.Cleared | src/components/SOSButton.tsx:36-38 | clearing stops only the latest interval handle; every other running interval and its start time are kept |
| SosButton.Button.Press | src/components/SOSButton.tsx:25-43 | pressing an unactivated button starts a new interval, makes it the latest and resets the progress to 0, without stopping an interval that is already running |
| SosButton.Button.Tick | src/components/SOSButton.tsx:30-42 | a tick of any running interval shows the progress since its press; at 100 the button activates and only the latest interval is cleared |
| SosButton.Button.Release | src/components/SOSButton.tsx:45-153 | releasing an unactivated button stops the latest interval and empties the ring |
| SosButton.Button.Cancel | src/components/SOSButton.tsx:55-59 | cancelling deactivates and resets the progress |
| SosButton.HoldToActivate | src/components/SOSButton.tsx:25-42 | a press followed by a tick at least 2000 ms later activates the button at full progress and stops its own interval |
| SosButton.SecondPressLeavesFirstInterval | src/components/SOSButton.tsx:25-53 | press, press, release leaves the first interval running, and each of its ticks after two seconds fires the alarm again |
| SosModal.TypeRule | src/components/incident/SOSModal.tsx:61-68 | choosing "assault" turns police on, "medical" turns the ambulance on, and nothing is turned off |
| SosModal.TypeRuleIsIdempotentAndAdds | src/components/incident/SOSModal.tsx:61-68 | applying the auto-contact effect twice for one type equals applying it once, and the effects of two types commute |
| SosModal.SendRequest | src/components/incident/SOSModal.tsx:173-184 | the dialog sends an SOS carrying the chosen type, description, silence, voice note and auto-contact choices |
| SosModal.SosDialog.SelectType | src/components/incident/SOSModal.tsx:61-68 | selecting a type sets it; the auto-contact rule runs only when the type differs from the current one, so re-clicking the chosen type leaves the switches as the user set them |
| SosModal.ReselectKeepsSwitchedOffPolice | src/components/incident/SOSModal.tsx:61-68 | selecting assault, switching police off and clicking assault again leaves police off and every other switch as it was |
| SosModal.SosDialog.Toggle | src/components/incident/SOSModal.tsx:314-373 | a shown switch sets exactly its own auto-contact flag; police is shown only for assault and ambulance only for medical |
| SosModal.SosDialog.Send | src/components/incident/SOSModal.tsx:151-202 | without a type or a location nothing is sent; otherwise the SOS is sent, with the voice note only when one was recorded; on success the form resets and the dialog closes |
| ResponderEta.SortedResponders | src/components/demo/ResponderETA.tsx:23 | responders are listed as a permutation sorted by ETA |
| ResponderEta.FastestHasMinimumEta | src/components/demo/ResponderETA.tsx:23-88 | the count is the number of responders; a fastest responder is shown exactly when there is one, and it has the smallest ETA |
| ResponderView.EmergencyTypeShown | src/components/demo/ResponderView.tsx:62 | the emergency type, else the incident type, else "other" |
| ResponderView.OtherResponders | src/components/demo/ResponderView.tsx:65-68 | in demo mode two extra responders trail by 2 and 4 minutes and 0.5 and 1.2 km; otherwise there are none |
| ResponderView.Pad2 | src/components/demo/ResponderView.tsx:73 | the seconds are two digits that read back as their value |
| ResponderView.FormatTime | src/components/demo/ResponderView.tsx:70-74 | the text is minute digits, a colon and two second digits whose value is the seconds modulo 60 |
| ResponderView.FormatTimeRoundTrip | src/components/demo/ResponderView.tsx:70-74 | the `m:ss` text reads back as the number of seconds |
| ResponderView.Tick | src/components/demo/ResponderView.tsx:50-57 | each second adds one to the elapsed time and never takes the ETA or the distance below zero |
| ResponderView.CountdownClosedForm | src/components/demo/ResponderView.tsx:47-60 | after n ticks the ETA and the distance have each dropped by one step per started ten seconds, at most 4 steps |
| ResponderView.StepsGrowAtMultiplesOfTen | src/components/demo/ResponderView.tsx:53 | a step happens on the tick whose elapsed time before it is a multiple of ten |
| ResponderView.DemoCountdown.OnInterval | src/components/demo/ResponderView.tsx:50-57 | each interval applies one tick |
| Leaderboard.TopProfiles | src/pages/ProfilePage.tsx:50-54 | min(20, table size) profiles from the table, by points descending |
| Leaderboard.TopProfilesKeepsHighest | src/pages/ProfilePage.tsx:50-54 | the leaderboard and the rows it cuts off together are the whole table, and no row cut off has more points than one kept |
| Leaderboard.EntryOf | src/pages/ProfilePage.tsx:59-69 | an entry shows the name or "User", the level or 1 (never 0), and the points or 0 as both XP and points |
| Leaderboard.Ranked | src/pages/ProfilePage.tsx:59-69 | entry i has rank i + 1 and is built from row i |
| Leaderboard.RanksAreConsecutive | src/pages/ProfilePage.tsx:59-60 | ranks are 1, 2, 3, … and strictly increasing |
| Leaderboard.UserRank | src/pages/ProfilePage.tsx:73-77 | the user's rank is the position of the user's first entry, or none exactly when the user is not on the board |
| Leaderboard.UserRankIsEntryRank | src/pages/ProfilePage.tsx:59-77 | the rank shown for the user equals the rank field of that entry |
| Leaderboard.Podium | src/pages/ProfilePage.tsx:300 | the podium is shown exactly when there are at least three entries, and it shows the first three |
| Leaderboard.BelowPodium | src/pages/ProfilePage.tsx:380-384 | the list shows the entries after the third, and none when there are fewer than three |
| Leaderboard.EveryEntryShownOnceFromThree | src/pages/ProfilePage.tsx:300-384 | with at least three entries, podium and list together show every entry once, in order; with fewer, nothing is shown |
| Leaderboard.ShownLevelAndXp | src/pages/ProfilePage.tsx:92-93 | the header shows the level or 1 and the points or 0 |

## Left out

- Authentication, CORS headers and the HTTP wrapping of the edge functions are not modelled. The caller is a parameter and every error is an `Err` value with the thrown message.
- Realtime channels, `setTimeout`/`setInterval` scheduling, geolocation, the microphone, file uploads and push notifications are not modelled. Their results are parameters: a position, an uploaded URL, a tick time, or a failure flag.
- The bodies of the stored procedures are not modelled. `award_user_points` is modelled as a credit to a points ledger; the others are only recorded as calls. The reply of `award-points` carries the new balance.
- The client fetch wrappers in src/hooks/useIncidents.ts:77-192 are not modelled. They forward to the edge functions, which are.
- Store errors other than the modelled failure inputs are not modelled. For example, a failed timer insert in `create` (check-in-timer index.ts:80-82) and a failed expiry update in the sweep are not modelled.
- Concurrency between requests is not modelled, and neither is the stale React state captured by closures, such as the `secretCode` read in `handleEquals`. Each operation runs atomically on the state it is given.
- Numbers are mathematical: points are `int` and coordinates are `real`. `JsNumbers` models `NaN` and the infinities only where the calculator and the level progress can reach them. `String(number)` is modelled only for naturals.
- Row ids are `nat` handed out in increasing order. Table order stands in for `created_at` order in `get_active`, and equal timestamps are taken as already ordered.
- Postgres ordering of null points on the leaderboard is not modelled; a missing value is sorted as 0.
- The generated avatar URL and the avatar images are not modelled.
- Gamification.ProgressIsMonotone: proved only for a positive level, because at level 0 the division by zero gives `NaN` or an infinity.
- ResponderView.CountdownClosedForm: follows the demo countdown from its start values. Other start values are not modelled.
- CheckInTimer.Handle: states only the shape of each action's result and the timer table. The other effects are stated by the method each action calls.
- ResolveIncident.PayHelpers: records a payout entry for every award that does not fail. The source also needs a truthy RPC result and spreads that result into the entry (resolve-incident index.ts:116-120). That result is the stored procedure's reply, which is not modelled.
- TriggerSos.HasRequiredFields: `type` is the incident-kind enumeration. The source accepts any non-empty `type` string, and a value outside the enumeration fails only at the insert (trigger-sos index.ts:67-76), which is not modelled.
