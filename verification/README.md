# StoreMessageContentActivity: the message-admission decision

This project models the store-message-content activity of the IO
notification services in Dafny. The activity is given a newly created
message for a citizen. It decides whether the message content may be
stored in the citizen's inbox. If it may, the activity stores the content
and makes the message visible.

The steps, in order:

1. The input event is decoded. If it does not decode, the result is FAILURE `BAD_DATA`.
2. The recipient's profile is fetched.
   - A store error throws, so that the caller retries.
   - No profile gives FAILURE `PROFILE_NOT_FOUND`.
3. If the master inbox flag is not exactly `true`, the result is `MASTER_INBOX_DISABLED`.
4. The legacy per-service block list is read from the profile. A missing block map or entry gives the empty list.
5. The preference mode gives a verdict.
   - LEGACY gives no verdict and does not read the preference store.
   - MANUAL and AUTO read the preference keyed by (fiscal code, sender service, preferences version).
   - No record admits only in AUTO mode.
   - A record admits when its `isInboxEnabled` is true.
   - A failed read gives no verdict.
   - "No verdict" falls back to "INBOX is not in the legacy list".
6. If the message is not admitted, the result is `SENDER_BLOCKED`. Nothing is stored.
7. Otherwise the content is written to blob storage unchanged.
8. Then the message is upserted with `isPending` set to false.
9. The result is SUCCESS, with the legacy list and the fetched profile. A failure of either write throws.

The model is made of these parts:

- `wrappers.dfy`: Option and Either.
- `models.dfy`: the profile, the preference, the event, the lookup and write answers, and the result union. `PERMANENT_ERROR` is declared but never produced.
- `calls.dfy`: the log of calls made on the collaborators, and a count per collaborator.
- `permission.dfy`: the pure decision functions and the lemmas about the decision table.
- `handler.dfy`:
  - the class `Collaborators`: each of its methods answers with a configured outcome and appends the call to `calls`;
  - the imperative `Handle` method and `GetPermissionToCreateMessage`;
  - the specification `Run`, split into the stages `Admit` and `Persist`;
  - the lemmas about whole runs.

`Handle` is proved to return `Run(...).outcome` and to extend the call log by exactly `Run(...).calls`. The lemmas about `Run` therefore hold of the handler's observable behaviour: what it returns or throws, and which collaborators it calls, with which arguments and in which order.

## Model

| member | source | states |
|---|---|---|
| `Permission.IndexOf` | StoreMessageContentActivity/handler.ts:202-203 | `indexOf` gives the first position of the channel, or -1. It is non-negative exactly when the channel is in the list. |
| `Permission.BlockedChannelsFor` | StoreMessageContentActivity/handler.ts:181-183 | The legacy list is the profile's entry for the sender service. It is empty when the block map or the entry is missing. |
| `Permission.PermissionToCreateMessage` | StoreMessageContentActivity/handler.ts:75-105 | LEGACY gives Left with its fixed message. MANUAL/AUTO give Left exactly on a failed read, with message `COSMOSDB|ERROR=<kind>`. No record gives Right(mode is AUTO). A record gives Right(its isInboxEnabled). |
| `Permission.IsMessageStorageAllowed` | StoreMessageContentActivity/handler.ts:198-206 | A Right verdict is taken as it is. Any Left admits exactly when INBOX is not in the legacy list. |
| `Permission.Admission` | StoreMessageContentActivity/handler.ts:192-206 | The verdict fold: the profile's mode (line 195) gives the verdict, and a missing verdict falls back to the legacy list. In LEGACY mode, admission holds iff INBOX is not in the legacy list. `Permission.AdmissionTable` gives its meaning in every mode. |
| `Permission.AdmissionTable` | StoreMessageContentActivity/handler.ts:83-104 | The whole decision, mode by mode. LEGACY and a failed read follow the legacy INBOX block. MANUAL/AUTO with no record admit iff the mode is AUTO. With a record they admit iff its isInboxEnabled. |
| `Permission.PreferenceErrorFallsBackToLegacy` | StoreMessageContentActivity/handler.ts:93-95 | In MANUAL/AUTO, a failed preference read decides exactly as the same profile in LEGACY mode. |
| `Permission.BlockedChannelsIgnoreSettings` | StoreMessageContentActivity/handler.ts:181-183 | The legacy list does not depend on the preference mode or version. |
| `StoreMessageContentActivity.Collaborators.constructor` | StoreMessageContentActivity/handler.ts:110-115 | The collaborators start with the given answers and an empty call log. |
| `StoreMessageContentActivity.Collaborators.FindLastVersionByModelId` | StoreMessageContentActivity/handler.ts:143-145 | The profile read logs its fiscal code and returns the configured answer. |
| `StoreMessageContentActivity.Collaborators.FindServicePreference` | StoreMessageContentActivity/handler.ts:87-94 | The preference read logs its key (fiscal code, service, version) and returns the configured answer. |
| `StoreMessageContentActivity.Collaborators.StoreContentAsBlob` | StoreMessageContentActivity/handler.ts:217-223 | The blob write logs the message id and the content, and returns the configured answer. |
| `StoreMessageContentActivity.Collaborators.Upsert` | StoreMessageContentActivity/handler.ts:232-237 | The upsert logs the message written and returns the configured answer. |
| `StoreMessageContentActivity.PermissionCalls` | StoreMessageContentActivity/handler.ts:83-94 | The verdict makes no call in LEGACY mode. Otherwise it makes exactly one preference read, keyed by fiscal code, service and version. |
| `StoreMessageContentActivity.GetPermissionToCreateMessage` | StoreMessageContentActivity/handler.ts:75-105 | Returns the verdict of `PermissionToCreateMessage` on the store's answer. Appends exactly `PermissionCalls` to the log. |
| `StoreMessageContentActivity.Visible` | StoreMessageContentActivity/handler.ts:233-236 | The upserted message has `isPending` false. In every other field it equals the input message. |
| `StoreMessageContentActivity.Persist` | StoreMessageContentActivity/handler.ts:214-254 | The blob write is always the first call and gets the event's content unchanged. The upsert follows only when the blob write succeeded. Each failure throws its own error. The activity returns only when both writes succeed, and then returns SUCCESS(blocked, profile). |
| `StoreMessageContentActivity.Admit` | StoreMessageContentActivity/handler.ts:167-258 | MASTER_INBOX_DISABLED happens iff the master inbox flag is not `true`, and then no call is made. An admitted message goes on to exactly `Persist`'s execution, after the preference calls. LEGACY never reads preferences. SENDER_BLOCKED happens iff the inbox is enabled and admission is false, and then there is no blob write and no upsert. The only failures are MASTER_INBOX_DISABLED and SENDER_BLOCKED. SUCCESS carries the legacy list and the profile. |
| `StoreMessageContentActivity.Run` | StoreMessageContentActivity/handler.ts:119-163 | BAD_DATA iff the input does not decode, and then no call. Otherwise the profile read is the first call. A profile-read error throws after that call alone. PROFILE_NOT_FOUND iff no profile, after one call. PERMANENT_ERROR is never produced. SUCCESS carries the fetched profile. |
| `StoreMessageContentActivity.Handle` | StoreMessageContentActivity/handler.ts:110-258 | The handler returns or throws what `Run` says. Its collaborator calls are exactly `Run`'s call log, in order. |
| `StoreMessageContentActivity.MasterInboxDisabledBeforeAnyOtherCall` | StoreMessageContentActivity/handler.ts:171-178 | With the flag not exactly `true`, the run is MASTER_INBOX_DISABLED after the profile read alone. This holds whatever the mode, preference and storage answers. |
| `StoreMessageContentActivity.LegacyModeUsesOnlyTheBlockList` | StoreMessageContentActivity/handler.ts:83-85 | In LEGACY mode the preference store is never read. SENDER_BLOCKED happens iff INBOX is in the legacy list. |
| `StoreMessageContentActivity.PreferenceModeDecidesAdmission` | StoreMessageContentActivity/handler.ts:96-104 | In MANUAL/AUTO the second call is the keyed preference read. Without a record the sender is blocked iff the mode is MANUAL. With a record it is blocked iff the record's isInboxEnabled is false. |
| `StoreMessageContentActivity.PreferenceErrorIsNotThrown` | StoreMessageContentActivity/handler.ts:192-206 | A failed preference read is made once and is not thrown. SENDER_BLOCKED happens iff INBOX is in the legacy list. Only a failed write can throw. |
| `StoreMessageContentActivity.SuccessfulRunCalls` | StoreMessageContentActivity/handler.ts:181-254 | A SUCCESS run made exactly these calls, in order: the profile read, the preference read (not in LEGACY), the blob write of the unchanged content, and the upsert of the message made visible. The run returned the legacy list and the fetched profile. |
| `StoreMessageContentActivity.AdmittedMessageIsPersisted` | StoreMessageContentActivity/handler.ts:214-254 | For an admitted message in a whole run: a failed blob write throws STORE_CONTENT_ERROR, and no upsert is made. A failed upsert throws the pending-update error after one blob write and one upsert. Two successful writes return SUCCESS with the legacy list and the fetched profile. |
| `StoreMessageContentActivity.PersistCallsEachStoreOnce` | StoreMessageContentActivity/handler.ts:217-237 | Persistence calls the blob store and the message store at most once each, and no other collaborator. |
| `StoreMessageContentActivity.AdmitCallsEachOnce` | StoreMessageContentActivity/handler.ts:180-237 | After the profile read, each other collaborator is called at most once, and the profile store is not called again. |
| `StoreMessageContentActivity.AtMostOneCallEach` | StoreMessageContentActivity/handler.ts:119-258 | In every run, each collaborator is called at most once. |
| `StoreMessageContentActivity.BlockedChannelsDoNotDependOnMode` | StoreMessageContentActivity/handler.ts:181-183 | Two profiles that differ only in their preference settings get the same blocked channels back, in any two successful runs. |
| `StoreMessageContentActivity.AutoModeReturnsLegacyBlockList` | StoreMessageContentActivity/handler.ts:248-254 | Take AUTO mode, no preference record and a legacy `[INBOX]` block. The message is stored and SUCCESS returns `[INBOX]`. |

## Left out

- Decoding the input with `CreatedMessageEvent.decode` is a foreign call. The model takes its outcome as `Option<CreatedMessageEvent>`.
- The error report of a failed decode is not modelled.
- The preference document id (`makeServicesPreferencesDocumentId`) is a foreign call. The call log records its three parts (fiscal code, service id, version) instead. The unchecked cast of the version to a non-negative integer is not modelled either: the version is passed on as it is.
- The Cosmos models, the blob service and the message model are collaborators. Each answers a call with an outcome fixed per run, not one that depends on the key. Since every collaborator is called at most once per run (`AtMostOneCallEach`), this loses no behaviour.
- The blob reference returned by the blob write and the message returned by the upsert are not modelled. The activity only checks whether each write failed.
- Logging through `context.log` is left out. So are the texts of the Left errors beyond their messages.
- The Promise and TaskEither mechanics are left out. The flow is strictly sequential, so it is modelled as ordinary results with early return. A throw is the `Thrown` outcome.
- A collaborator whose promise rejects instead of answering Left is not modelled.
- The sender metadata and the service version of the event are not modelled. This handler does not read them.
- Channel values: only INBOX takes part in the decision. EMAIL and WEBHOOK stand for the other channels the block list may hold.
- GetService/handler.ts and UploadServiceLogo/handler.ts are HTTP proxies to an external admin API, with no decision logic of their own. EmailNotification composes and sends email through foreign libraries. None of these is part of this model.

### Test behaviour that this handler does not have

The handler's test file (`StoreMessageContentActivity/__tests__/handler.test.ts`) builds a newer handler: it passes the factory an options object (lines 257-268). It also asserts behaviour that handler.ts does not implement. The model follows handler.ts:

- **Activation gating for special-category senders** (test lines 213-220 and 374-379, and the activation-read failures at lines 449-450): not implemented in handler.ts. The model has no activation store.
- **Email opt-out override by timestamp** (test lines 211-212 and 219-220): not implemented. The returned profile is always the fetched one.
- **Payee completion in payment data** (test lines 293-295): not implemented. `Persist` stores the event content unchanged, including payment data without a payee.
- **EMAIL blocked by a preference with `isEmailEnabled:false`** (test lines 206, 208, 214 and 216): not implemented. The returned list is always the legacy list.
- **An empty blocked list under AUTO despite a legacy INBOX block** (test line 204): handler.ts returns the legacy list. `AutoModeReturnsLegacyBlockList` shows `[INBOX]` is returned.
- **Throwing on a preference-read error** (test lines 447-448): handler.ts folds the error into the legacy fallback. `PreferenceErrorIsNotThrown` shows this.
