# Device linking and contact sync

This project models the part of a Signal Android fork that makes a device a
linked (secondary) device of an existing account and then pulls the account's
state from the other devices:

- `LinkingService.handleLinkIntent` runs the provisioning handshake. It asks
  for a provisioning uuid and broadcasts a `tsdevice:` link that carries the
  uuid and a temporary public key. It then finishes the registration, hands
  over the push token, stores the assigned account in preferences, uploads
  prekeys, and saves its own identity as verified. Last, it enqueues the jobs
  that request the account's profile, groups, contacts, blocked list and
  configuration.
- `GroupSyncRequestJob`, `ContactSyncRequestJob` and `BlockedSyncRequestJob`
  each send one sync request of their type to the other devices and never
  retry.
- `UpdateContactJob` fetches the contact attachment that answers the
  contacts request. It decodes the attachment as a stream of contact details,
  each followed by its avatar bytes. It reconciles every contact into the
  recipient and identity databases and enqueues a profile job per contact.

Modules, one per file:

- `Common` (common.dfy): options and results, bytes and Java integer widths,
  exceptions, job parameters, and the library codecs (Base64, URL encoding,
  colour parsing). The codecs are passed as a value because their code is not
  part of this model.
- `LocalState` (local_state.dfy): the device's state as a class `Device`. It
  holds the recipient and identity databases and an ordered log of every
  outward effect: preference writes, account-manager requests, local
  broadcasts, enqueued jobs and sent messages. A preference holds its last
  write in the log (`StoredPref`).
- `ContactStream` (contact_stream.dfy): the contact stream and `readList`.
  The loop in `ReadList` is proved equal to the specification `Decode`, and
  `Decode` is proved to invert `Encode`.
- `UpdateContactJob` (update_contact_job.dfy): construction, persistence
  round trip, retry policy, and the run as a loop over the decoded contacts,
  proved equal to a fold of `ApplyContact`.
- `SyncRequestJobs` (sync_request_jobs.dfy): the three sync request jobs as
  one job over the request type.
- `LinkingService` (linking_service.dfy): the handshake as seven stages. Each
  stage is a method, and each ends at a step that can throw. `Reached` says
  how far a run gets. `HandleLinkIntent` is proved to perform exactly
  `LinkTrace`, the effects of the stages that ran. The lemmas then cover the
  ordering, no-rollback, success-reporting and stored-value properties.

The mapping of verified states at UpdateContactJob.java:163-169 sends
`VERIFIED` to no status at all, because its third branch tests `UNVERIFIED`
a second time. That mapping is modelled as written (`StatusFor`) and listed
under Findings. The rest of the model uses the corrected mapping.

## Model

| member | source | states |
|---|---|---|
| `ContactStream.ReadAt` | src/org/thoughtcrime/securesms/jobs/UpdateContactJob.java:224 | `read()` gives null exactly at the end of the stream, the contact when a details record starts at the position, and an `IOException` exactly when it would start inside avatar bytes |
| `ContactStream.AvatarEnd` | src/org/thoughtcrime/securesms/jobs/UpdateContactJob.java:226-231 | draining the avatar advances the stream by the announced length, or to its end if the stream is shorter; no avatar, no movement |
| `ContactStream.ReadList` | src/org/thoughtcrime/securesms/jobs/UpdateContactJob.java:222-236 | the read-and-drain loop returns exactly `Decode(s, 0)`: every contact in stream order, or the first read failure |
| `ContactStream.DecodeShift` | src/org/thoughtcrime/securesms/jobs/UpdateContactJob.java:224-233 | decoding from a position does not depend on what precedes it in the stream |
| `ContactStream.DecodeEncode` | src/org/thoughtcrime/securesms/jobs/UpdateContactJob.java:222-236 | for well-formed contacts with any avatars, `readList` on their encoding returns exactly those contacts in order |
| `ContactStream.UndrainedReaderFails` | src/org/thoughtcrime/securesms/jobs/UpdateContactJob.java:227-230 | without the drain, a first contact with a non-empty avatar leaves the next `read()` inside avatar bytes, so the whole list fails |
| `LocalState.WithProfileKey` | src/org/thoughtcrime/securesms/jobs/UpdateContactJob.java:144 | sets one row's profile key, creating the row if absent; every other row is unchanged |
| `LocalState.WithColor` | src/org/thoughtcrime/securesms/jobs/UpdateContactJob.java:148 | sets one row's colour; every other row is unchanged |
| `LocalState.WithName` | src/org/thoughtcrime/securesms/jobs/UpdateContactJob.java:155 | sets one row's name; every other row is unchanged |
| `LocalState.StoredAfterWrites` | src/org/thoughtcrime/securesms/service/LinkingService.java:107-135 | effects that write a key, and only ever with one value, leave that value stored whatever came before |
| `LocalState.StoredPastUntouched` | src/org/thoughtcrime/securesms/service/LinkingService.java:107-135 | effects that never write a key leave its stored value as it was |
| `LocalState.EnqueuedJobsAppend` | src/org/thoughtcrime/securesms/service/LinkingService.java:146-152 | the jobs handed over by two runs of effects are those of the first followed by those of the second |
| `LocalState.Device.Emit` | src/org/thoughtcrime/securesms/service/LinkingService.java:91 | an effect is appended to the log and nothing else changes |
| `LocalState.Device.SetProfileKey` | src/org/thoughtcrime/securesms/service/LinkingService.java:145 | the recipient database becomes `WithProfileKey` of the old one |
| `LocalState.Device.SetColor` | src/org/thoughtcrime/securesms/jobs/UpdateContactJob.java:148 | the recipient database becomes `WithColor` of the old one |
| `LocalState.Device.SetName` | src/org/thoughtcrime/securesms/jobs/UpdateContactJob.java:155 | the recipient database becomes `WithName` of the old one |
| `LocalState.Device.SaveIdentity` | src/org/thoughtcrime/securesms/jobs/UpdateContactJob.java:171 | the identity row for the address is replaced; all other rows stay |
| `UpdateContactJob.NewUpdateContactJob` | src/org/thoughtcrime/securesms/jobs/UpdateContactJob.java:74-80 | a network constraint, at most 10 attempts, and the given pointer |
| `UpdateContactJob.Serialize` | src/org/thoughtcrime/securesms/jobs/UpdateContactJob.java:88-96 | a null pointer throws `NullPointerException`; an absent size or digest throws `IllegalStateException` from `get()`; otherwise exactly the five keys, with the pointer's id, content type and size, and its key and digest in Base64 |
| `UpdateContactJob.Create` | src/org/thoughtcrime/securesms/jobs/UpdateContactJob.java:194-212 | in the order the getters run: a missing id, content type or key escapes as an unchecked exception; a key that does not decode gives a job with a null pointer; then a missing size or digest escapes; a digest that does not decode gives a null pointer; otherwise the job's pointer is built from exactly the stored id, content type, decoded key, size and decoded digest, with the defaults of lines 201-206 elsewhere |
| `UpdateContactJob.CreateAfterSerialize` | src/org/thoughtcrime/securesms/jobs/UpdateContactJob.java:88-212 | when Base64 decoding inverts encoding, a job with a pointer, size and digest serializes, and restoring it gives the same parameters and a pointer equal to the original with its unpersisted fields at their defaults |
| `UpdateContactJob.FactoryKey` | src/org/thoughtcrime/securesms/jobs/UpdateContactJob.java:98-101 | the factory key is `"UpdateContactJob"` |
| `UpdateContactJob.OnCanceled` | src/org/thoughtcrime/securesms/jobs/UpdateContactJob.java:182-183 | cancelling changes nothing |
| `UpdateContactJob.ShouldRetry` | src/org/thoughtcrime/securesms/jobs/UpdateContactJob.java:186-189 | retried exactly for an `IOException` of any kind |
| `UpdateContactJob.StatusFor` | src/org/thoughtcrime/securesms/jobs/UpdateContactJob.java:158-169 | as written: `DEFAULT` and `UNVERIFIED` map to their namesakes and `VERIFIED` to no status |
| `UpdateContactJob.StatusForLosesVerified` | src/org/thoughtcrime/securesms/jobs/UpdateContactJob.java:167 | the written mapping never produces the `VERIFIED` status |
| `UpdateContactJob.IntendedStatusForIsFaithful` | src/org/thoughtcrime/securesms/jobs/UpdateContactJob.java:163-169 | the corrected mapping is injective, agrees with the written one wherever that gives a status, and the written one fails exactly on `VERIFIED` |
| `UpdateContactJob.VerifiedIdentity` | src/org/thoughtcrime/securesms/jobs/UpdateContactJob.java:158-171 | the saved row carries the contact's identity key, the corrected status of its state (see Findings; the code as written saves no status for `VERIFIED`), first use, non-blocking approval and the run's time |
| `UpdateContactJob.ProfileJobs` | src/org/thoughtcrime/securesms/jobs/UpdateContactJob.java:131-178 | one profile job per decoded contact, in list order, for that contact's number |
| `UpdateContactJob.SelfContactTouchesOnlySelf` | src/org/thoughtcrime/securesms/jobs/UpdateContactJob.java:132-138 | the contact for the local number sets self's profile key from the stored preference, and only if it decodes; no other row and no identity changes |
| `UpdateContactJob.OtherContactTouchesOnlyItself` | src/org/thoughtcrime/securesms/jobs/UpdateContactJob.java:139-177 | another contact changes only its own recipient and identity rows |
| `UpdateContactJob.GuardedWrites` | src/org/thoughtcrime/securesms/jobs/UpdateContactJob.java:143-172 | each field is written exactly when present (a colour must also parse) and otherwise kept; the identity is saved exactly when a verified message is present |
| `UpdateContactJob.ApplyContactIdempotent` | src/org/thoughtcrime/securesms/jobs/UpdateContactJob.java:139-172 | reconciling the same contact twice leaves the databases as reconciling it once |
| `UpdateContactJob.ReconcileContact` | src/org/thoughtcrime/securesms/jobs/UpdateContactJob.java:132-177 | one loop iteration: the databases become `ApplyContact` of the old ones and exactly one profile job is appended |
| `UpdateContactJob.OnRun` | src/org/thoughtcrime/securesms/jobs/UpdateContactJob.java:104-180 | a failed retrieval or undecodable stream ends the run with nothing written or enqueued; otherwise the databases are the contacts folded in order and the log gains one profile job per contact |
| `UpdateContactJob.OneProfileJobPerWrittenContact` | src/org/thoughtcrime/securesms/jobs/UpdateContactJob.java:122-178 | for a stream of well-formed contacts, the run enqueues one profile job per written contact, in written order |
| `SyncRequestJobs.NewSyncRequestJob` | src/org/thoughtcrime/securesms/jobs/GroupSyncRequestJob.java:35-40 | every variant requires the network and sets no attempt bound |
| `SyncRequestJobs.FactoryKey` | src/org/thoughtcrime/securesms/jobs/ContactSyncRequestJob.java:46-49 | the contacts and blocked jobs have their class names as factory keys; the group job has none |
| `SyncRequestJobs.Serialize` | src/org/thoughtcrime/securesms/jobs/GroupSyncRequestJob.java:65-69 | nothing is persisted (null) |
| `SyncRequestJobs.Create` | src/org/thoughtcrime/securesms/jobs/ContactSyncRequestJob.java:75-81 | the factory builds a fresh job of its type |
| `SyncRequestJobs.CreateIgnoresItsInput` | src/org/thoughtcrime/securesms/jobs/BlockedSyncRequestJob.java:75-81 | the restored job does not depend on the stored parameters or data |
| `SyncRequestJobs.ShouldRetry` | src/org/thoughtcrime/securesms/jobs/GroupSyncRequestJob.java:55-58 | no failure is retried |
| `SyncRequestJobs.Request` | src/org/thoughtcrime/securesms/jobs/GroupSyncRequestJob.java:44-46 | the message is a sync request of the job's type |
| `SyncRequestJobs.OnRun` | src/org/thoughtcrime/securesms/jobs/ContactSyncRequestJob.java:34-44 | exactly one send of the request with no target, and the run never throws, since anything the send throws is caught |
| `SyncRequestJobs.OnAdded` | src/org/thoughtcrime/securesms/jobs/GroupSyncRequestJob.java:60-63 | changes nothing |
| `SyncRequestJobs.OnCanceled` | src/org/thoughtcrime/securesms/jobs/BlockedSyncRequestJob.java:70-73 | changes nothing |
| `SyncRequestJobs.Initialize` | src/org/thoughtcrime/securesms/jobs/ContactSyncRequestJob.java:66-68 | changes nothing |
| `LinkingService.DeviceLink` | src/org/thoughtcrime/securesms/service/LinkingService.java:87 | the link starts with `tsdevice:/?uuid=` |
| `LinkingService.DeviceLinkRoundTrip` | src/org/thoughtcrime/securesms/service/LinkingService.java:87 | under the URL-codec laws, splitting the link at its first `&` gives back the uuid and the unpadded Base64 public key |
| `LinkingService.DeviceName` | src/org/thoughtcrime/securesms/service/LinkingService.java:96 | the device name starts with `androidtest-` |
| `LinkingService.FinishRequest` | src/org/thoughtcrime/securesms/service/LinkingService.java:97 | registration is finished without SMS support, with message fetching, and with the generated signaling key and registration id |
| `LinkingService.SetupJobs` | src/org/thoughtcrime/securesms/service/LinkingService.java:146-152 | five jobs: the own profile first, then the group, contact, blocked and configuration sync requests in that order |
| `LinkingService.EnqueuedJobsOfEnqueueAll` | src/org/thoughtcrime/securesms/service/LinkingService.java:146-152 | enqueuing a list of jobs hands exactly that list to the job manager |
| `LinkingService.Segment` | src/org/thoughtcrime/securesms/service/LinkingService.java:82-156 | every stage does something |
| `LinkingService.StagesEndAtRequests` | src/org/thoughtcrime/securesms/service/LinkingService.java:86-134 | each stage makes at most one account-manager request, as its last effect, and every stage other than stage 4 (which ends where a missing push token throws) and the last ends at one |
| `LinkingService.Reached` | src/org/thoughtcrime/securesms/service/LinkingService.java:80-159 | a run gets through at most the last stage, and without a push token through at most the registration flags |
| `LinkingService.CompletesIffNothingFails` | src/org/thoughtcrime/securesms/service/LinkingService.java:80-159 | a run completes exactly when no request throws and a push token exists |
| `LinkingService.SelfIdentity` | src/org/thoughtcrime/securesms/service/LinkingService.java:119-120 | the own identity is saved with its public key, verified, first use, approved, at the run's time |
| `LinkingService.RequestDeviceUuid` | src/org/thoughtcrime/securesms/service/LinkingService.java:82-86 | stage 0: the uuid request, made with the generated password |
| `LinkingService.AnnounceAndFinish` | src/org/thoughtcrime/securesms/service/LinkingService.java:87-97 | stage 1: the link broadcast, then the finishing request |
| `LinkingService.UploadPushToken` | src/org/thoughtcrime/securesms/service/LinkingService.java:98-99 | stage 2: the push token request, whether or not a token exists |
| `LinkingService.StoreAccountAndUploadPreKeys` | src/org/thoughtcrime/securesms/service/LinkingService.java:107-116 | stage 3: device id, number and identity keys stored, then the prekey upload |
| `LinkingService.SaveSelfAndMarkRegistered` | src/org/thoughtcrime/securesms/service/LinkingService.java:119-127 | stage 4: own identity saved as verified, then the six registration preferences |
| `LinkingService.StoreSettings` | src/org/thoughtcrime/securesms/service/LinkingService.java:128-134 | stage 5: token, settings, registration id and Base64 profile key stored, then the certificate request |
| `LinkingService.CompleteLink` | src/org/thoughtcrime/securesms/service/LinkingService.java:134-156 | stage 6: certificate and signaling key stored, self's profile key set, the setup jobs enqueued, `LINKING_EVENT` broadcast |
| `LinkingService.HandleLinkIntent` | src/org/thoughtcrime/securesms/service/LinkingService.java:79-160 | the run performs exactly the stages it reaches; the own identity is saved exactly when the prekey upload succeeded; self's profile key is set exactly when the run completed |
| `LinkingService.TracePrefix` | src/org/thoughtcrime/securesms/service/LinkingService.java:157-159 | a run that stops earlier did a strict beginning of what a longer run does |
| `LinkingService.LinkTraceIsPrefixOfCompleteRun` | src/org/thoughtcrime/securesms/service/LinkingService.java:157-159 | every run is a beginning of the complete run, and all of it exactly when it completed |
| `LinkingService.EarlyStagesQuiet` | src/org/thoughtcrime/securesms/service/LinkingService.java:146-156 | no stage before the last enqueues a job or reports success |
| `LinkingService.LastSegmentShape` | src/org/thoughtcrime/securesms/service/LinkingService.java:134-156 | the last stage is two preference writes, the five setup jobs, then `LINKING_EVENT` |
| `LinkingService.LinkingEventOnlyOnSuccess` | src/org/thoughtcrime/securesms/service/LinkingService.java:146-159 | `LINKING_EVENT` is broadcast, and the setup jobs enqueued in order, exactly when nothing failed; otherwise no job is enqueued |
| `LinkingService.JobsFollowPreferences` | src/org/thoughtcrime/securesms/service/LinkingService.java:122-152 | no preference is written after the first job is enqueued |
| `LinkingService.WrittenIn` | src/org/thoughtcrime/securesms/service/LinkingService.java:107-135 | no preference is written before stage 3 |
| `LinkingService.SegmentWrites` | src/org/thoughtcrime/securesms/service/LinkingService.java:107-135 | each stage writes a key only in its own stage and only with its one value |
| `LinkingService.TraceWrites` | src/org/thoughtcrime/securesms/service/LinkingService.java:107-135 | after `k` stages, a key is written with its one value if its stage has run and is untouched otherwise |
| `LinkingService.StoredPrefsAfterLinking` | src/org/thoughtcrime/securesms/service/LinkingService.java:107-135 | after a run, each preference holds the run's value if the run reached its stage, and its earlier value otherwise |
| `LinkingService.NoRollback` | src/org/thoughtcrime/securesms/service/LinkingService.java:107-116 | once the prekey upload is attempted, device id, number and identity keys stay stored whatever fails later |
| `LinkingService.MissingPushTokenStopsBeforeJobs` | src/org/thoughtcrime/securesms/service/LinkingService.java:128 | without a push token no job is enqueued, `LINKING_EVENT` is not sent and the stored token is untouched |
| `LinkingService.RequestsUsePassword` | src/org/thoughtcrime/securesms/service/LinkingService.java:82-84 | every account-manager request of a run carries the run's password |
| `LinkingService.StoredCredentialsMatchRequests` | src/org/thoughtcrime/securesms/service/LinkingService.java:94-135 | after a complete run, the stored push password is the one every request used, and the stored signaling key and registration id are those the registration was finished with |
| `LinkingService.FinishOnlyInStageOne` | src/org/thoughtcrime/securesms/service/LinkingService.java:97 | the only finishing request of a run is its third effect |
| `LinkingService.PublishesLinkBeforeFinishing` | src/org/thoughtcrime/securesms/service/LinkingService.java:86-97 | a run starts with the uuid request; the link broadcast comes next and immediately precedes the only finishing request; a failed uuid request announces nothing |
| `LinkingService.SelfSyncRestoresLinkedProfileKey` | src/org/thoughtcrime/securesms/service/LinkingService.java:133 | after a complete link, a contacts sync listing the own number restores self's profile key from preferences to the key the server assigned |

## Left out

- `DirectoryHelper.refreshDirectoryFor` and `getThreadIdFor` in `UpdateContactJob.onRun`: the directory service and the thread database are not part of this model. Their exceptions are not modelled either. The directory helper's `IOException` would escape `onRun` and be retried.
- The temporary file for the attachment and `retrieveAttachment` itself: the retrieval is an input that is either the token stream or the `IOException` or `InvalidMessageException` that ended it, the two that `onRun` catches (`RetrievalError`). An unchecked exception of the retrieval, which would escape `onRun`, is not modelled.
- The byte framing of contact details inside `DeviceContactsInputStream` (the library class is not part of this model): a details record is one token.
- `UpdateContactJob.OnRun`: takes one time for every identity it saves in a run, where the code reads the clock at each save.
- `UpdateContactJob.OnRun`: saves a contact whose verified state is `VERIFIED` with the `VERIFIED` status (the corrected mapping), where the code as written saves a null status; `StatusFor` models the code as written.
- `UpdateContactJob.ReconcileContact`: saves the corrected status for `VERIFIED`, where the code as written saves null (see Findings).
- `UpdateContactJob.GuardedWrites`: the identity row it describes carries the corrected status for `VERIFIED` (through `VerifiedIdentity`).
- `UpdateContactJob.VerifiedIdentity`: uses the corrected status mapping, so for `VERIFIED` it differs from the null status line 171 saves as written.
- `ContactStream.UndrainedReaderFails`: `read()` started inside avatar bytes is taken to throw; the library parser could instead read a garbage record, so the lemma shows the misalignment under that assumption.
- `UpdateContactJob.ApplyContactIdempotent`: holds for one run's time; across two runs the saved timestamps differ.
- `Address` normalisation: addresses and phone numbers are compared as plain strings.
- `UpdateContactJob.Create`: the `Data` getters on a missing key are taken to throw an unchecked exception. `Data` is not part of this model.
- `ConfigurationSyncRequestJob`: not part of this model beyond being enqueued. `GroupSyncRequestJob`'s constructor takes a context, which the linking service does not pass; the model keeps its contract only.
- The `Service` lifecycle, the single-thread executor, `onStartCommand`, `onBind` and `onDestroy`: framework and concurrency glue.
- `DirectoryRefreshListener.schedule`, `RotateSignedPreKeyListener.schedule` and `initializeDependencyInjection` (LinkingService.java:137-142): scheduling and dependency injection have no effect on the modelled state.
- Local generation of prekeys and their storage by `PreKeyUtil`, secrets, key pairs, the registration id and the random uuid: these are inputs of the run.
- `LinkingService.HandleLinkIntent`: throws only where an account-manager request fails or the push token is missing. Failures of the URI constructor, the URL encoder, key generation or the databases are not modelled. Each would end the run at that point in the same way.
- The Base64, URL and colour codecs are parameters. Only the laws the lemmas need are assumed of them, as preconditions: Base64 decoding inverts encoding, and URL decoding inverts encoding without leaving a raw `&`.
- Logging is left out.

## Findings

| source | as written | input that shows it | evidently intended | confidence | as-written member | corrected member |
|---|---|---|---|---|---|---|
| src/org/thoughtcrime/securesms/jobs/UpdateContactJob.java:167 | the third branch tests `UNVERIFIED` again, so a `VERIFIED` state saves the identity with a null status | a contact whose verified message has state `VERIFIED` | `VERIFIED` maps to `IdentityDatabase.VerifiedStatus.VERIFIED`, so the three states map to three statuses | not executed | `UpdateContactJob.StatusForLosesVerified` | `UpdateContactJob.IntendedStatusForIsFaithful` |
