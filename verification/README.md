# Orvibo home bridge: a verified model

The integration talks to Orvibo devices over a LAN gateway, a TLS link and HTTPS, and serves Meari
cameras through a local video bridge. This project models the parts of it that keep state or join
data, and proves what they promise over all inputs and all runs. `dafny verify dfyconfig.toml` checks
everything.

| modules | what they model |
|---|---|
| `VideoProtocol`, `VideoRaces`, `VideoShutdown`, `VideoBridge`, `VideoRecovery` | the video bridge: handler, warm-up, prepared slot, expiry, recovery and close as a step system; the bridge as a class whose methods are its steps |
| `PropertyMerge`, `ReadtableProperties` | the deep merge of property maps and the timestamped join of inline and row properties |
| `DeviceExtraction`, `DeviceRows` | the recursive device extraction and its reading as a fold over preorder rows |
| `ControlPolicy`, `ControlCalls`, `ControlExecutor` | transport choice, one-shot fallback and mechanical interlocks over traces of calls |
| `ProfileRegistry` | the custom-profile loader, the prioritised scan and its memo |
| `DeviceInventory` | the reconciliation of the inventory with snapshots and state updates |
| `WirePacket` | framing, CRC, padding and block encryption of packets |
| `PendingRequests` | the correlation of requests and answers |
| `LockEvents`, `LockNames` | lock-event deduplication and attribution; the editable text of lock user names |
| `Redaction` | redaction of packets for logs and diagnostics |
| `MeariInventory`, `MeariChannels`, `MeariCameras` | the camera inventory's numbering, channel summaries, and the join by vendor id |
| `FamilyAudit` | the resumable multi-family audit |
| `Wrappers`, `Text`, `Sorting` | shared vocabulary: options and results, Python's line and space rules, sorting |

Where the source updates state in place the model has a class with those fields, and every method is
proved to perform the step that the lemmas reason about. asyncio code is atomic between two awaits, so
each await-free stretch is one step.

## What does not hold

These expectations are not met by the code. The named lemmas give a concrete run or input, the exact condition, or both.

- The prepared slot can be overwritten. `async_prepare` closes a failed pipeline and then asks for a warm-up
  without looking at the slot again; another request can fill the slot meanwhile, and that pipeline is never
  closed (`VideoRaces.HurriedRunLosesASession`). A run loses nothing exactly when every finishing warm-up finds
  the slot empty (`VideoProtocol.NothingLostIffNoOverwrite`).
- `async_close` awaits the latest expiry task only, so it may return while an earlier one is still closing
  (`VideoShutdown.ShutdownCanPrecedeAnEarlierExpiry`). At its return nothing is open exactly when nothing was lost, no
  warm-up has begun since it cancelled one and no such close is pending (`VideoProtocol.ShutdownLeavesNothingOpenIff`).
- A session may be opened after `async_close` has returned, for one by an `async_prepare` that was suspended meanwhile,
  even if nothing was open at the return (`VideoShutdown.WarmUpCanStartAfterShutdown`,
  `VideoShutdown.WarmUpCanStartAfterACleanReturn`). None is opened any more exactly when no warm-up waits for its first
  step and no suspended `async_prepare` would get a new one (`VideoShutdown.NothingOpensAfterShutdownIff`); nothing is
  open then and ever after exactly when nothing was lost and neither a close nor a warm-up is left
  (`VideoShutdown.StaysShutIff`).
- The deep merge is not associative; `PropertyMerge.AssociativeIff` gives the exact condition.
- A custom profile without a usable channel is controlled over the cloud under AUTO while its transport path is
  reported as unavailable (`ControlPolicy.UsedChannelIsPermittedIff`).
- One position call opens a closed dream curtain that is not centred only if the centring goes out over SSL, since
  the confirming answer is only awaited there (`ControlCalls.PositionIsSentIff`). So it sends no position under
  LAN_ONLY (`ControlCalls.LanOnlyPositionIsSentIff`), nor under AUTO when the LAN send succeeds
  (`ControlCalls.AutoOverLanOnlyCentres`). An angle call followed by a position call does open it over LAN
  (`ControlCalls.TwoCallsOpenOverLan`).
- The packet parser accepts a body that does not end on a block boundary: the decryptor is never finalised, so the
  incomplete block is dropped (`WirePacket.AcceptedPacketsAreFrames`).
- A secret below an identifier key reaches the output through the fingerprint taken above it, and in no other way
  (`Redaction.SecretsShowIff`, with `Redaction.SecretBelowIdentifierShowsIff` as the witness).
- A session packet is only decrypted when the key table knows its session id as text; the probe tool's table, keyed
  by byte strings, never serves one (`WirePacket.BytesTableNeverServesSessions`).
- Devices and states of the inventory need not have the same keys: an optimistic update after a removal writes a state
  for an absent device. `DeviceInventory.KeysAgreeIff` gives the exact condition; the next snapshot that lists the device
  ends it.
- In the audit, an exception after the merge of a family leaves two rows for it (`FamilyAudit.RowsStayUniqueIff`).
  If the same family occurs twice in one run's list it can then be merged again (`FamilyAudit.LateFailureCanMergeTwice`);
  `FamilyAudit.FamiliesMergeOnceIff` says exactly when each is merged once, `FamilyAudit.TotalsAreSumsIff` when the totals
  are the sum of the rows, and `FamilyAudit.AuditsAreConserved` when both hold with all else. They do when no list of a
  run has a family twice.

## Assumptions

- AES is a bijection on 16-byte blocks for each key; CRC-32, JSON and UTF-8 decoding, `str`, `int`, `lower`, `casefold` with
  `isalnum`, `isdigit`, fingerprints and profile text search are functions with at most the one law their module states.
- Timers, sockets, subprocesses, FFmpeg and the network decide only which enabled step comes next and with what
  outcome; the recovery's sleeps are exact; `_finish_uninterrupted` runs its cleanup to the end whatever is cancelled.
- Concurrent `async_close` calls are serialised by the start lock, so one is modelled.
- Merging an analysis and writing the audit's state file are atomic: the file is replaced in one step.
- The JSON key of an audit signature determines its three parts.

## Model

| member | source | states |
|---|---|---|
| `VideoProtocol.StepKeepsInv` | custom_components/orvibohomebridge/meari_stream.py:243-344 | Every await-free stretch keeps: one request and one warm-up at most, ids fresh, no session with two owners; and it loses the session in the prepared slot exactly when a warm-up publishes over it, nothing else |
| `VideoProtocol.EveryOpenSessionHasOneOwner` | custom_components/orvibohomebridge/meari_stream.py:243-470 | In every reachable state an open session has exactly one owner (warm-up, slot, request directly or as child, or a close in progress), or none and was lost to an overwrite; closed sessions have no owner; losses equal overwrites |
| `VideoProtocol.NothingLostIffNoOverwrite` | custom_components/orvibohomebridge/meari_stream.py:264-281 | A run loses no session if and only if every warm-up that finishes finds the prepared slot empty |
| `VideoProtocol.LostForever` | custom_components/orvibohomebridge/meari_stream.py:390-421 | A session once lost stays open in every continuation, `async_close` included |
| `VideoProtocol.OneRequestOneWarmOneWrite` | custom_components/orvibohomebridge/meari_stream.py:243-250 | Over any interleaving at most one handler and one warm-up run, and in playback mode at most one response in the life of the bridge completes its first write |
| `VideoProtocol.AfterShutdown` | custom_components/orvibohomebridge/meari_stream.py:390-421 | After `async_close` the slot and the active request are empty, and every session still open is lost, held by a warm-up asked for after the close had cancelled one, or being closed by an older expiry or a resumed `async_prepare`; nothing is open if and only if nothing was lost and neither of those remains |
| `VideoProtocol.ShutdownLeavesNothingOpenIff` | custom_components/orvibohomebridge/meari_stream.py:400-419 | At its return: nothing is open if and only if no warm-up ever published over a filled slot, none has begun since the close cancelled and awaited one, and no close is pending that `async_close` does not await |
| `VideoProtocol.OneMoreEvent` | custom_components/orvibohomebridge/meari_stream.py:243-470 | Any run continued by any enabled step: ownership holds before and after, and the step loses nothing but what it overwrites |
| `VideoRaces.DropThenResumeIsReplace` | custom_components/orvibohomebridge/meari_stream.py:252-269 | Closing a failed pipeline and then asking for a warm-up without letting others in is the one-step replacement |
| `VideoRaces.UnhurriedRunsLoseNothing` | custom_components/orvibohomebridge/meari_stream.py:243-344 | When that close and the next `_ensure_warm` count as one step: no overwrite, exactly one owner per open session in every state, and after shutdown nothing is open if and only if no close and no such later warm-up remains |
| `VideoRaces.HurriedRunLosesASession` | custom_components/orvibohomebridge/meari_stream.py:264-269 | Without that grain it fails: a concrete run of two image requests loses session 3 for good |
| `VideoShutdown.ShutdownCanPrecedeAnEarlierExpiry` | custom_components/orvibohomebridge/meari_stream.py:409-412 | A concrete run in which `async_close` returns while an earlier expiry still closes its pipeline, with nothing lost and no warm-up |
| `VideoShutdown.WarmUpCanStartAfterShutdown` | custom_components/orvibohomebridge/meari_stream.py:264-274 | A concrete run in which an `async_prepare` that was closing a failed pipeline opens a new session on a bridge already shut down |
| `VideoShutdown.WarmUpCanStartAfterACleanReturn` | custom_components/orvibohomebridge/meari_stream.py:264-274 | Another, in which nothing is open, lost or pending when `async_close` returns, and a warm-up that was asked for meanwhile opens a session then |
| `VideoShutdown.NothingOpensAfterShutdownIff` | custom_components/orvibohomebridge/meari_stream.py:243-419 | In every continuation of a shut-down bridge open sessions are only closed, never opened, if and only if no warm-up waits for its first step and no `async_prepare` is suspended that would get a new one |
| `VideoShutdown.StaysShutIff` | custom_components/orvibohomebridge/meari_stream.py:390-421 | Nothing is open then and in every continuation if and only if nothing was lost and neither a close nor a warm-up is left |
| `VideoBridge.MeariVideoBridge.constructor` | custom_components/orvibohomebridge/meari_stream.py:165-200 | A new bridge has the empty history and owns nothing |
| `VideoBridge.MeariVideoBridge.Prepare` | custom_components/orvibohomebridge/meari_stream.py:252-269 | Total, with its two errors and its early return in the order of the source; otherwise no session is opened, lost or shared: a healthy pipeline stays in the slot, a failed one is now this caller's to close, without one a warm-up runs |
| `VideoBridge.MeariVideoBridge.PrepareResumes` | custom_components/orvibohomebridge/meari_stream.py:323-334 | After closing the failed pipeline that session has no owner and is gone, and a warm-up runs, with `_closed`, `_active` and the slot as they are |
| `VideoBridge.MeariVideoBridge.WarmBegins` | custom_components/orvibohomebridge/meari_stream.py:271-276 | A session that was not open before is, owned by the warm-up alone |
| `VideoBridge.MeariVideoBridge.WarmSucceeds` | custom_components/orvibohomebridge/meari_stream.py:276-281 | On a closed bridge the warm-up keeps its session; otherwise the session fills the slot and exactly what was in the slot joins the lost sessions |
| `VideoBridge.MeariVideoBridge.WarmFails` | custom_components/orvibohomebridge/meari_stream.py:282-290 | Every session keeps its owners; the warm-up still owns its own |
| `VideoBridge.MeariVideoBridge.WarmEnds` | custom_components/orvibohomebridge/meari_stream.py:287-292 | The session is gone, no warm-up is left and nothing was lost |
| `VideoBridge.MeariVideoBridge.WarmIsCancelled` | custom_components/orvibohomebridge/meari_stream.py:400-403 | A warm-up that the close cancelled before its first step held nothing: every session keeps its owners |
| `VideoBridge.MeariVideoBridge.Recovers` | custom_components/orvibohomebridge/meari_stream.py:346-361 | The recovery has the shared warm-up running, and no session changes hands |
| `VideoBridge.MeariVideoBridge.Expires` | custom_components/orvibohomebridge/meari_stream.py:294-315 | The slot is empty, its session now owned by the expiry task, and no session has more or fewer owners |
| `VideoBridge.MeariVideoBridge.CloseCompletes` | custom_components/orvibohomebridge/meari_stream.py:57-69 | A pending close, also that of a cancelled `async_prepare`, ends: that session is gone and owned by nobody, and nothing was lost |
| `VideoBridge.MeariVideoBridge.Handle` | custom_components/orvibohomebridge/meari_stream.py:430-439 | Accepts exactly when open, idle and not consumed; then it is the only request and owns a session not open before; otherwise nothing changes |
| `VideoBridge.MeariVideoBridge.RunStarts` | custom_components/orvibohomebridge/meari_stream.py:531-548 | Waits for a running warm-up with the slot untouched, or takes what is in the slot; no session has more or fewer owners |
| `VideoBridge.MeariVideoBridge.RunJoins` | custom_components/orvibohomebridge/meari_stream.py:533-548 | After the joined warm-up the slot is empty, and the request owns what was in it |
| `VideoBridge.MeariVideoBridge.RunIsWarmed` | custom_components/orvibohomebridge/meari_stream.py:540-544 | The same after the warm-up that the request asked for |
| `VideoBridge.MeariVideoBridge.RunResumesAfterDrop` | custom_components/orvibohomebridge/meari_stream.py:323-341 | The failed pipeline is gone and nothing was lost, whichever way the request goes on |
| `VideoBridge.MeariVideoBridge.RunGivesUp` | custom_components/orvibohomebridge/meari_stream.py:541-543 | The second failed pipeline is gone and nothing was lost |
| `VideoBridge.MeariVideoBridge.RunIsPiped` | custom_components/orvibohomebridge/meari_stream.py:546 | The request's own pipeline changes no owner |
| `VideoBridge.MeariVideoBridge.Leaves` | custom_components/orvibohomebridge/meari_stream.py:449-462 | Wherever the request is interrupted, all it held stays its own to close |
| `VideoBridge.MeariVideoBridge.LeftoverCloses` | custom_components/orvibohomebridge/meari_stream.py:57-69 | A request cancelled during a close finishes it: that session is gone and nothing was lost |
| `VideoBridge.MeariVideoBridge.FirstWriteDone` | custom_components/orvibohomebridge/meari_stream.py:556-566 | In playback this is the first write of the bridge's life and consumes it; no session changes hands |
| `VideoBridge.MeariVideoBridge.HandleEnds` | custom_components/orvibohomebridge/meari_stream.py:460-466 | Exactly the sessions that the request owned are gone, and the bridge is idle |
| `VideoBridge.MeariVideoBridge.CloseBegins` | custom_components/orvibohomebridge/meari_stream.py:390-399 | No request and no new `async_prepare` is accepted any more, and no session changes hands |
| `VideoBridge.MeariVideoBridge.CloseCancels` | custom_components/orvibohomebridge/meari_stream.py:396-403 | The warm-up of the moment can no longer take its first step, and no session changes hands |
| `VideoBridge.MeariVideoBridge.CloseClaims` | custom_components/orvibohomebridge/meari_stream.py:404-414 | The cancelled warm-up has ended, the slot is empty and its session owned by the close; no session has more or fewer owners |
| `VideoBridge.MeariVideoBridge.CloseFinishes` | custom_components/orvibohomebridge/meari_stream.py:408-419 | What is left open when `async_close` returns, exactly |
| `VideoRecovery.Recovery` | custom_components/orvibohomebridge/meari_stream.py:346-365 | With exact sleeps: at most three attempts, exactly those that the earlier failures and the remaining time allow, none started later than 65 seconds in (RECOVERY_TIMEOUT minus FIRST_FRAME_TIMEOUT) |
| `VideoRecovery.AttemptsAreSpaced` | custom_components/orvibohomebridge/meari_stream.py:346-365 | The second and third attempt start at least 3 and 7 seconds after the recovery began, and only after the earlier ones were made and failed |
| `VideoRecovery.AttemptIsTheStep` | custom_components/orvibohomebridge/meari_stream.py:353-361 | On a live bridge that has streamed, an attempt is made if and only if the recovery step is enabled in that state, and it joins a running warm-up or has a new one running |
| `VideoRecovery.AttemptsAwaitWarmUps` | custom_components/orvibohomebridge/meari_stream.py:359-365 | Whatever happens meanwhile, the awaited warm-up has ended (published, failed or cancelled) if and only if it no longer runs; only a closing bridge cancels it; an attempt after its end awaits another one |
| `PropertyMerge.EmptyIsIdentity` | custom_components/orvibohomebridge/protocol.py:260-267 | The empty mapping is a two-sided identity of the deep merge |
| `PropertyMerge.MergeIsIdempotent` | custom_components/orvibohomebridge/protocol.py:260-267 | merge(a, a) = a |
| `PropertyMerge.RepeatedPatchIsAbsorbed` | custom_components/orvibohomebridge/protocol.py:260-267 | merge(merge(a, b), b) = merge(a, b) |
| `PropertyMerge.MergedValueAt` | custom_components/orvibohomebridge/protocol.py:260-267 | At every path the merged value is the patch's where the patch decides it (so every leaf of the patch is kept), the base's where the patch is silent, and the merge where both go on |
| `PropertyMerge.CoversIffMergeForgets` | custom_components/orvibohomebridge/protocol.py:260-267 | merge(a, b) = b exactly when b has an entry over every part of a |
| `PropertyMerge.AssociativeIff` | custom_components/orvibohomebridge/protocol.py:260-267 | Merging is associative on three operands if and only if wherever the middle one has a leaf between two mappings the last covers the first |
| `PropertyMerge.GroupingMatters` | custom_components/orvibohomebridge/protocol.py:260-267 | A concrete family where it is not: null between two mappings |
| `ReadtableProperties.Properties` | custom_components/orvibohomebridge/protocol.py:269-310 | The two loops over dictionaries compute, for every key, the fold over that key's own entries: inline values of the device, of the status, then the rows |
| `ReadtableProperties.KeyValue` | custom_components/orvibohomebridge/protocol.py:289-309 | A key's value is the deep merge, in arrival order, of exactly the accepted values after the last accepted deletion |
| `ReadtableProperties.FoldMeans` | custom_components/orvibohomebridge/protocol.py:284-309 | The same from any intermediate state, accepted meaning untimed or not older than the previous accepted entry |
| `ReadtableProperties.ClockedFoldIgnoresOrder` | custom_components/orvibohomebridge/protocol.py:296-309 | With distinct positive timestamps and values that are not mappings the fold is the same for every permutation |
| `ReadtableProperties.RowOrderDoesNotMatter` | custom_components/orvibohomebridge/protocol.py:289-309 | So the property snapshot does not depend on the order of such rows |
| `ReadtableProperties.EqualTimesFollowArrival` | custom_components/orvibohomebridge/protocol.py:297-298 | With equal timestamps it does: the later arrival wins |
| `ReadtableProperties.MergeAtIsMerge` | custom_components/orvibohomebridge/protocol.py:260-267 | Merging a one-key patch into the snapshot writes that key only |
| `DeviceExtraction.Extractor.Visit` | custom_components/orvibohomebridge/protocol.py:579-696 | The nested visitor folds the rows of the walked part into the dictionary |
| `DeviceExtraction.Extractor.VisitAll` | custom_components/orvibohomebridge/protocol.py:580-583 | The same over the children, which all inherit the table name |
| `DeviceExtraction.SortDevices` | custom_components/orvibohomebridge/protocol.py:699 | Each stored device once, strictly increasing by uid |
| `DeviceExtraction.ExtractDevices` | custom_components/orvibohomebridge/protocol.py:542-699 | The result is sorted strictly by uid, and a device is in it exactly when its uid has rows and it is their combination |
| `DeviceExtraction.StoredRows` | custom_components/orvibohomebridge/protocol.py:660-692 | The dictionary holds for each uid the combination of that uid's rows in the order met, and no other uid |
| `DeviceRows.RowsArePreorderRows` | custom_components/orvibohomebridge/protocol.py:579-696 | For every nested payload the rows met are the qualifying nodes of the preorder list of paths, each under the table name of its nearest naming ancestor or itself |
| `DeviceRows.EveryNodeIsVisited` | custom_components/orvibohomebridge/protocol.py:694-696 | Every path of the payload is in that list |
| `DeviceRows.RowsAreShaped` | custom_components/orvibohomebridge/protocol.py:595-661 | Every candidate row has the field values that the combination relies on |
| `DeviceRows.FieldIsLast` | custom_components/orvibohomebridge/protocol.py:664-692 | A combined field is the value of the last row that is informative in it, or the first row's |
| `DeviceRows.CombinedFieldsAreLastInformative` | custom_components/orvibohomebridge/protocol.py:664-692 | So for all fields: texts, numbers, online flag, class id, endpoint and properties |
| `DeviceRows.ExtractedFieldsAreLastInformative` | custom_components/orvibohomebridge/protocol.py:542-699 | The result told by the payload alone: it has a device of a uid exactly when some node qualifies with that uid, and each field is the last informative one among those nodes in preorder |
| `ControlPolicy.UsedChannelIsPermittedIff` | custom_components/orvibohomebridge/capabilities.py:276-299 | Every channel a control can end up on is one that `transport_path_for` permits, except exactly for a device without channels under AUTO |
| `ControlPolicy.GuardedBuiltinsHaveAPath` | custom_components/orvibohomebridge/capabilities.py:205-248 | No built-in device that the control guard lets through is such an exception |
| `ControlPolicy.GuardedCustomProfileCanBePathless` | custom_components/orvibohomebridge/capabilities.py:67-110 | A verified custom profile with no channel is: it is sent to the cloud while its path is unavailable |
| `ControlCalls.InvokeFallsBackOnce` | custom_components/orvibohomebridge/control_executor.py:130-206 | What one invocation does, selected as in the source: at most one LAN send, then at most one SSL send of the same command and only after the LAN send failed; LAN_ONLY never uses SSL, CLOUD_ONLY never LAN; the reported result and channel are those of the last send |
| `ControlCalls.EveryRunIsSafe` | custom_components/orvibohomebridge/control_executor.py:130-392 | Over every sequence of calls and pushed states: each invocation of each call is at most one LAN send and then at most one SSL send, after a failed LAN send only; position commands only at stored angle 90, or at stored position 0 after a centring command over SSL answered 90; angle commands only at stored position 0; sterilising on only at position 0 or absent; routed sends keep the transport policy; the transport record is the latest success |
| `ControlCalls.SetPositionIsSafe` | custom_components/orvibohomebridge/control_executor.py:266-338 | The same for one `set_cover_position` |
| `ControlCalls.SetAngleIsSafe` | custom_components/orvibohomebridge/control_executor.py:375-392 | The same for one `set_dream_curtain_angle` |
| `ControlCalls.HorseIsSafe` | custom_components/orvibohomebridge/control_executor.py:589-637 | The same for one `clothes_horse_control`, which bypasses the fallback helper |
| `ControlCalls.RouteIsSafe` | custom_components/orvibohomebridge/control_executor.py:104-118 | The same for a routed control behind the guard |
| `ControlCalls.PositionIsSentIff` | custom_components/orvibohomebridge/control_executor.py:266-338 | A built-in dream curtain gets a position command in a call if and only if it may be controlled, a channel is there, and it is stored as centred, or stored as closed and centred over SSL with answer 90 while SSL is still there |
| `ControlCalls.LanOnlyPositionIsSentIff` | custom_components/orvibohomebridge/control_executor.py:279-302 | Under LAN_ONLY with a ready gateway: if and only if the stored angle is 90 |
| `ControlCalls.AutoOverLanOnlyCentres` | custom_components/orvibohomebridge/control_executor.py:279-302 | An input under AUTO where centring over LAN succeeds and nothing else is sent |
| `ControlCalls.TwoCallsOpenOverLan` | custom_components/orvibohomebridge/control_executor.py:375-392 | Over LAN an angle call followed by a position call does send the position |
| `ControlCalls.PositionAnswers` | custom_components/orvibohomebridge/control_executor.py:266-338 | `set_cover_position` answers true if and only if its last send succeeded and was no centring |
| `ControlExecutor.ControlExecutor.InvokeWithFallback` | custom_components/orvibohomebridge/control_executor.py:130-174 | Sends as specified and records the channel of a success |
| `ControlExecutor.ControlExecutor.SendSelected` | custom_components/orvibohomebridge/control_executor.py:176-186 | Selects by capability and gateway, then falls back |
| `ControlExecutor.ControlExecutor.SetCoverPosition` | custom_components/orvibohomebridge/control_executor.py:266-338 | The method performs exactly the specified step on states, record and trace, and answers as specified; an optimistic update gives a device without stored state an entry, as `state_store.merge` does |
| `ControlExecutor.ControlExecutor.SetDreamCurtainAngle` | custom_components/orvibohomebridge/control_executor.py:375-392 | The same for the angle, stored clamped to 0..180; the answer is the success of the last send |
| `ControlExecutor.ControlExecutor.ClothesHorseControl` | custom_components/orvibohomebridge/control_executor.py:589-637 | The same for the drying rack; an unknown feature is refused |
| `ProfileRegistry.ScanFindsTheBest` | custom_components/orvibohomebridge/custom_devices.py:1234-1248 | The scan of the ordered profiles returns the eligible one of highest priority, then least id, and none only if none is eligible |
| `ProfileRegistry.CacheHoldsFirstScans` | custom_components/orvibohomebridge/custom_devices.py:1230-1251 | After any lookups each cache entry is the scan of the first device looked up under its key |
| `ProfileRegistry.MemoEqualsScanIff` | custom_components/orvibohomebridge/custom_devices.py:1208-1251 | The memoised answer equals the plain scan if and only if the first lookup of the key scans alike |
| `ProfileRegistry.MemoIsTransparent` | custom_components/orvibohomebridge/custom_devices.py:1208-1251 | If equal cache keys mean equal match fields since the last load, memoisation is invisible |
| `ProfileRegistry.SameFieldsScanAlike` | custom_components/orvibohomebridge/custom_devices.py:574-619 | Devices that agree on the match fields satisfy the same branches and get the same profile |
| `ProfileRegistry.RecognisedDevicesNeedOverride` | custom_components/orvibohomebridge/custom_devices.py:1238-1245 | However stale the memo, a built-in-recognised device only ever gets an overriding profile |
| `ProfileRegistry.CountsAreCacheEntries` | custom_components/orvibohomebridge/custom_devices.py:1246-1250 | A match counter always equals the number of cache entries that hold the profile |
| `ProfileRegistry.EveryFileHasOneFate` | custom_components/orvibohomebridge/custom_devices.py:1101-1124 | Every file is exactly one of kept, superseded by a later kept override, or rejected |
| `ProfileRegistry.ErrorsAreTheRejected` | custom_components/orvibohomebridge/custom_devices.py:1104-1120 | The error list names exactly the rejected files |
| `ProfileRegistry.AcceptedIffFreshOrOverriding` | custom_components/orvibohomebridge/custom_devices.py:1111-1120 | The loader's test against the profiles kept so far decides acceptance as defined over the whole file list |
| `ProfileRegistry.LoadedFilesAreKept` | custom_components/orvibohomebridge/custom_devices.py:1101-1124 | The loop keeps, for every file list, exactly the last accepted file of each id, and its test on the profiles so far is acceptance over the whole list |
| `ProfileRegistry.CustomDeviceRegistry.LoadFiles` | custom_components/orvibohomebridge/custom_devices.py:1101-1124 | The loop over the files performs the specified fold |
| `ProfileRegistry.CustomDeviceRegistry.Load` | custom_components/orvibohomebridge/custom_devices.py:1083-1138 | Leaves exactly the kept profiles, ordered, with empty memo and counters, and the errors |
| `ProfileRegistry.CustomDeviceRegistry.SortProfiles` | custom_components/orvibohomebridge/custom_devices.py:1129-1134 | All profiles, ordered by falling priority and rising id |
| `ProfileRegistry.CustomDeviceRegistry.FirstEligible` | custom_components/orvibohomebridge/custom_devices.py:1235-1248 | The loop returns what the scan defines |
| `ProfileRegistry.CustomDeviceRegistry.FindProfile` | custom_components/orvibohomebridge/custom_devices.py:1208-1251 | Answers and updates memo and counters as specified |
| `DeviceInventory.InventoryFollowsHistory` | custom_components/orvibohomebridge/device_inventory.py:88-290 | After every run of snapshots and state updates: a device is in the inventory with m counted misses exactly when it was last visible m < 3 snapshots ago and only omitted since; every device has a state and counts stay below 3 |
| `DeviceInventory.KeysAgreeIff` | custom_components/orvibohomebridge/state_store.py:46-48 | Devices and states have the same keys if and only if no update reached an absent device that every snapshot since then omits |
| `DeviceInventory.OrphansFollowHistory` | custom_components/orvibohomebridge/state_store.py:46-48 | A state without its device is there exactly when such an update happened for it |
| `DeviceInventory.LeavesWhenHiddenOrThirdMiss` | custom_components/orvibohomebridge/device_inventory.py:272-283 | A device leaves at a snapshot exactly when that snapshot hides it or omits it for the third time in a row |
| `DeviceInventory.SnapshotStep` | custom_components/orvibohomebridge/device_inventory.py:172-283 | One snapshot moves each device's record by that device's own verdict only, and a state without a device survives it exactly when it omits the device |
| `DeviceInventory.RunFollowsHistory` | custom_components/orvibohomebridge/device_inventory.py:172-290 | The record of a device is a function of its own history of verdicts |
| `DeviceInventory.EntryCountsTrailingMisses` | custom_components/orvibohomebridge/device_inventory.py:272-283 | That function counts trailing misses below the tolerance |
| `DeviceInventory.DeviceInventory.Initialize` | custom_components/orvibohomebridge/device_inventory.py:88-149 | Adds the visible devices with their initial states |
| `DeviceInventory.DeviceInventory.MergeOne` | custom_components/orvibohomebridge/device_inventory.py:176-268 | One listing resets that device's record to visible or removes it, and touches no other; every device keeps a state |
| `DeviceInventory.DeviceInventory.Merge` | custom_components/orvibohomebridge/device_inventory.py:172-270 | After every snapshot each device is present with m misses exactly when its history ends in m < 3 omissions after a visible listing |
| `DeviceInventory.DeviceInventory.RemoveMissingDevices` | custom_components/orvibohomebridge/device_inventory.py:272-283 | Counts one miss for each unseen device and removes it at the third |
| `DeviceInventory.DeviceInventory.Remove` | custom_components/orvibohomebridge/device_inventory.py:285-290 | The device has no record, every other keeps its own, and every device keeps a state |
| `DeviceInventory.DeviceInventory.Update` | custom_components/orvibohomebridge/state_store.py:37-62 | A state update moves no device's record; it leaves a state without a device exactly when the device is absent |
| `WirePacket.UnpadInvertsPad` | custom_components/orvibohomebridge/packet.py:97-116 | Unpadding gives a text back for its padded form and for nothing else; padded lengths are the next multiple of 16 |
| `WirePacket.DecryptInvertsEncrypt` | custom_components/orvibohomebridge/packet.py:94-124 | Decrypting block by block undoes encrypting, ignoring fewer than 16 trailing bytes |
| `WirePacket.EncryptInvertsDecrypt` | custom_components/orvibohomebridge/packet.py:94-124 | And the other way round, so no two texts share a ciphertext |
| `WirePacket.ParseInvertsBuild` | custom_components/orvibohomebridge/packet.py:42-134 | Parsing a built packet returns the payload for both packet types when the key found for it is the session's |
| `WirePacket.BytesTableNeverServesSessions` | tools/probe_device_control.py:237-241 | A session packet that is otherwise sound is of an unknown session if and only if its id is no UTF-8 or no text of the key table; so the probe tool's table, keyed by byte strings, refuses every one |
| `WirePacket.BuildSucceedsIff` | custom_components/orvibohomebridge/packet.py:127-134 | Building succeeds exactly for JSON texts of up to 65487 bytes with a 32-byte session id |
| `WirePacket.AcceptedPacketsAreFrames` | custom_components/orvibohomebridge/packet.py:53-80 | A byte string is accepted with a payload if and only if it is the frame of an encrypted padded text of that payload, perhaps with less than one block appended to the body under a matching length and CRC |
| `WirePacket.FrameFields` | custom_components/orvibohomebridge/packet.py:131-134 | Where the fields of a frame lie |
| `WirePacket.DeframeOne` | tools/probe_device_control.py:232-234 | The 42-byte header and its length field cut off exactly the first packet |
| `WirePacket.DeframeInvertsConcat` | tools/probe_device_control.py:229-241 | A concatenation of built packets comes apart into the same list |
| `PendingRequests.StepKeepsInv` | custom_components/orvibohomebridge/pending_requests.py:15-67 | Every call keeps: a pending future is stored under exactly its own key, a stored one is the newest of its key, each is completed at most once and exactly when done |
| `PendingRequests.RunKeepsInv` | custom_components/orvibohomebridge/pending_requests.py:15-67 | So after any sequence of register, replace, resolve, timeout, cleanup, cancel and cancel_all |
| `PendingRequests.OneInFlightPerKey` | custom_components/orvibohomebridge/pending_requests.py:15-28 | At most one request is pending per key, and it is the newest registered for that key |
| `PendingRequests.NothingPendingAfterCancelAll` | custom_components/orvibohomebridge/pending_requests.py:54-58 | In every reachable state cancel_all leaves nothing registered and no future pending |
| `PendingRequests.WaiterRemovesOnlyItsOwn` | custom_components/orvibohomebridge/pending_requests.py:50-52 | A waiter's cleanup removes its own registration and no other, so never its replacement |
| `PendingRequests.FirstAddressedEventDecides` | custom_components/orvibohomebridge/pending_requests.py:15-67 | A request's outcome is that of the first later event addressed to its key or future, found without the table, and is then final |
| `PendingRequests.PendingRequests.constructor` | custom_components/orvibohomebridge/pending_requests.py:12-13 | Nothing is registered |
| `PendingRequests.PendingRequests.Register` | custom_components/orvibohomebridge/pending_requests.py:15-28 | Refused exactly when a pending request is not to be replaced; otherwise the old one ends with no result and the new one is stored |
| `PendingRequests.PendingRequests.Resolve` | custom_components/orvibohomebridge/pending_requests.py:33-38 | Completes the pending future of the key and tells whether there was one |
| `PendingRequests.PendingRequests.WaitEnds` | custom_components/orvibohomebridge/pending_requests.py:50-52 | Drops the registration only if it is still its own |
| `PendingRequests.PendingRequests.Cancel` | custom_components/orvibohomebridge/pending_requests.py:60-67 | Completes the given or stored future and drops only its registration |
| `PendingRequests.PendingRequests.CancelAll` | custom_components/orvibohomebridge/pending_requests.py:54-58 | Completes every stored pending future once and empties the table |
| `LockEvents.PublishesTheCollapsedStream` | custom_components/orvibohomebridge/lock_manager.py:46-125 | Over every input sequence the events published for a device are, per stretch between removals, its packets without no-ops and with adjacent equal signatures collapsed, each rendered with the last published unlock |
| `LockEvents.TablesFollowStreams` | custom_components/orvibohomebridge/lock_manager.py:81-104 | The two tables hold the last signature of that stream and its last published unlock |
| `LockEvents.OtherDevicesHaveNoEffect` | custom_components/orvibohomebridge/lock_manager.py:46-125 | Dropping all other devices' inputs changes nothing that is published for a device |
| `LockEvents.OpeningIsAttributedIff` | custom_components/orvibohomebridge/lock_status.py:227-243 | A published opening names an opener if and only if the most recent published unlock of the same device carries a user and is at most the window older; the opener is that user |
| `LockEvents.LatestIsMostRecent` | custom_components/orvibohomebridge/lock_manager.py:98-124 | The unlock looked up is the last one at or before the event |
| `LockEvents.LockEventManager.BuildEvent` | custom_components/orvibohomebridge/lock_manager.py:46-125 | Call by call the answers for the device are its collapsed and attributed stream, and no other device's stream changes |
| `LockEvents.LockEventManager.Remove` | custom_components/orvibohomebridge/lock_manager.py:189-193 | The device starts a new, empty stream, and what was published for any device stays as it was |
| `Redaction.AlikeValuesRedactAlike` | custom_components/orvibohomebridge/redact.py:81-130 | Non-interference: packets that differ only under secret keys not below an identifier key, past the limits, or in strict mode in string contents, redact to equal results |
| `Redaction.SecretsShowIff` | custom_components/orvibohomebridge/redact.py:81-130 | For all packets that agree up to values under secret keys, anywhere: they redact to equal results if and only if the fingerprints agree at every identifier reached within the limits and not overwritten by a later entry of the same redacted name |
| `Redaction.SecretBelowIdentifierShowsIff` | custom_components/orvibohomebridge/redact.py:97-100 | A packet in which a secret shows: a password below a user id, told apart exactly by the fingerprint |
| `Redaction.OutputIsBounded` | custom_components/orvibohomebridge/redact.py:101-125 | For every input the output nests at most 6 containers of at most 51 entries each |
| `Redaction.HarmlessValuesAreKept` | custom_components/orvibohomebridge/redact.py:103-130 | Outside strict mode a value within the limits, with plain distinct names and no secret or identifier, comes out unchanged |
| `LockNames.ParseInvertsFormatIff` | custom_components/orvibohomebridge/lock_status.py:278-307 | parse(format(m)) = m if and only if no id or name of m is empty, padded or broken over lines and no id has an equals sign |
| `LockNames.ParsedIsClean` | custom_components/orvibohomebridge/lock_status.py:278-293 | Every mapping that parsing can return, from any text with either separator, is of that kind |
| `LockNames.ParseFormatParse` | custom_components/orvibohomebridge/lock_status.py:278-307 | Hence parse, format, parse is parse |
| `LockNames.FormatIsUnique` | custom_components/orvibohomebridge/lock_status.py:296-307 | The sorting order leaves one text per mapping |
| `LockNames.Parse` | custom_components/orvibohomebridge/lock_status.py:278-293 | The loop collects the items line by line, later ones overwriting |
| `LockNames.Format` | custom_components/orvibohomebridge/lock_status.py:296-307 | All items, numeric ids first, then by id |
| `LockNames.LinesInvertJoin` | custom_components/orvibohomebridge/lock_status.py:281 | Splitting joined lines gives the lines back |
| `MeariInventory.Devices` | custom_components/orvibohomebridge/meari_live.py:32-48 | Numbers the rows of the inventory from 1 in the fixed group order, or fails on a bad answer or more than 512 rows |
| `MeariInventory.SelectedDevice` | custom_components/orvibohomebridge/meari_probe_context.py:132-150 | Selects row `index` of the same numbering, or fails |
| `MeariInventory.SummarizeInventory` | custom_components/orvibohomebridge/meari_inventory.py:138-191 | Counts all rows of the same numbering and lists the first 512 with those numbers |
| `MeariInventory.LiveRootIsEveryRoot` | custom_components/orvibohomebridge/meari_probe_context.py:132-138 | Every payload that `_devices` reads, the context builder and the summary read too, from the same root |
| `MeariInventory.CategoryCountsAddUp` | custom_components/orvibohomebridge/meari_inventory.py:157-164 | The category counts add up to the number of rows |
| `MeariChannels.NvrSnapshot` | custom_components/orvibohomebridge/meari_channels.py:32-72 | Returns the first 32 recorders with distinct serials, under the same row numbers, with exact counts |
| `MeariChannels.PicksAreFirsts` | custom_components/orvibohomebridge/meari_channels.py:48-68 | They are exactly the first recorders of their serials, in inventory order |
| `MeariChannels.ChannelSummary` | custom_components/orvibohomebridge/meari_channels.py:102-152 | The summary is the specified one in each of its four stages |
| `MeariChannels.ListChannels` | custom_components/orvibohomebridge/meari_channels.py:119-147 | The loop keeps the first row of each channel id and counts the rest as invalid |
| `MeariChannels.ChannelRowsAreConserved` | custom_components/orvibohomebridge/meari_channels.py:119-152 | Valid plus invalid rows are the input rows; exactly min(128, valid) are listed, with distinct ids of the input; nothing is cut exactly when the truncation flag is off |
| `MeariChannels.ChannelCodes` | custom_components/orvibohomebridge/meari_channels.py:133-140 | The four recorder-level codes are always the recorder's, all others the channel's own or by default the recorder's |
| `MeariChannels.ChannelCapabilities` | custom_components/orvibohomebridge/meari_channels.py:75-99 | The loop fills the table as specified, item by item, with its stages for missing and invalid values |
| `MeariChannels.CapabilityTable` | custom_components/orvibohomebridge/meari_channels.py:84-98 | That table has the first 128 described channels and is marked truncated exactly when there are more; a channel has the codes of the last item that describes it |
| `MeariCameras.IndexSelectsItsRow` | custom_components/orvibohomebridge/meari_probe_context.py:139-150 | The index found by `_devices` selects the same row for the context |
| `MeariCameras.ContextNamesTheDevice` | custom_components/orvibohomebridge/meari_live.py:160-173 | A playback context is made from the one row whose vendor id is the description's, and its deviceID is that id |
| `MeariCameras.ContextIgnoresOrder` | custom_components/orvibohomebridge/meari_live.py:163-173 | Inventories with the same rows in any order give the same context or the same error |
| `MeariCameras.OnlyChecksReadChannels` | custom_components/orvibohomebridge/meari_live.py:160-173 | With another channel payload a playback context is the same or fails, and fails exactly when a recorder's row no longer passes the checks on it |
| `MeariCameras.DescribedCamerasPlay` | custom_components/orvibohomebridge/meari_live.py:58-173 | From any later inventory with the same rows in any order and a channel payload fetched anew, a described camera gets a playback context, naming the described device, if and only if it is no recorder's or its row still passes the checks on that payload |
| `MeariCameras.DescribeLiveCameras` | custom_components/orvibohomebridge/meari_live.py:58-94 | The nested loops return the specified descriptions |
| `MeariCameras.BuildProbeContext` | custom_components/orvibohomebridge/meari_probe_context.py:183-248 | Fails or returns the identity part of the selected row's context |
| `MeariCameras.FromRowKeepsIdentity` | custom_components/orvibohomebridge/meari_probe_context.py:243-248 | The context copies a vendor id without change |
| `FamilyAudit.AnalyzeFamily` | tools/bulk_readtable_audit.py:288-384 | Counts and signatures are those of the rows that are not deleted, plus one normalized-only per parsed id without a row |
| `FamilyAudit.AnalysisAgrees` | tools/bulk_readtable_audit.py:328-384 | Signatures agree with the counts state by state; the raw count is their number |
| `FamilyAudit.CheckpointsAreConserved` | tools/bulk_readtable_audit.py:922-1011 | Over any interrupted and resumed runs, failures after the merge included: totals are the sum of the rows' counts, signatures agree with them, the merged tags are, each once, those of the rows that are no errors, and each has one such row, if and only if no run visits a family again that failed in it after its merge |
| `FamilyAudit.AuditsAreConserved` | tools/bulk_readtable_audit.py:922-1011 | The same from an empty checkpoint; so it holds when no run has the same family twice, whatever fails, and without failures after the merge each family has one row besides; the signature counts always sum to the totals without normalized_only |
| `FamilyAudit.FamiliesMergeOnceIff` | tools/bulk_readtable_audit.py:928-1011 | Each family is merged at most once over all runs if and only if no run merges one again that failed in it after its merge |
| `FamilyAudit.TotalsAreSumsIff` | tools/bulk_readtable_audit.py:937-1011 | The totals exceed the sum of the rows by exactly the counts of the rows that visits to such families replace, merged again or failing; they are equal if and only if those are none |
| `FamilyAudit.RowsStayUniqueIff` | tools/bulk_readtable_audit.py:939-1001 | Every checkpoint on the way has one row per tag if and only if no family fails after its merge |
| `FamilyAudit.LateFailureCanMergeTwice` | tools/bulk_readtable_audit.py:974-1011 | A concrete run: when one family list holds the same tag twice, such a failure at the first lets the second merge it again, and the totals exceed the rows by its counts |
| `FamilyAudit.TotalsAreWhatWasMerged` | tools/bulk_readtable_audit.py:520-531 | Even then the totals are the sum of everything merged and the signatures agree with them |
| `FamilyAudit.AgreementOfSums` | tools/bulk_readtable_audit.py:375-384 | Agreement implies that the signature counts sum to the totals without normalized_only |
| `FamilyAudit.RelabelChangesNothing` | tools/bulk_readtable_audit.py:413-420 | Relabelling on load never changes a checkpoint that this program wrote |
| `FamilyAudit.FamilyAudit.constructor` | tools/bulk_readtable_audit.py:918-922 | A run starts from the relabelled checkpoint, completed tags being the processed ones |
| `FamilyAudit.FamilyAudit.MergeFamilyResult` | tools/bulk_readtable_audit.py:520-546 | Signatures that agreed with the totals still do, and totals that were the sum of the rows still are |
| `FamilyAudit.FamilyAudit.VisitFamily` | tools/bulk_readtable_audit.py:928-1011 | One turn of the loop performs the specified step; its checkpoint is conserved if the last one was, unless the run comes back to a family that failed in it after its merge, and its totals and signatures agree even then |

## Left out

- VideoProtocol.EveryOpenSessionHasOneOwner: sessions own processes and tasks as a whole; spawning and reaping inside a session, byte copying and parsing of worker frames are not modelled.
- VideoProtocol.AfterShutdown: `async_start`, the HTTP runner and the cancellation of the recovery task before a new warm-up are outcomes only.
- VideoRecovery.Recovery: how long a warm-up takes is given; that it obeys FIRST_FRAME_TIMEOUT itself is not modelled.
- PropertyMerge.MergedValueAt: deep copies and the order of keys in a dictionary are not modelled, since mappings are values here.
- DeviceExtraction.ExtractDevices: repeated keys of one mapping cannot occur, and unhashable or self-containing payloads are not modelled.
- ControlCalls.EveryRunIsSafe: a call and its awaited answers are one step, so states pushed between two awaits of one call appear before or after it; brightness, temperature, ventilation and air-conditioner controls, optimistic values of custom routes, and stored fields other than position and angle are left out.
- ControlExecutor.ControlExecutor.ClothesHorseControl: the control-field names and the optimistic fields other than position are left out, since no interlock reads them.
- ProfileRegistry.CustomDeviceRegistry.Load: reading and validating a profile file is an outcome; log messages, skip reasons and per-profile warnings are left out.
- ProfileRegistry.MemoIsTransparent: how the built-in taxonomy recognises a device is an input.
- DeviceInventory.InventoryFollowsHistory: the values merged into a device and its state and an updated state are parameters; callbacks on removal and the state store's priorities and revisions are left out.
- WirePacket.DeframeInvertsConcat: timeouts and short reads are left out.
- PendingRequests.StepKeepsInv: the value that a waiter returns and the event loop's scheduling are not modelled; a waiter's timeout and its cleanup are two steps.
- LockEvents.PublishesTheCollapsedStream: normalising raw packets, message events and transient updates are flat mappings and left out; uid and the extra fields of other event kinds are passed through unmodelled.
- Redaction.AlikeValuesRedactAlike: two values are compared for one salt and one mode; nothing is claimed about collisions of fingerprints.
- MeariInventory.SummarizeInventory: presence flags, transport and capability codes of a listed row are left out.
- MeariCameras.BuildProbeContext: account, endpoint, password, host-key, region and capability checks are two given predicates; the context keeps only identity fields.
- FamilyAudit.FamilyAudit.MergeFamilyResult: example lists, field shapes and timestamps of signatures, the public report and the CSV files are left out.
- Entity platforms, config flows, services and the front end are framework calls.
- The payload builders of the packet module and the type and class tables are flat data.
- The parsers, TLS client, gateway manager, temporary passwords and video archive are not part of this model.
