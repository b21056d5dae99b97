# Verification of the agent's transport-free logic

The agent keeps a Bluetooth headset and a Windows PC in step: it decides when
to open an LDAC transport, when to hand the headset over to hands-free calls,
how volume and media keys travel in both directions, and it shapes the audio
it sends. This project models the decisions, not the devices. Every state
machine appears twice: as a function on an immutable state, about which the
theorems are stated, and as a class with the source's fields whose methods are
proved to do in place exactly what the function says. Anything that comes from
outside (a sink, a read-back value, a file operation, a captured microphone, a
clock) is an arbitrary parameter.

## Modules

| module | models |
|---|---|
| `Words` | machine words, serial comparison of generations (section 3.2 of RFC 1982, zero excluded), counters that skip zero when they wrap |
| `AbsoluteVolume`, `VolumeGating` | the volume reducer and the authorization gate around it |
| `PassThrough` | the gate for media keys |
| `ActionMapping`, `ActionExecution`, `VolumeLoop` | the mapper over both gates, the recursive dispatch through a sink, and the volume loop closed through all of them |
| `ObserveLog`, `DecimalText`, `ObserveJson`, `ObserveReading` | bounded recording and replay of the gate, snapshot validation, JSON rendering, decimal text, and reading the JSON back |
| `LinkLifecycle`, `HfpSwitching`, `HfpComposition` | the lifecycle reducer, the hands-free switch, and both wired together by the host loop |
| `Samples`, `Limiter`, `FadeEnvelope` | the linked stereo limiter and the transactional fade, on real-valued samples that may also be not finite |
| `DailyConfig` | the configuration server and the host loop, interleaved lock by lock |
| `CommandLine` | quoting of command-line arguments against the Windows splitting rules |
| `LogRotation` | the rotating log over a disk on which any operation may fail |

## Where a stronger statement is false

Each of these is proved, with a concrete input or an exact condition.

- The 127-scale to percent and back is not the identity (2 is the first value that is lost, `HeadsetScaleHasGaps`). It is on exactly the 101 values whose rounding stays in a fixed range (`ScaleKeepsExactly`), and it is idempotent on all.
- A repeated notification that differs from the endpoint leaves headset and endpoint apart. `VolumeLoopQuiesces` says exactly when, and `DisagreementIsReachable` gets there from a new gate.
- A notification that takes back a pending update, or repeats a value the headset has left, leaves them apart too: over whole runs the headset follows the endpoint exactly if there is none (`HeadsetFollowsExactly`, reached in `TakenBackIsReachable`).
- Beginning the generation that is already current breaks the lockstep of mapper and gates exactly while it holds a lease or a mode (`BeginKeepsLockstep`, over whole runs `LockstepHoldsExactly`); three calls on a new mapper do it (`LockstepIsLost`).
- Adopting the first report of a preferred headset breaks the agreement of gate and reducer exactly if the value is not the endpoint's projection (`AdoptionPartsExactly`, reached in `AdoptionPartsInAStream`), until the endpoint's callback (`AdoptionSettles`).
- The reducer alone would start an engine within a suspension, exactly on a retry that comes due in it (`SuspendedStartsExactly`, reached in `SuspendedStartIsAdmitted`); its readiness then only stops it again (`ScheduledRetryReopens`). The host never triggers it, because it forgets a scheduled retry in time (`NoStartWhileSuspended`).
- The release delay holds exactly while the clock that armed it leaves room below 2^64 (`ResumeIsDelayed`, `DelayCanWrapAway`).
- A suspension whose release delay expires without render demand is not ended by rendering later (`ExpiryResumesExactly`, `SuspensionCanOutliveTheCall`, reached in daily mode in `ForgottenIsReachable`).
- A restart forgets accepted revisions, and lets old ones be accepted again, exactly when it cannot read its file (`RestartKeepsExactly`, `RestartKeepsOrderExactly`, `UnreadableFileForgets`).
- A withdrawn decision stays dead exactly as long as its epoch has not come round after 2^64 - 1 withdrawals (`DecisionsStayDeadExactly`).
- A faded block is sent once exactly as long as its revision has not come round after 2^64 - 1 turns (`BlocksAreSentOnceExactly`).
- The size bound of the rotating log fails after a failed write that left bytes behind (`BoundHoldsExactly`); one such write on a new log gets there (`StaleIsReachable`).

## Model

| member | source | states |
|---|---|---|
| Words.NewerIsAsymmetric | agent/v1_hfp_switch_state.cpp:7-13 | two nonzero generations are never each newer than the other, so two sides cannot both replace one another |
| Words.AdvanceReturns | agent/avrcp_absolute_volume_state.cpp:236-245 | an epoch shows an old nonzero value again exactly after whole turns of 2^64 - 1 steps |
| Words.AdvanceIsNewer | agent/v1_lifecycle.cpp:85-90 | up to 2^63 - 2 successors of a generation, wrap included, are accepted as newer |
| Words.AdvanceIsAcceptedExactly | agent/v1_hfp_switch_state.cpp:7-13 | any number of successors is accepted as the same or newer exactly while the lap, plus one for the skipped zero, stays below 2^63 |
| AbsoluteVolume.ScalingRoundTrip | agent/avrcp_absolute_volume_state.cpp:52-62 | percent to the 0..127 scale and back is the identity on clamped percents, and both scalings stay in range |
| AbsoluteVolume.ScalingIsIdempotent | agent/avrcp_absolute_volume_state.cpp:58-69 | what a headset value becomes on the endpoint projects to a value that asks for the same endpoint volume again |
| AbsoluteVolume.ScaleKeepsExactly | agent/avrcp_absolute_volume_state.cpp:52-69 | the 127-scale to the endpoint and back is the identity exactly on the values up to 127 whose rounding to a percent leaves a remainder from 14 to 113 |
| AbsoluteVolume.HeadsetScaleHasGaps | agent/avrcp_absolute_volume_state.cpp:52-69 | 2 is a value that does not come back |
| AbsoluteVolume.VolumeReducer.Begin | agent/avrcp_absolute_volume_state.cpp:77-95 | a newer session starts from a clean state and sends the endpoint's volume if supported; an older one changes nothing |
| AbsoluteVolume.VolumeReducer.ObserveWindowsEndpoint | agent/avrcp_absolute_volume_state.cpp:119-156 | the endpoint's callback updates the whole reducer state as `ReduceWindows`, the function the quiescence results are about |
| AbsoluteVolume.VolumeReducer.ObserveHeadsetVolume | agent/avrcp_absolute_volume_state.cpp:158-200 | a headset report updates the whole reducer state as `ReduceHeadset`, echoes and repeats suppressed |
| VolumeGating.GateAndReducerAgree | agent/avrcp_absolute_volume_state.cpp:222-276 | in every state any run of the eight entry points can reach, the reducer has a session exactly when the gate may synchronise, for the same generation, holding the last observed endpoint volume and having last sent its projection |
| VolumeGating.EpochCountsWithdrawals | agent/avrcp_absolute_volume_state.cpp:236-245 | over any run the authorization epoch has advanced once for each accepted withdrawal and for nothing else |
| VolumeGating.IssuedDecisionIsCurrent | agent/avrcp_absolute_volume_state.cpp:247-276 | a decision that carries an action is current in the state that issued it, so it names the present generation, lease and epoch |
| VolumeGating.StaleDecisionsStayDead | agent/avrcp_absolute_volume_state.cpp:428-436 | a current decision stays current exactly until the first accepted revoke, mode exit, capability loss, end or new generation, and no later run revives it short of 2^64 - 1 withdrawals |
| VolumeGating.DecisionsStayDeadExactly | agent/avrcp_absolute_volume_state.cpp:236-245 | over all states, runs and decisions with at most a given number of withdrawals none is revived exactly if that number is below 2^64 - 1 |
| VolumeGating.NotificationAsks | agent/avrcp_absolute_volume_state.cpp:386-410 | a notification asks for the endpoint exactly when it is no repeat and differs from the endpoint's projection, and never sends to the headset |
| VolumeGating.CallbackSettles | agent/avrcp_absolute_volume_state.cpp:362-384 | the faithful callback of that request leaves headset and endpoint on the same value with nothing pending, and sends exactly when the value does not survive the scaling |
| VolumeGating.SettledIsSilentForever | agent/avrcp_absolute_volume_state.cpp:119-200 | from a settled state every sequence of repeated callbacks, command responses and notifications of the held value yields no action |
| VolumeGating.VolumeLoopQuiesces | agent/avrcp_absolute_volume_state.cpp:119-200 | from every synchronised state with nothing pending one notification costs at most one endpoint write, exactly if it is new and differs from the projection, and at most one headset send, exactly if it was also lost by the scaling, then silence for ever; both ends agree except exactly for a repeat that differs from the projection |
| VolumeGating.DisagreementIsReachable | agent/avrcp_absolute_volume_state.cpp:172-182 | that exception is reached from a new gate |
| VolumeGating.WindowsSendsExactly | agent/avrcp_absolute_volume_state.cpp:119-156 | a synchronised gate sends an observation of the endpoint to the headset exactly if it projects elsewhere than the pending update, or without one than the last observation, and then sends its projection |
| VolumeGating.HeadsetFollowsExactly | agent/avrcp_absolute_volume_state.cpp:280-426 | over every run of a new gate, wherever the headset was: whenever the gate may synchronise, what the headset was commanded or reported last is the endpoint's projection, or the pending update, throughout exactly if no notification repeats a value the headset has left or takes back a pending update |
| VolumeGating.TakenBackIsReachable | agent/avrcp_absolute_volume_state.cpp:176-199 | a taken-back update is reached from a new gate, and the faithful callback then leaves headset and endpoint apart in silence |
| VolumeGating.EchoIsAwaitedExactly | agent/avrcp_absolute_volume_state.cpp:158-200 | the echo of a send is awaited from the send until the response with that value, the callback of the pending update, a new notification or a withdrawal |
| VolumeGating.ReportsAreRemembered | agent/avrcp_absolute_volume_state.cpp:362-410 | the last volumes and the kind of the last report are those last accepted in the generation |
| VolumeGating.FieldsHaveReasons | agent/avrcp_absolute_volume_state.cpp:280-426 | generation, lease, mode and capability change exactly by the accepted call of their kind or with the generation |
| VolumeGating.VolumeGate.BeginAclGeneration | agent/avrcp_absolute_volume_state.cpp:280-296 | a newer generation resets everything but the epoch, which moves on; any other changes nothing |
| VolumeGating.VolumeGate.SetGateMode | agent/avrcp_absolute_volume_state.cpp:298-313 | new state and decision are those of the gate function for a mode change of the current generation |
| VolumeGating.VolumeGate.AcquireOwnerLease | agent/avrcp_absolute_volume_state.cpp:315-328 | new state and decision are those of the gate function; a second owner is refused |
| VolumeGating.VolumeGate.RevokeOwnerLease | agent/avrcp_absolute_volume_state.cpp:330-343 | only the owner's own lease is revoked, and that withdraws authorization |
| VolumeGating.VolumeGate.ObserveCapability | agent/avrcp_absolute_volume_state.cpp:345-360 | losing the capability withdraws authorization, gaining it may activate |
| VolumeGating.VolumeGate.ObserveWindowsVolume | agent/avrcp_absolute_volume_state.cpp:362-384 | new state and decision are those of the gate function for an endpoint observation |
| VolumeGating.VolumeGate.ObserveHeadsetVolume | agent/avrcp_absolute_volume_state.cpp:386-410 | new state and decision are those of the gate function for a headset report |
| VolumeGating.VolumeGate.EndAclGeneration | agent/avrcp_absolute_volume_state.cpp:412-426 | ending the current generation drops lease, mode and capability and withdraws authorization |
| PassThrough.HoldingIsQuiet | agent/avrcp_passthrough_state.cpp:219-264 | while a key is held, no sequence of its repeats, of unknown keys and of releases of other keys acts |
| PassThrough.PressActsOnce | agent/avrcp_passthrough_state.cpp:219-264 | a press followed by any such sequence acts once, exactly if it was not held and the gate routes for an owner of the current generation, else never |
| PassThrough.PressReleasePressActsTwice | agent/avrcp_passthrough_state.cpp:219-264 | press, release and press of a key on a routing gate are two actions of that key |
| PassThrough.KeysAreHeldExactly | agent/avrcp_passthrough_state.cpp:219-264 | a key is held from its press to its own release or the press of another, a press acts exactly if it is known, not held and routed for an owner, and repeats and matching releases are told apart |
| PassThrough.StaleKeyDecisionsStayDead | agent/avrcp_passthrough_state.cpp:266-278 | a current key decision stays current exactly until the first reauthorization or the next key that acts, short of 2^64 - 1 of either |
| PassThrough.KeyFieldsHaveReasons | agent/avrcp_passthrough_state.cpp:142-264 | every other field of the gate changes exactly by the accepted call of its kind or with the generation |
| PassThrough.KeyGate.BeginAclGeneration | agent/avrcp_passthrough_state.cpp:142-158 | a newer generation starts with no lease, observing, no held key and a moved-on epoch |
| PassThrough.KeyGate.EndAclGeneration | agent/avrcp_passthrough_state.cpp:160-172 | ending the current generation drops lease, routing and held key |
| PassThrough.KeyGate.SetGateMode | agent/avrcp_passthrough_state.cpp:174-187 | only a real change of mode moves the epoch and forgets the held key |
| PassThrough.KeyGate.AcquireOwnerLease | agent/avrcp_passthrough_state.cpp:189-203 | new state and decision are those of the gate function; a second owner is refused |
| PassThrough.KeyGate.RevokeOwnerLease | agent/avrcp_passthrough_state.cpp:205-217 | only the owner's own lease is revoked |
| PassThrough.KeyGate.ObserveEvent | agent/avrcp_passthrough_state.cpp:219-264 | a key event updates the gate as `ObserveKey`, the function the one-press-one-action results are about |
| ActionMapping.BeginAgainstEnded | agent/v1_avrcp_action_mapper.cpp:133-162 | with no current generation both gates and the mapper accept a newer generation together or all refuse |
| ActionMapping.BeginKeepsLockstep | agent/v1_avrcp_action_mapper.cpp:133-162 | with a current generation, beginning keeps lockstep exactly unless it names that generation while a lease or a mode is held |
| ActionMapping.LockstepIsLost | agent/v1_avrcp_action_mapper.cpp:133-162 | three calls on a new mapper lose it: the generation begun again while its lease is held |
| ActionMapping.LockstepHoldsExactly | agent/v1_avrcp_action_mapper.cpp:133-396 | over every sequence of the mapper's ten calls, mapper and both gates agree on generation, currency, lease and modes throughout exactly if no begin names the current generation while it holds a lease or a mode |
| ActionMapping.WindowsNeverWritesWindows | agent/v1_avrcp_action_mapper.cpp:318-332 | observing the endpoint yields at most a headset send, never an endpoint write, and nothing at all before a preferred headset has spoken |
| ActionMapping.HeadsetNeverSendsHeadset | agent/v1_avrcp_action_mapper.cpp:334-377 | a headset report yields at most an endpoint write |
| ActionMapping.FirstReportIsAdopted | agent/v1_avrcp_action_mapper.cpp:334-377 | the first report of a preferred headset tells the endpoint its value, or nothing if the endpoint holds it already, and does nothing else |
| ActionMapping.FirstReportWritesExactly | agent/v1_avrcp_action_mapper.cpp:346-373 | the endpoint is told exactly if it does not hold the value already, or if a synchronised gate is newly notified of a value that the scaling loses |
| ActionMapping.AdoptionPartsExactly | agent/v1_avrcp_action_mapper.cpp:346-373 | adoption parts gate and reducer exactly if the value is not what the endpoint projects to |
| ActionMapping.AdoptionSettles | agent/v1_avrcp_action_mapper.cpp:334-377 | after a first report of either kind the faithful callback restores the agreement wherever it was lost and leaves headset and endpoint settled on one value |
| ActionMapping.KeysNeedEligibility | agent/v1_avrcp_action_mapper.cpp:22-84 | a key asks for at most one action, and for no playback change, stop or track the session does not offer |
| ActionMapping.KeysRespectTheSession | agent/v1_avrcp_action_mapper.cpp:22-84 | without a playing or paused session only volume keys act; a claimed playback change is enabled and differs from the session's playback |
| ActionMapping.StatusIsToldOnce | agent/v1_avrcp_action_mapper.cpp:241-279 | after a snapshot the headset has been told the PC's playback, and the same snapshot again notifies nothing and changes nothing |
| ActionMapping.StatusReachesTheHeadset | agent/v1_avrcp_action_mapper.cpp:241-279 | after any calls on a new mapper a snapshot leaves the headset of a routing owner told of the PC's playback, whether it had to be told or had been |
| ActionMapping.NewOwnerIsTold | agent/v1_avrcp_action_mapper.cpp:215-279 | a lease just taken is told the status anew |
| ActionMapping.NewRoutingIsTold | agent/v1_avrcp_action_mapper.cpp:188-279 | with a lease held, routing just enabled is told the status anew |
| ActionMapping.CodesLeadToActions | agent/v1_avrcp_action_mapper.cpp:22-84 | with no key held, a press of any operation code does to the session last shown exactly the one action its code and the session's abilities name, and a release nothing |
| ActionMapping.AnswersAreLabelled | agent/v1_avrcp_action_mapper.cpp:14-20 | in lockstep the calls that are taken answer with the generation they leave and whether an owner is left to act, the others answer nothing and change nothing |
| ActionMapping.PlaybackFollows | agent/v1_avrcp_action_mapper.cpp:86-105 | the playback the mapper believes in is the last a snapshot showed or a key asked for, stopped with a new or ended generation |
| ActionMapping.ControlMapper.BeginAclGeneration | agent/v1_avrcp_action_mapper.cpp:133-162 | driving both gate objects in place, the mapper takes the generation over only if both did, and then forgets lease, modes and media |
| ActionMapping.ControlMapper.EndAclGeneration | agent/v1_avrcp_action_mapper.cpp:164-186 | ending goes to both gate objects and drops the lease, the modes and all media state of the mapper, only for the current generation |
| ActionMapping.ControlMapper.SetControlMode | agent/v1_avrcp_action_mapper.cpp:188-213 | both gate objects get their mode, and newly enabled routing asks for a status notification |
| ActionMapping.ControlMapper.AcquireOwnerLease | agent/v1_avrcp_action_mapper.cpp:215-239 | the lease is the mapper's only if both gate objects hold it afterwards; otherwise the mapper's own stays |
| ActionMapping.ControlMapper.RevokeOwnerLease | agent/v1_avrcp_action_mapper.cpp:281-298 | the owner's lease, and no other, is revoked in mapper and both gate objects |
| ActionMapping.ControlMapper.SetMediaSessionSnapshot | agent/v1_avrcp_action_mapper.cpp:241-279 | only the media status changes, as in the function `StatusIsToldOnce` is about; the gates are untouched |
| ActionMapping.ControlMapper.ObserveVolumeCapability | agent/v1_avrcp_action_mapper.cpp:300-316 | the volume gate object decides, and its push is withheld while a preferred headset is silent |
| ActionMapping.ControlMapper.ObserveWindowsVolume | agent/v1_avrcp_action_mapper.cpp:318-332 | the same for an endpoint observation, as the function `WindowsNeverWritesWindows` is about |
| ActionMapping.ControlMapper.ObserveHeadsetVolume | agent/v1_avrcp_action_mapper.cpp:334-377 | the volume gate object sees the report first, then a first report is adopted by writing into its reducer, as the function the adoption results are about |
| ActionMapping.ControlMapper.ObservePassThrough | agent/v1_avrcp_action_mapper.cpp:379-396 | the key gate object decides and the eligible action is routed; the volume gate is untouched |
| ActionExecution.DispatchNestsAtMostTwice | agent/v1_avrcp_action_executor.cpp:297-325 | for every sink and every read-back a dispatch reaches the sink at most twice, and the second time without an endpoint write |
| ActionExecution.MapperAndGatesInLockstep | agent/v1_avrcp_action_executor.cpp:199-295 | after every event stream, each event with its own options, and with every sink, mapper and both gates agree on generation, currency, lease and modes |
| ActionExecution.HeadsetSpeaksFirst | agent/v1_avrcp_action_executor.cpp:199-295 | whatever ran before under whatever options, no headset volume send reaches the sink between the start of a generation that prefers the headset and its first volume event |
| ActionExecution.StartTellsStatus | agent/v1_avrcp_action_executor.cpp:199-262 | a start that routes for an owner offers the sink exactly the playback status of the PC's session; any other start offers nothing |
| ActionExecution.KeyEventsAct | agent/v1_avrcp_action_executor.cpp:263-295 | a key event offers exactly the action its code has on the session last shown, a release nothing |
| ActionExecution.EveryEventIsCounted | agent/v1_avrcp_action_executor.cpp:199-325 | over every stream errors, ignored and recognized events add up to the events fed, and the action counters are those of the sink |
| ActionExecution.FeedIsCounted | agent/v1_avrcp_action_executor.cpp:199-295 | which of the three an event is, decided by its generation, its kind and whether a generation is current |
| ActionExecution.DispatchAuthorizedActions | agent/v1_avrcp_action_executor.cpp:297-325 | mapper, counters and everything offered to the sink end as the recursive dispatch function says |
| ActionExecution.FeedEvent | agent/v1_avrcp_action_executor.cpp:199-295 | feeding one event leaves mapper, counters and sink as the function of the stream theorems says, errors included |
| VolumeLoop.EveryStreamIsAttuned | agent/v1_avrcp_action_executor.cpp:199-295 | after every event stream gate and reducer agree unless a preferred headset has spoken in this generation, and while it is silent nothing is pending and nothing was heard |
| VolumeLoop.EndpointChangeIsPushed | agent/v1_avrcp_action_mapper.cpp:318-332 | through the synchronised mapper a change of the endpoint is pushed, authorized, exactly if it projects elsewhere than the last one |
| VolumeLoop.CapabilityPushes | agent/v1_avrcp_action_mapper.cpp:300-316 | support, the last thing missing, pushes the endpoint's volume, unless the headset is preferred and silent |
| VolumeLoop.FirstReportInAStream | agent/v1_avrcp_action_mapper.cpp:334-377 | after every event stream the first report of a preferred headset is written exactly if the endpoint is elsewhere or a synchronised gate is notified of a value the scaling loses; it parts gate and reducer exactly off the projection, and the callback settles the loop |
| VolumeLoop.AdoptionPartsInAStream | agent/v1_avrcp_action_mapper.cpp:352-356 | two events of a stream lead to a first report that parts them |
| VolumeLoop.NotificationCostsOneOfEach | agent/v1_avrcp_action_executor.cpp:297-325 | through mapper, gates, executor and a sink that reads back what it was told, a notification costs at most one endpoint write and then at most one headset send, and leaves the mapper synchronised and its gate settled on the value the headset holds |
| ObserveLog.RecordingIsIncremental | agent/avrcp_absolute_volume_observe_log.cpp:161-202 | recording keeps a log consistent, and on a consistent log one validation of the new event against the stored cursor decides the same as full re-validation |
| ObserveLog.RecordedLogsAreConsistent | agent/avrcp_absolute_volume_observe_log.cpp:161-202 | every sequence of offered events, accepted or refused, leaves the stored cursor equal to the re-validated one |
| ObserveLog.OnlyConsistentLogsGrow | agent/avrcp_absolute_volume_observe_log.cpp:161-202 | a log whose events or stored cursor do not hold together takes nothing |
| ObserveLog.AcceptedExactly | agent/avrcp_absolute_volume_observe_log.cpp:66-134 | an event is accepted exactly if it is well formed and the simulated gate takes it: a start that withdraws, a lease that is taken or given up, anything else in the current generation |
| ObserveLog.RefusedForAReason | agent/avrcp_absolute_volume_observe_log.cpp:66-134 | each of the four refusals exactly for its reason |
| ObserveLog.RecordedExactly | agent/avrcp_absolute_volume_observe_log.cpp:161-202 | the recorder accepts exactly an unnumbered well-formed event that fits and that the gate of the replayed log takes |
| ObserveLog.EveryKindIsRecorded | agent/avrcp_absolute_volume_observe_log.cpp:161-202 | a stream with an event of each of the eight kinds is recorded whole from the empty log |
| ObserveLog.SimulationStep | agent/avrcp_absolute_volume_observe_log.cpp:66-134 | the replayed gate and the cursor stay in a simulation relation, and the gate never decides anything |
| ObserveLog.ReplayFollowsValidation | agent/avrcp_absolute_volume_observe_log.cpp:204-309 | replaying any log within capacity gives the verdict and cursor of validation, and a snapshot whose counters balance |
| ObserveLog.ReplayAcceptsConsistentLogs | agent/avrcp_absolute_volume_observe_log.cpp:204-309 | a log replays as accepted exactly when it is consistent, and no log whatever ends in an action violation |
| ObserveLog.RecordedLogsReplay | agent/avrcp_absolute_volume_observe_log.cpp:161-309 | every log recorded from empty replays as accepted |
| ObserveLog.SnapshotShowsTheLast | agent/avrcp_absolute_volume_observe_log.cpp:143-309 | volumes, support and requested mode of a replayed snapshot are those of the last event of their kind in the current generation, and absent without one |
| ObserveLog.SnapshotCountsKinds | agent/avrcp_absolute_volume_observe_log.cpp:204-309 | its nine counters are the numbers of events of each category in the whole log |
| ObserveLog.EventLog.Record | agent/avrcp_absolute_volume_observe_log.cpp:161-202 | the array and the summary fields end as `Recorded` says, with the status; a damaged count is refused without change |
| ObserveLog.EventLog.Replay | agent/avrcp_absolute_volume_observe_log.cpp:204-309 | status and snapshot are those of `Replayed`, with no snapshot on refusal |
| DecimalText.ParseDigits | agent/runtime_support.cpp:187-203 | the guarded digit loop reads the longest run of digits and refuses exactly runs that are empty or exceed 64 bits |
| DecimalText.PrintThenParse | agent/avrcp_absolute_volume_observe_json.cpp:65-76 | printing any 64-bit value and reading it in any context not followed by a digit gives the value and the offset after it |
| DecimalText.CanonicalDigitsPrintBack | agent/avrcp_absolute_volume_observe_json.cpp:65-76 | every digit run without a leading zero is what the printer prints for its value |
| DecimalText.WordsFitTwentyDigits | agent/avrcp_absolute_volume_observe_json.cpp:65-76 | the twenty-character digit buffer is enough for every 64-bit value |
| ObserveJson.RecordedLogsReplayToValidSnapshots | agent/avrcp_absolute_volume_observe_json.cpp:120-189 | the snapshot of every log recorded from empty passes every check of the validator |
| ObserveJson.BalancedSnapshotsAreValid | agent/avrcp_absolute_volume_observe_json.cpp:120-189 | balanced counters and tracked state imply every clause of the validator |
| ObserveJson.ValidatorAcceptsExactly | agent/avrcp_absolute_volume_observe_json.cpp:120-189 | the validator accepts exactly the snapshots within capacity whose counters balance for what they show |
| ObserveJson.TextFits | agent/avrcp_absolute_volume_observe_json.cpp:104-118 | the text of every snapshot whatever, valid or not, fits the staging buffer with room to spare |
| ObserveJson.TextDeterminesSnapshot | agent/avrcp_absolute_volume_observe_json.cpp:193-263 | two snapshots with named enumerators and the same text are the same snapshot |
| ObserveReading.ObjectIsRead | agent/avrcp_absolute_volume_observe_json.cpp:193-263 | a reader of flat objects of its own finds in the text of any snapshot its twenty-five keys and values in order |
| ObserveReading.SequenceIsRead | agent/avrcp_absolute_volume_observe_json.cpp:218-222 | schema version, event count, last sequence and the generation counters are read under their keys |
| ObserveReading.GenerationIsRead | agent/avrcp_absolute_volume_observe_json.cpp:223-228 | generation, support, their counter and whether an endpoint volume was seen are read under their keys |
| ObserveReading.EndpointIsRead | agent/avrcp_absolute_volume_observe_json.cpp:229-235 | the volumes of endpoint and headset are read under their keys |
| ObserveReading.HeadsetIsRead | agent/avrcp_absolute_volume_observe_json.cpp:236-241 | the kind of the last headset report, both its counters, the lease and its acquires are read under their keys |
| ObserveReading.ModeIsRead | agent/avrcp_absolute_volume_observe_json.cpp:242-248 | both modes and the remaining counters are read under their keys |
| ObserveReading.ObservationsAreRead | agent/avrcp_absolute_volume_observe_json.cpp:193-263 | from the text alone one can tell the generation, support, volumes, lease and mode of a snapshot with named enumerators |
| ObserveJson.FixedJsonWriter.Unsigned | agent/avrcp_absolute_volume_observe_json.cpp:65-76 | the writer appends exactly the decimal text or sets its overflow flag, bounds kept |
| ObserveJson.FixedJsonWriter.Text | agent/avrcp_absolute_volume_observe_json.cpp:54-63 | the writer appends the whole text or nothing |
| ObserveJson.StageText | agent/avrcp_absolute_volume_observe_json.cpp:193-263 | all twenty-five fields are staged in order without overflow |
| ObserveJson.Serialize | agent/avrcp_absolute_volume_observe_json.cpp:193-263 | a valid snapshot fails only when the capacity is at most the length of its text; success writes the text and a terminator and nothing else, failure leaves the buffer alone |
| LinkLifecycle.StepKeepsCoherence | agent/v1_lifecycle.cpp:67-289 | every event keeps: live media needs presence, a ready engine and an attempt within the budget; absence means no engine, no live media, no attempts |
| LinkLifecycle.EveryRunIsCoherent | agent/v1_lifecycle.cpp:67-289 | so every event sequence under every configuration stays coherent |
| LinkLifecycle.StopsFitTheLink | agent/v1_lifecycle.cpp:124-164 | a graceful stop is issued only for live media on a present link, stops of render and suspensions never cancel, and no transport opens beside a live one |
| LinkLifecycle.NothingEndsUnannounced | agent/v1_lifecycle.cpp:67-289 | live media ends only by its own stop, suppression, or muted and cancelled; an engine lease only by exit, media stop or a stop action; publication follows presence |
| LinkLifecycle.StreamsExactly | agent/v1_lifecycle.cpp:67-289 | over every run from a coherent state media streams exactly if it was started while opening, rendering and unsuspended, and no end of session, stop of render or suspension came since |
| LinkLifecycle.AnsweredOpenStreams | agent/v1_lifecycle.cpp:222-230 | an open answered while rendering and unsuspended streams, and a stop of render is then a graceful stop of transport and engine, tolerated gap or not |
| LinkLifecycle.TransportActionsHaveReasons | agent/v1_lifecycle.cpp:67-289 | each start, open and retry is issued exactly for its reason |
| LinkLifecycle.StopActionsHaveReasons | agent/v1_lifecycle.cpp:67-289 | each graceful stop and each cancellation exactly for its reason |
| LinkLifecycle.OtherActionsHaveReasons | agent/v1_lifecycle.cpp:67-289 | each engine stop, mute and publication exactly for its reason |
| LinkLifecycle.MediaHasReasons | agent/v1_lifecycle.cpp:67-289 | media opens, streams, stops and faults exactly for its reasons |
| LinkLifecycle.EngineHasReasons | agent/v1_lifecycle.cpp:67-289 | the engine starts and becomes ready exactly for its reasons |
| LinkLifecycle.FieldsHaveReasons | agent/v1_lifecycle.cpp:67-289 | presence, render demand, completed sessions and generation change exactly for their reasons, the configuration never |
| LinkLifecycle.AttemptsCountOpens | agent/v1_lifecycle.cpp:171-202 | over every run the attempt counter is the number of opens since the last reset point and never exceeds the maximum |
| LinkLifecycle.GenerationBudget | agent/v1_lifecycle.cpp:100-122 | one generation without multi-session mode or resume opens at most the maximum |
| LinkLifecycle.SessionsNeverExceedOpens | agent/v1_lifecycle.cpp:232-273 | completed sessions plus the live one never exceed the opens of the same generation |
| LinkLifecycle.ScheduledRetriesHaveADelay | agent/v1_lifecycle.cpp:39-65 | every scheduled retry is within budget, and both delay tables give it a nonzero delay exactly while fewer than four attempts were made |
| LinkLifecycle.ConfiguredRetriesHaveADelay | agent/v1_lifecycle.h:62-63 | under both configured maxima every retry scheduled in any run has a nonzero delay in both tables |
| LinkLifecycle.StepSuspends | agent/v1_lifecycle.cpp:151-202 | no event opens a transport within a suspension, and the flag follows exactly its two events and the link |
| LinkLifecycle.SuspendedStartsExactly | agent/v1_lifecycle.cpp:262-272 | an engine is started within a suspension exactly by a retry that comes due in it |
| LinkLifecycle.SuspendedStartIsAdmitted | agent/v1_lifecycle.cpp:262-272 | the reducer alone, fed a failed open, a suspension and the due retry, does start one |
| LinkLifecycle.ScheduledRetryReopens | agent/v1_lifecycle.cpp:232-273 | a retry is never scheduled within a suspension; when it comes due the engine starts and its readiness opens the transport; with a suspension in between the engine starts all the same and its readiness only stops it |
| LinkLifecycle.Lifecycle.Reduce | agent/v1_lifecycle.cpp:67-289 | all fifteen events update every field and yield the actions as the step function of the run theorems |
| HfpSwitching.ReleaseDelayWasArmed | agent/v1_hfp_switch_state.cpp:81-91 | in every trace a pending release delay was armed at some accepted step, with no capture, a connected link and one generation in every accepted step since |
| HfpSwitching.ResumeIsDelayed | agent/v1_hfp_switch_state.cpp:92-103 | a resume implies such a step, and lies at least 2000 ms after it exactly if that step's clock leaves room for the delay below 2^64 |
| HfpSwitching.DelayCanWrapAway | agent/v1_hfp_switch_state.cpp:84-89 | without that room a resume can follow at the same instant |
| HfpSwitching.EntersBalanceExits | agent/v1_hfp_switch_state.cpp:64-105 | over every trace enters minus exits of the hands-free output is the output flag |
| HfpSwitching.OutputIsLeft | agent/v1_hfp_switch_state.cpp:34-105 | over every trace the hands-free output is off whenever LDAC is available or the link is gone, so that enters equal exits there, and a resume always leaves it off |
| HfpSwitching.ActionsHaveReasons | agent/v1_hfp_switch_state.cpp:34-105 | stop, enter, exit and resume are each decided exactly for their reason |
| HfpSwitching.PhasesHaveReasons | agent/v1_hfp_switch_state.cpp:34-105 | each phase is entered or kept exactly for its reason, and the deadline is that of the step that armed the delay |
| HfpSwitching.ActionsExclude | agent/v1_hfp_switch_state.cpp:34-105 | the output is entered only during capture with no LDAC path, a stop is asked only with one, and stop and resume never come together |
| HfpSwitching.HfpSwitch.Step | agent/v1_hfp_switch_state.cpp:34-105 | the four fields and the decision end as the step function of the trace theorems says |
| HfpComposition.HostRunsTheLifecycle | agent/v1_presence_agent.cpp:3253-3300 | the host drives the lifecycle exactly as the reducer run over the events it feeds, so every lifecycle theorem holds inside it |
| HfpComposition.ShadowingIsInvisible | agent/v1_presence_agent.cpp:3253-3300 | with transport switching off, over every run the lifecycle is what it would be had nobody polled |
| HfpComposition.PlanReadsTheDecision | agent/v1_hfp_lifecycle_adapter.cpp:6-37 | a plan made by a poll is never invalid and is stale exactly when the switch refused its input |
| HfpComposition.DecisionsAreExecuted | agent/v1_hfp_lifecycle_adapter.cpp:6-37 | a poll suspends, resumes, enters and exits exactly as the switch decided, with switching on |
| HfpComposition.BlindPollsAreSilence | agent/v1_presence_agent.cpp:1129-1210 | a monitor that is not ready or sees another endpoint is as good as silence |
| HfpComposition.CommandsFitTheLink | agent/v1_presence_agent.cpp:1141-1190 | an executed suspend stops the engine and stops live media gracefully, never by cancelling; the output is entered only with neither engine nor live media |
| HfpComposition.SuspensionIsRemembered | agent/v1_presence_agent.cpp:3253-3300 | over every run the lifecycle is suspended exactly if the last executed suspend was followed by neither an executed resume nor a link edge, and then media is quiet |
| HfpComposition.NoOpenWhileSuspended | agent/v1_lifecycle.cpp:151-202 | from an executed suspend until the next executed resume or link edge no transport opens and media neither opens nor streams |
| HfpComposition.NoStartWhileSuspended | agent/v1_presence_agent.cpp:3354-3377 | under every configuration and in every run the host can deliver, its retry deadline being armed by a schedule and forgotten when due, at a render stop and with the link, no engine is started within a suspension |
| HfpComposition.ExpiryResumesExactly | agent/v1_hfp_switch_state.cpp:92-103 | when the release delay runs out the suspension ends exactly if there is render demand and no LDAC path |
| HfpComposition.SuspensionCanOutliveTheCall | agent/v1_lifecycle.cpp:100-122 | otherwise nothing short of another call or the loss of the link ends it |
| HfpComposition.ForgottenIsReachable | agent/v1_hfp_switch_state.cpp:98-101 | seven moves that the host can deliver in daily mode lead to such a suspension |
| HfpComposition.PlansAreStaleExactly | agent/v1_hfp_lifecycle_adapter.cpp:6-37 | in every reachable host a plan is stale exactly when the link has no generation yet or the connects unseen by the switch outran half the range; below 2^63 - 1 unseen connects only the former |
| HfpComposition.ReachableHostsAreCoherent | agent/v1_presence_agent.cpp:3253-3300 | every reachable host satisfies what the results about single moves ask of it |
| HfpComposition.HostLoop.PollHfp | agent/v1_presence_agent.cpp:1129-1210 | one poll steps the switch and executes the plan on the lifecycle exactly as the composed step |
| HfpComposition.HostLoop.Deliver | agent/v1_presence_agent.cpp:3354-3377 | one lifecycle event is reduced, and the scheduled retry armed or forgotten, exactly as the composed step |
| Limiter.RefusedOnlyForShortReleases | agent/v1_linked_stereo_block_limiter.cpp:30-45 | a valid call is refused exactly when the gain drop it needs exceeds the release time in frames |
| Limiter.GainSuitsWhatIsAhead | agent/v1_linked_stereo_block_limiter.cpp:129-189 | at every frame the gain is at most what the loudest sample still ahead allows, so the per-frame attack is unreachable; it never falls in a block and rises by at most two steps a frame |
| Limiter.EnvelopeStaysValid | agent/v1_linked_stereo_block_limiter.cpp:169-192 | the gain and release step left behind satisfy the condition the next call demands |
| Limiter.OutputsStayWithinCeiling | agent/v1_linked_stereo_block_limiter.cpp:129-168 | every output sample is within the ceiling and no larger in magnitude than its input |
| Limiter.StereoBalanceIsKept | agent/v1_linked_stereo_block_limiter.cpp:147-164 | the two channels of a frame keep their proportion, because one gain serves both |
| Limiter.AttackReachesTheCeiling | agent/v1_linked_stereo_block_limiter.cpp:114-125 | a block that attacks comes out with its peak exactly at the ceiling, so it is not turned down further than needed |
| Limiter.QuietPassesUnchanged | agent/v1_linked_stereo_block_limiter.cpp:129-189 | a recovered limiter leaves a block below the ceiling and its own state unchanged |
| Limiter.RecoversOnTime | agent/v1_linked_stereo_block_limiter.cpp:30-45 | unobstructed, the gain climbs in equal steps and is one exactly from the frame that is one short of the release time |
| Limiter.RecoveryIgnoresBlocks | agent/v1_linked_stereo_block_limiter.cpp:169-192 | recovery does not depend on where the frames are cut into blocks |
| Limiter.UnobstructedIsFree | agent/v1_linked_stereo_block_limiter.cpp:169-192 | a block with nothing over the ceiling ahead leaves the gain to that free recovery |
| Limiter.RecoveryIsNotHeldBack | agent/v1_linked_stereo_block_limiter.cpp:169-181 | from frame to frame the gain is the next release step, or one if that is within two steps, cut down only to what the rest of the block allows |
| Limiter.StartIsTheSmallerGain | agent/v1_linked_stereo_block_limiter.cpp:114-125 | a block starts with the smaller of the gain it found and what its peak allows |
| Limiter.ReleaseLastsItsTime | agent/v1_linked_stereo_block_limiter.cpp:30-45 | the release is as many frames long as its milliseconds at the rate |
| Limiter.NotFiniteIsSilenced | agent/v1_linked_stereo_block_limiter.cpp:26-28 | a sample that is not finite comes out as silence |
| Limiter.ReportTellsInput | agent/v1_linked_stereo_block_limiter.cpp:77-106 | no replaced sample is reported exactly if all were finite, and none over the ceiling exactly if the block peak is within it |
| Limiter.ReportTellsOutput | agent/v1_linked_stereo_block_limiter.cpp:129-189 | no reduced sample is reported exactly if no magnitude changed; the peak reported is within the ceiling and no clamp is |
| Limiter.Measure | agent/v1_linked_stereo_block_limiter.cpp:77-106 | the first pass yields frame peaks, the block peak and the counts of replaced and too loud samples and frames |
| Limiter.TakeSuffixMaxima | agent/v1_linked_stereo_block_limiter.cpp:107-112 | the second pass leaves at every frame the largest magnitude from there to the end |
| Limiter.ApplyGains | agent/v1_linked_stereo_block_limiter.cpp:129-189 | the third pass writes the scaled block, with no attack and no clamp, and leaves the envelope and counts the curve says |
| Limiter.BlockLimiter.Process | agent/v1_linked_stereo_block_limiter.cpp:56-195 | succeeds exactly on valid arguments and state with a feasible release; success limits every sample to the ceiling, re-establishes validity and reports at most one attack and no clamp, failure changes nothing |
| FadeEnvelope.DurationIsPositive | agent/v1_sent_frame_fade_envelope.cpp:78-89 | the duration in frames is between one and the rate, so its range check never fails |
| FadeEnvelope.DurationIsLeast | agent/v1_sent_frame_fade_envelope.cpp:78-89 | it is the least number of frames that lasts the milliseconds asked for at the rate |
| FadeEnvelope.RampIsALine | agent/v1_sent_frame_fade_envelope.cpp:100-112 | the gain is the straight line through the frames cut off at one, positive and never falling, below one exactly before the last frame of the fade |
| FadeEnvelope.CommitIsFresh | agent/v1_sent_frame_fade_envelope.cpp:128-146 | until the revision comes round, a block that can be committed was prepared in this session and was never committed before |
| FadeEnvelope.OnlyTheSessionMoves | agent/v1_sent_frame_fade_envelope.cpp:35-146 | after every trace only blocks of the session begun last and not ended since can be prepared or committed, and none without one |
| FadeEnvelope.EverySessionIsTheRamp | agent/v1_sent_frame_fade_envelope.cpp:35-146 | after every trace of begins, ends, prepares and commits, however long, the output sent in the session is its cleaned source times min(1, (i+1)/D) whatever the block sizes, and the committed count is its length in frames |
| FadeEnvelope.BlocksAreSentOnceExactly | agent/v1_sent_frame_fade_envelope.cpp:11-15 | no block is committed twice, in one session or across sessions, in all traces with at most a given number of begins and ends exactly if that number is below 2^64 |
| FadeEnvelope.FadeSession.Begin | agent/v1_sent_frame_fade_envelope.cpp:35-45 | a nonzero session starts at frame zero with a new revision |
| FadeEnvelope.FadeSession.End | agent/v1_sent_frame_fade_envelope.cpp:47-52 | ending moves the revision, so blocks still out can no longer be committed |
| FadeEnvelope.FadeSession.Prepare | agent/v1_sent_frame_fade_envelope.cpp:54-126 | prepares exactly under the stated conditions the fade of the source from the frames sent so far, with its telemetry, and leaves the session alone; otherwise nothing is written |
| FadeEnvelope.FadeSession.Commit | agent/v1_sent_frame_fade_envelope.cpp:128-146 | counts the block's frames exactly if it is whole and belongs to this session, revision and position |
| DailyConfig.EveryRunKeeps | agent/v1_daily_config_ipc.cpp:362-471 | from a start on any file, damaged or missing included, and for every interleaving of pipe requests, host steps, restarts and deaths the invariant holds: what the host may have missed is still pending, even after torn startup reads |
| DailyConfig.MarkedMeansAgreed | agent/v1_presence_agent.cpp:2875-2907 | a successful mark leaves host and server on the same applied quality and revision, the newest accepted; it fails exactly when a newer request came in, which is then pending |
| DailyConfig.HostNeverRunsAhead | agent/v1_presence_agent.cpp:2619-2627 | after the startup reads the host's applied configuration is the server's, never beyond the requested one |
| DailyConfig.UndisturbedTurnApplies | agent/v1_presence_agent.cpp:2875-2907 | one turn of the loop with the engine idle and no request in between applies the newest accepted request |
| DailyConfig.AcceptedRevisionsRise | agent/v1_daily_config_ipc.cpp:374-395 | while restarts that have a revision to lose read their file, accepted revisions rise strictly over all restarts and none exceeds the requested one at the end |
| DailyConfig.RestartKeepsExactly | agent/v1_daily_config_ipc.cpp:401-422 | a restart keeps the newest accepted request exactly when it can read its file back, and then has it applied |
| DailyConfig.RestartKeepsOrderExactly | agent/v1_daily_config_ipc.cpp:374-395 | after a restart only revisions above the newest accepted one are acceptable exactly when it could read its file |
| DailyConfig.UnreadableFileForgets | agent/v1_daily_config_ipc.cpp:200-211 | a trace from a fresh start in which, the file unreadable once, an older revision is accepted after a newer one |
| DailyConfig.AnswersTellTheFate | agent/v1_daily_config_ipc.cpp:362-399 | a request is answered as accepted exactly if it is valid, newer and persisted, and only then the requested revision moves; every refusal names its reason and moves only the count and the error |
| DailyConfig.StartTellsWhatItRead | agent/v1_daily_config_ipc.cpp:185-211 | a start on a missing file shows no error, on any other trouble that error, and the request it loaded or the default |
| DailyConfig.MarksWaitForTheEngine | agent/v1_presence_agent.cpp:2889-2903 | while the engine runs, or with nothing new, the host marks nothing |
| DailyConfig.ValidRequestsAreBlanks | agent/v1_daily_config_ipc.cpp:176-181 | only revision and quality of a valid request are free |
| DailyConfig.ConfigServer.Start | agent/v1_daily_config_ipc.cpp:185-211 | a start takes the persisted request as requested and applied, or the default quality and revision; a missing file is no error, every other load error is remembered as it is, and an unknown default quality is refused without change |
| DailyConfig.ConfigServer.LoadPersisted | agent/v1_daily_config_ipc.cpp:401-422 | only a valid request read in full is loaded, with the error of each way to fail |
| DailyConfig.ConfigServer.HandleRequest | agent/v1_daily_config_ipc.cpp:362-399 | state and response are those of `Handle`, which the interleaving results are about, for every request and every outcome of the write |
| DailyConfig.ConfigServer.TakeAccepted | agent/v1_daily_config_ipc.cpp:447-458 | the pending request is taken once |
| DailyConfig.ConfigServer.MarkApplied | agent/v1_daily_config_ipc.cpp:460-471 | the requested configuration becomes the applied one exactly for its own revision |
| DailyConfig.ConfigHost.Move | agent/v1_presence_agent.cpp:2875-2907 | host and server move to the end of the host's next locked section |
| CommandLine.QuoteCommandLineArgument | agent/ldac_agent.cpp:746-774 | the loop produces the quoted text for every argument |
| CommandLine.QuotedReadsBack | agent/ldac_agent.cpp:746-774 | the splitting rules read any quoted argument back as one argument equal to the original |
| CommandLine.QuotingRoundTrip | agent/ldac_agent.cpp:746-774 | quoting every argument, joining with blanks and splitting gives the same list back exactly when no argument holds a zero character |
| CommandLine.PlainStaysPlain | agent/ldac_agent.cpp:746-774 | an argument is left as it is exactly if it is not empty and holds neither blank nor quote |
| LogRotation.ShiftKeepsChain | agent/runtime_support.cpp:403-413 | moving the backups up, even if it fails midway, leaves the bytes from oldest to newest as they were |
| LogRotation.RotationDropsTheOldest | agent/runtime_support.cpp:390-423 | a rotation, wherever it fails, loses the oldest file entirely or nothing; a successful one leaves the current file empty |
| LogRotation.WriteLosesAtMostTheOldest | agent/runtime_support.cpp:328-347 | a write leaves everything that was there and the bytes that landed, less the oldest file at most and only if it had to rotate |
| LogRotation.RoomyWritesStay | agent/runtime_support.cpp:336-346 | a write that keeps the remembered size within the limit, or finds an empty or unlimited file, only adds to the current file |
| LogRotation.CrowdedWritesRotate | agent/runtime_support.cpp:328-347 | any other write, without failures, starts a new file with its data and moves every file one place up |
| LogRotation.RotationMovesEach | agent/runtime_support.cpp:390-423 | a rotation without failures moves every file one place up, loses the oldest and leaves the current file empty |
| LogRotation.OpenedHasRoom | agent/runtime_support.cpp:309-326 | an opened log knows its size and has room below its limit; one that did not open forgets its size, and touches nothing without its directory |
| LogRotation.EveryRunIsASuffix | agent/runtime_support.cpp:309-423 | after every run of writes, closes and reopens with any failures, backups and current file hold a suffix of the initial contents followed by every byte that landed |
| LogRotation.SizeAfterWrite | agent/runtime_support.cpp:328-347 | after a successful write the remembered size is at most the larger of the limit and that write, and the file exceeds it by what failed writes left |
| LogRotation.FailedWriteGoesStale | agent/runtime_support.cpp:342-346 | a write that fails on the way adds exactly its landed bytes to what the remembered size misses |
| LogRotation.BoundHoldsExactly | agent/runtime_support.cpp:336-341 | the bound on the file holds for every next write exactly if no failed write left bytes since it was opened or the remembered size has reached the limit |
| LogRotation.StaleIsReachable | agent/runtime_support.cpp:342-346 | a new log with one write that fails after its first byte has stale bytes below the limit |
| LogRotation.RotatingLog.Rotate | agent/runtime_support.cpp:390-423 | the loop over the backups does to the disk what `Rotated` says, for every pattern of failures |
| LogRotation.RotatingLog.Open | agent/runtime_support.cpp:309-326 | opening, measuring and rotating if full end as `Opened` says |
| LogRotation.RotatingLog.WriteAll | agent/runtime_support.cpp:118-133 | the write loop appends exactly the bytes that landed and succeeds exactly if all did |
| LogRotation.RotatingLog.Write | agent/runtime_support.cpp:328-347 | one write leaves the log as the function of the run theorems says |

## Left out

- Floating-point rounding and the `nextafter` correction of the safe gain: samples and gains are real numbers or not finite.
- Limiter.BlockLimiter.Process: a release step that underflows to zero does not occur over the reals, so that refusal is not modelled.
- FadeEnvelope.FadeSession.Prepare: overlapping buffers are the same array; partial overlap of two pointers has no counterpart.
- FadeEnvelope.EverySessionIsTheRamp: commits offer blocks that were prepared earlier, not ones made up by the caller.
- ActionMapping.ControlMapper: its gates are objects of their own and its media fields one value, where the source embeds structures and has separate fields.
- DailyConfig.ConfigServer.Start: failures to create the event, the thread or the pipe, after which the source stops the server again.
- ActionExecution.ReplayStats: counters do not wrap.
- HfpComposition.HostLoop.PollHfp: telemetry counters and the capture sequence number of the poll are not kept; all other events reach the lifecycle in any order, except that `NoStartWhileSuspended` and `ForgottenIsReachable` let a retry come due only while one is scheduled. The deadline of a retry is a flag, its time left open.
- DailyConfig.ConfigServer.Persist: a failed write is assumed to leave the persisted file as it was.
- LogRotation.RotatingLog: sizes are unbounded naturals, and no other process writes or deletes the files while the log is open.
- DecimalText.ParseDigits: the key lookup before the digit loop and the terminator check after it.
- CommandLine.QuotingRoundTrip: the special rule for the program name at the head of a command line.
- Null pointers and their checks.
- Parsing of log lines by regular expression and the replay drivers around it.
- `SetAvrcpAbsoluteVolumeSupport` and `EndAvrcpAbsoluteVolumeSession`, which the gate never calls.
- The virtual-key table.
- Handoff phases, the bootstrap-play timer, the render-demand tracker, the open-stability gate, endpoint selectors and the legacy reconnect gate: small machines that would only add easy members.
- AVDTP configuration, AVRCP frame decoding, devices, pipes, processes, audio sessions and clocks.
