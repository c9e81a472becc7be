# A verified model of the baru-reso-headless-container host

The repository is a headless host for Resonite sessions. It is written in C# and has three parts:

- a hosting service that runs the FrooxEngine with its engine loop;
- a world service that keeps the registry of running sessions and supervises each session;
- gRPC and GraphQL front ends that start, inspect and edit sessions and their scene graphs.

A separate pre-patcher labels and patches engine assemblies before the host starts.

This Dafny project models the host's own logic and proves what that logic promises. The engine, the cloud and the operating system are outside the model. What they return enters as a parameter: the outcome of opening or saving a world, the engine's RefID parser, `Uri.TryCreate`, a patch succeeding, a value deserialising.

## Modelling conventions

- **Time.** Time is a natural number of ticks since `DateTimeOffset.MinValue`. Intervals are in ticks, and `TimeSpan.FromSeconds(s)` is `s * 10_000_000`.
- **Numbers.** Floating-point quantities are whole numbers: away-kick minutes, the tick rate, vectors and quaternions. Where the source converts or wraps integers, the model writes it out: the `(ushort)` port cast is taken mod 65536, and cursor arithmetic wraps at 32 bits (`Wrap32`).
- **Strings.** Strings are `seq<char>`. `ToLower`, `Trim`, `Split`, `int.TryParse` and `int.ToString` are defined in `Text`, for ASCII letters and the invariant culture.
- **The world and its registry.** The world is a class, `Engine.World`, with the fields the host reads and writes. Its slot tree is a value held in `World.root`. The session registry is a map held in `Sessions.WorldService.runningWorlds`.
- **Lookups by RefID.** A RefID lookup takes the first match in pre-order. That is the engine's answer whenever RefIDs are distinct.
- **Operations that change state.** These are methods. Each method's `ensures` ties the new state and the result to a specification function or predicate of the old state. Lemmas about those specification functions state what the source promises.
- **Exceptions.** An exception that escapes an operation is an `Err` value. Examples are `First()` finding nothing, `RefID.Parse` rejecting text, and assigning null to a protobuf string.
- **The supervisor loop.** The per-session supervisor (`SessionHandlerAsync`) runs on a sequence of per-tick inputs. Events raised by other code enter as those inputs: a stop request, a world-failed event, the user count, and whether the world can save. Each pass reads the clock twice: `now` for the autosave test, and `afterSave` once `SaveWorldAuto` has returned. The save time, the idle start and the two restart tests all use `afterSave`, so the source's separate `UtcNow` reads after the save are taken as one instant.

## Where the code and the description of the system differ

The model follows the code in each case.

- **Invalid custom session id.** The description says an invalid custom session id is rejected. `WorldService.SanitizeSessionID` turns it into null instead, and the engine then assigns an id of its own.
- **Start of idle.** The description has idle time begin when the user count drops to one or fewer. The code starts it only when the count is exactly one and the previous count was above one.
- **World service revision.** The world service revision in the tree has no save lock and no dirty flag. On exit it saves exactly when `SaveOnExit` is set and the world can save.
- **Controller calls.** `GrpcControllerService` calls world-service members this revision does not define: `SaveWorldAsync`, `SaveWorldAsAsync` and `AutoSpawnItems`. It also uses the mutable `Models.RunningSession`. The controller is modelled over its own view of the registry.
- **GetPatcherVersion.** `AssemblyPatcher.GetPatcherVersion` calls `First()`, which throws when nothing matches. Its null test therefore never fails (see Findings). The model of `Process` follows the code: an assembly without a description attribute ends the run with that exception before any copy (`AssemblyPatcher.PatchOutcome`). The intended step is `AssemblyPatcher.PatchOutcomeIntended`.
- **ListContacts.** `ListContacts` is modelled as written, with the 32-bit probe `Limit + 1`, so a limit of `int.MaxValue` gives an empty page (see Findings). Each contact on the page becomes a user info whose icon goes through `CloudUtils.ResolveURL`. An icon that is not a URI, or whose scheme is neither a web scheme nor the asset database's, makes the call fail, as the exception does in the code.

## Model

| member | source | states |
|---|---|---|
| Sessions.WithPrefix | Headless/Services/WorldService.cs:125-128 | the id always starts with `S-`; one that already does is kept, any other gets the prefix |
| Sessions.SanitizeSessionId | Headless/Services/WorldService.cs:115-142 | a blank id becomes null; a kept id is the prefixed input, valid, and owned by the logged-in user; such an input is always kept |
| Sessions.SanitizeIdempotent | Headless/Services/WorldService.cs:115-142 | sanitising an already sanitised id changes nothing |
| Sessions.OnWorldFailed | Headless/Services/WorldService.cs:182-203 | a crash marks a restart exactly for this world, when not cancelled and auto-recover is on; nothing else changes |
| Sessions.OnStop | Headless/Services/WorldService.cs:105-113 | a registered session is removed and cancelled; an unknown id changes nothing |
| Sessions.ApplyEvents | Headless/Services/WorldService.cs:182-205 | events never change the session record, the autosaves or the restart reason |
| Sessions.IdleBegin | Headless/Services/WorldService.cs:233-241 | a drop to one user from more starts the idle period now; more than one user clears it; anything else keeps it |
| Sessions.ApplyEvent | Headless/Services/WorldService.cs:182-205 | one event never touches the session record, the autosaves or the restart reason; a destroy event only marks the world destroyed |
| Sessions.AfterAutosave | Headless/Services/WorldService.cs:220-232 | only the save time changes; when it does, it becomes the clock after the save and the world could save; a session whose interval has not elapsed is unchanged |
| Sessions.AfterIdleSwitch | Headless/Services/WorldService.cs:233-241 | only the idle start changes; when it does, it is cleared or becomes the clock after the save |
| Sessions.TryUpdate | Headless/Services/WorldService.cs:278 | the entry is replaced only while it still holds the record the tick started from |
| Sessions.RunTicksAfterExit | Headless/Services/WorldService.cs:207 | once the supervisor has exited, later ticks change nothing |
| Sessions.TickThatContinues | Headless/Services/WorldService.cs:218-281 | a tick that neither idles out nor hits the forced interval updates the idle start, the user count and the save time as the loop body does, taking the save time and the idle start from the clock read after the save |
| Sessions.TickThatRestarts | Headless/Services/WorldService.cs:243-271 | an elapsed idle time, checked first, or an elapsed forced interval marks a restart with its reason, destroys the world and exits |
| Sessions.EventsRestart | Headless/Services/WorldService.cs:182-203 | a restart comes only from an earlier mark or a crash of this auto-recovering world; such a crash without a stop always marks one |
| Sessions.EventsWithoutStop | Headless/Services/WorldService.cs:105-113 | without a stop request the cancellation flag is unchanged |
| Sessions.EventsCancel | Headless/Services/WorldService.cs:105-113 | cancelled exactly when already cancelled or a stop found the session registered; the stopped session leaves the registry |
| Sessions.EventsDestroy | Headless/Services/WorldService.cs:207 | the world counts as destroyed exactly when it was or a destroy event came |
| Sessions.Outcome | Headless/Services/WorldService.cs:284-296 | still running until exit; restarts exactly when exited, not cancelled and marked; a stop saves exactly when save-on-exit and saving is allowed |
| Sessions.StopMeansNoRestart | Headless/Services/WorldService.cs:289-295 | a cancelled session is never restarted |
| Sessions.FinalState | Headless/Services/WorldService.cs:64-67 | the wait ends only on a settled state; no settled state means the world was still initialising |
| Sessions.WorldService.AwaitStartup | Headless/Services/WorldService.cs:64-67 | the wait polls the world state until it leaves `Initializing`, ending in the settled state `FinalState` gives, or with none when the polls run out |
| Sessions.WorldService.GetSession | Headless/Services/WorldService.cs:28-32 | a session exactly for a registered id, and it is that id's entry |
| Sessions.WorldService.ListAll | Headless/Services/WorldService.cs:34-37 | exactly the registered sessions |
| Sessions.WorldService.StopWorld | Headless/Services/WorldService.cs:105-113 | an unknown id changes nothing; a known one is removed and its cancellation requested |
| Sessions.WorldService.StartWorld | Headless/Services/WorldService.cs:39-103 | the id is sanitised; opening failures and failed worlds give null; a running world has its parameters applied in full, as `SetParameters` states, and is registered, or rejected as a duplicate id |
| Sessions.WorldService.HandleEvents | Headless/Services/WorldService.cs:182-205 | the events act on the registry, the world and the cancellation exactly as the supervisor's event function says |
| Sessions.WorldService.HandleEvent | Headless/Services/WorldService.cs:182-205 | one event acts on the registry, the world and the cancellation exactly as the supervisor's event function says |
| Sessions.WorldService.TickBodyStep | Headless/Services/WorldService.cs:218-281 | one loop body changes the session as the supervisor's step function says, the autosave test at the clock before the save and the later tests at the clock after it |
| Sessions.WorldService.LoopPass | Headless/Services/WorldService.cs:207-282 | one pass, events then body, agrees with the supervisor's step |
| Sessions.WorldService.RunLoop | Headless/Services/WorldService.cs:207-282 | the whole loop ends in the state the pure fold over the ticks gives |
| Sessions.WorldService.SessionHandler | Headless/Services/WorldService.cs:144-296 | the handler's outcome, autosaves, cancellation and registry are those of the fold; on exit the session is removed and the world destroyed |
| Sessions.RunTicksAfterExitOrEnd | Headless/Services/WorldService.cs:207 | the loop's exit state is the fold over all ticks |
| SessionRecord.NewSession | Headless/Services/RunningSession.cs:6-14 | the record holds the values it was built with; a given save time is kept |
| SessionRecord.NewSessionNotDue | Headless/Services/RunningSession.cs:71-73 | a save time left at its default becomes the construction time, so a new record is not due for an autosave |
| SessionRecord.ElapsedInSeconds | Headless/Services/RunningSession.cs:21-66 | each interval is counted in whole seconds from the start info; an interval elapses only when positive and strictly exceeded, idleness only when an idle start is set |
| SessionRecord.ElapsedIsMonotonic | Headless/Services/RunningSession.cs:53-66 | an interval that has elapsed stays elapsed later |
| SessionRecord.ResetsClearElapsed | Headless/Services/RunningSession.cs:41-48 | a save now, a cleared idle start or an idle start now leaves nothing elapsed |
| SessionRecord.Cancellation.Cancel | Headless/Services/WorldService.cs:111 | the cancellation is requested afterwards |
| Models.RunningSession.constructor | Headless/Models/RunningSession.cs:83-95 | the intervals are the start info's seconds; auto-recover is copied; nothing has been saved or joined yet |
| Models.RunningSession.OnUserJoined | Headless/Models/RunningSession.cs:97-102 | the host's own user changes nothing; anyone else becomes the last joined user |
| Models.RunningSession.AllowUserToJoin | Headless/Models/RunningSession.cs:158-162 | the id is admitted by the world and appended to the start info's list |
| Models.RunningSession.GenerateStartupParameters | Headless/Models/RunningSession.cs:104-145 | enabled, no save-as owner; id, URL, preset, invite lists and join list from the start info; away kick -1 when disabled |
| Models.RunningSession.SaveWorld | Headless/Models/RunningSession.cs:169-208 | refused and unchanged unless the world should save and the lock is free; the record is made saveable; only a completed save moves the save time and URL; the lock is released on every path |
| Models.SaveableRecord | Headless/Models/RunningSession.cs:179-192 | no record gets a new one owned by the current user; an accessible record is kept; one without access is taken over under a fresh id |
| Models.DisabledIntervalsNeverElapse | Headless/Models/RunningSession.cs:68-81 | a non-positive interval never elapses; no idle start means no idle timeout |
| Models.AgreesWithRecord | Headless/Models/RunningSession.cs:68-81 | the class's elapsed tests agree with the record's when they hold the same intervals and times |
| Models.DirtyCases | Headless/Models/RunningSession.cs:51 | more than one user means dirty; no joined user and at most one present means clean; a join and an idle start after the last save means dirty |
| Models.RegeneratedIntervals | Headless/Models/RunningSession.cs:137-140 | regenerated parameters give back the interval seconds the session was built with |
| Models.RegeneratedAwayKick | Headless/Models/RunningSession.cs:130 | the regenerated away-kick minutes set the world's away kick back as it was |
| CloudUtils.Resolver.Setup | Headless/Libs/CloudUtils.cs:9-12 | the asset interface is replaced |
| CloudUtils.Resolver.ResolveURL | Headless/Libs/CloudUtils.cs:20-31 | web schemes pass unchanged; the asset scheme is converted; any other scheme is an unsupported-scheme error |
| CloudUtils.Resolver.ResolveURLString | Headless/Libs/CloudUtils.cs:33-36 | null stays null; text that is not a URI is an error; otherwise the text of the resolved URI |
| Engine.FilterRole | Headless/Extensions/WorldExtensions.cs:207-218 | the role is kept unless it outranks the host's, and the result never outranks either |
| Engine.World.AllowUserToJoin | Headless/Extensions/WorldExtensions.cs:117-121 | the id is appended to the world's admitted users |
| WorldExtensions.Filter | Headless/Extensions/WorldExtensions.cs:65-76 | keeps exactly the parent session ids the validity test accepts, never more than given |
| WorldExtensions.FilterAllValid | Headless/Extensions/WorldExtensions.cs:65-76 | a list of valid ids passes through unchanged and in order |
| WorldExtensions.ConfigureParentSessions | Headless/Extensions/WorldExtensions.cs:58-79 | no list leaves the world's parents alone; otherwise they become the valid ids of the list |
| WorldExtensions.FindContact | Headless/Extensions/WorldExtensions.cs:96 | finds a contact whose user name matches ignoring case, and none exactly when no contact matches |
| WorldExtensions.HandlersAddedExactly | Headless/Extensions/WorldExtensions.cs:91-106 | an id becomes an invite handler exactly when a listed name not already present has a contact with that id |
| WorldExtensions.ConfigureInviteRequestHandlers | Headless/Extensions/WorldExtensions.cs:81-108 | logged out adds nothing; logged in appends the contact ids of the listed names that are not yet handlers |
| WorldExtensions.ContactIds | Headless/Extensions/WorldExtensions.cs:134-145 | every id it yields belongs to a contact; names without a contact are skipped |
| WorldExtensions.SendAutomaticInvites | Headless/Extensions/WorldExtensions.cs:110-167 | the pre-allowed ids are admitted first; the contacts of the auto-invite names follow only when a list is given and the host is logged in |
| WorldExtensions.FindRoleByName | Headless/Extensions/WorldExtensions.cs:200 | the role returned has that name; none exactly when no role has it |
| WorldExtensions.PermissionsWithinHostRole | Headless/Extensions/WorldExtensions.cs:191-222 | no default permission ends up ranked above the host's role |
| WorldExtensions.PermissionsKeys | Headless/Extensions/WorldExtensions.cs:191-222 | a user has a default permission afterwards exactly when it had one or an entry names it with an existing role |
| WorldExtensions.ConfigurePermissions | Headless/Extensions/WorldExtensions.cs:169-226 | the permissions are cleared unless original roles are kept, then each resolvable entry replaces the user's permission, capped at the host's role |
| WorldExtensions.GuardedPath | Headless/Extensions/WorldExtensions.cs:235-245 | a given valid path replaces the setting; a missing or invalid one leaves it |
| WorldExtensions.SetCloudVariableParameters | Headless/Extensions/WorldExtensions.cs:228-288 | the four cloud-variable paths are each guarded by the path check; the deny message is copied whenever given |
| WorldExtensions.AwayKick | Headless/Extensions/WorldExtensions.cs:34-43 | away kick is enabled exactly for a positive minute count, which it keeps; otherwise -1 |
| WorldExtensions.AssignListingFields | Headless/Extensions/WorldExtensions.cs:11-24 | name and tags change only when given; access level, join verifier, listing, user limit, mobile flag and description are copied |
| WorldExtensions.AssignLifecycleFields | Headless/Extensions/WorldExtensions.cs:25-43 | full update cycle is the negation of auto sleep; a valid override becomes the world id; away kick follows the minute count |
| WorldExtensions.AssignFields | Headless/Extensions/WorldExtensions.cs:11-44 | the listing, lifecycle and cloud-variable fields are set as the three steps above state |
| WorldExtensions.ConfigureAccess | Headless/Extensions/WorldExtensions.cs:46-53 | parents, invite handlers (only for a non-empty list), permissions and join admissions as the four steps state |
| WorldExtensions.SetParameters | Headless/Extensions/WorldExtensions.cs:9-56 | returns the parameters it was given; every world field it writes holds what the steps above state: listing fields, lifecycle fields, cloud-variable paths, parents, invite handlers, permissions and join admissions |
| RpcConversion.AccessLevelToProto | Headless/Extensions/RpcConversionExtensions.cs:11-23 | each named engine access level maps to its wire level; exactly the unnamed ones map to `Unspecified` |
| RpcConversion.AccessLevelToResonite | Headless/Extensions/RpcConversionExtensions.cs:25-37 | the result is always a named level, and an unspecified or unknown wire level opens a private session |
| RpcConversion.AccessLevelRoundTrips | Headless/Extensions/RpcConversionExtensions.cs:11-37 | the six named levels survive engine-wire-engine and wire-engine-wire |
| RpcConversion.NonEmpty | Headless/Extensions/RpcConversionExtensions.cs:151-173 | an unset or empty wire string is absent on the engine side, any other is kept |
| RpcConversion.ZeroIsDisabled | Headless/Extensions/RpcConversionExtensions.cs:136-144 | a zero interval or away-kick becomes -1, any other value is kept |
| RpcConversion.PortToResonite | Headless/Extensions/RpcConversionExtensions.cs:141 | a port of zero or less is no port; a positive port below 2^16 is kept as an unsigned short |
| RpcConversion.RolesToProto | Headless/Extensions/RpcConversionExtensions.cs:48 | one wire role per dictionary entry, in order, with the same user and role |
| RpcConversion.RolesToResonite | Headless/Extensions/RpcConversionExtensions.cs:135 | every entry in order with distinct user names, or the failure naming a user listed twice |
| RpcConversion.RolesRoundTrip | Headless/Extensions/RpcConversionExtensions.cs:48 | an engine role dictionary sent to the wire and read back is unchanged |
| RpcConversion.ParametersToProto | Headless/Extensions/RpcConversionExtensions.cs:39-124 | fails exactly when both the URL and the preset name are null; sends the URL if there is one, else the preset |
| RpcConversion.ToProtoDefaults | Headless/Extensions/RpcConversionExtensions.cs:43-54 | a null port is sent as 0, a null listing flag as not hidden, null tags as empty; the user limit is always set |
| RpcConversion.ParametersToResonite | Headless/Extensions/RpcConversionExtensions.cs:126-220 | fails exactly on a repeated role user; otherwise enabled, named level, user limit only when present, no zero interval, the URL winning over the preset |
| RpcConversion.EngineRoundTrip | Headless/Extensions/RpcConversionExtensions.cs:39-220 | engine parameters sent and read back keep level, limit, roles, tags and URL; a zero interval becomes -1, port 0 no port, an empty name null |
| RpcConversion.ProtoRoundTrip | Headless/Extensions/RpcConversionExtensions.cs:39-220 | wire parameters read and sent back keep level, roles and URL; the limit becomes present, a port is kept modulo 2^16 |
| RpcConversion.SessionToProto | Headless/Extensions/RpcConversionExtensions.cs:222-257 | fails exactly when the start parameters or the thumbnail cannot be converted; otherwise id, name or `<Empty Name>`, description, away-kick or -1, last save and URLs come from the session |
| RpcConversion.SessionViewIsConsistent | Headless/Extensions/RpcConversionExtensions.cs:222-257 | the session view and the start parameters inside it agree on access level, user limit, away-kick, intervals and saving |
| GrpcController.Wrap32 | Headless/Services/GrpcControllerService.cs:607-624 | the result is a 32-bit integer, equal to the input whenever the input already is one |
| GrpcController.Skip | Headless/Services/GrpcControllerService.cs:607 | the suffix after the first `n` elements, all of them for a negative count |
| GrpcController.Take | Headless/Services/GrpcControllerService.cs:607-609 | the prefix of length `n` clamped to the sequence, empty for a negative count |
| GrpcController.IntervalFromSeconds | Headless/Services/GrpcControllerService.cs:270-295 | positive seconds give a positive interval of that many seconds; anything else the disabled interval of -1 second |
| GrpcController.IntervalUpdateIsReported | Headless/Services/GrpcControllerService.cs:285-295 | after a non-positive autosave update the session never autosaves, and its start parameters report the seconds or -1 |
| GrpcController.PassedChecks | Headless/Services/GrpcControllerService.cs:312-368 | at most five checks pass before the first failure |
| GrpcController.RejectionIsFirstFailure | Headless/Services/GrpcControllerService.cs:312-368 | an update is accepted exactly when the world id and the four cloud variable paths are all acceptable, and the first failing check is the one reported |
| GrpcController.EmptyUpdateChangesNothing | Headless/Services/GrpcControllerService.cs:241-376 | a request with no field set leaves every session setting as it was |
| GrpcController.UpdateIsIdempotent | Headless/Services/GrpcControllerService.cs:241-376 | applying the same update twice gives the same settings as applying it once |
| GrpcController.RejectionKeepsEarlierFields | Headless/Services/GrpcControllerService.cs:241-376 | a rejected update still applies every field before the failing check, and nothing after it |
| GrpcController.ApplyNames | Headless/Services/GrpcControllerService.cs:241-256 | name, description, user limit and access level become the requested ones where present |
| GrpcController.ApplyFlags | Headless/Services/GrpcControllerService.cs:296-311 | listing, join verifier and mobile flags become the requested ones where present |
| GrpcController.ApplyTimers | Headless/Services/GrpcControllerService.cs:257-303 | away-kick, idle restart, save on exit, autosave and auto-sleep are updated as the request says, non-positive values disabling |
| GrpcController.ApplyWorldId | Headless/Services/GrpcControllerService.cs:312-324 | the corresponding world is set when an id is given and valid; the result says whether the check passed |
| GrpcController.ApplyPaths | Headless/Services/GrpcControllerService.cs:325-368 | each cloud variable is written only when its path and every earlier check passed; fails with the first failing check |
| GrpcController.ApplyTail | Headless/Services/GrpcControllerService.cs:369-376 | the deny message and the tags are written as requested once every check passed |
| GrpcController.ApplyUnchecked | Headless/Services/GrpcControllerService.cs:241-311 | the fields without a check are all updated as the request says |
| GrpcController.ApplyChecked | Headless/Services/GrpcControllerService.cs:312-376 | the checked fields are updated up to the first failing check, and the result names that check |
| GrpcController.ApplyUpdate | Headless/Services/GrpcControllerService.cs:241-378 | the session settings become the specified update of the old ones; accepted exactly when all checks pass |
| GrpcController.FindRole | Headless/Services/GrpcControllerService.cs:197 | the first role whose name equals the requested one ignoring case, and none exactly when no role does |
| GrpcController.FindGuest | Headless/Services/GrpcControllerService.cs:206-214 | the first non-host user with the requested id, or name when no id is given, and none exactly when there is no such user |
| GrpcController.AssignedRoleIsClamped | Headless/Services/GrpcControllerService.cs:202-214 | the role granted never outranks the host's role, and the host is never the user changed |
| GrpcController.CursorStart | Headless/Services/GrpcControllerService.cs:601-605 | the start index is a 32-bit integer, and an empty cursor starts at 0 |
| GrpcController.PageAsWritten | Headless/Services/GrpcControllerService.cs:607-625 | the page as written: a prefix of the contacts from the start, never longer than the limit |
| GrpcController.MaxLimitPageIsEmpty | Headless/Services/GrpcControllerService.cs:607-609 | with the limit at `int.MaxValue` the page as written is empty and has no cursor, while the corrected page holds the contact |
| GrpcController.Page | Headless/Services/GrpcControllerService.cs:607-625 | the first `limit` contacts from the start, with a next cursor exactly when more remain, at start plus limit |
| GrpcController.CursorTextRoundTrips | Headless/Services/GrpcControllerService.cs:602-624 | the cursor text handed out is read back as the number it was made from |
| GrpcController.CursorContinuesPage | Headless/Services/GrpcControllerService.cs:601-625 | following the cursor continues where the page ended, nothing skipped or repeated |
| GrpcController.PageAsWrittenBelowMax | Headless/Services/GrpcControllerService.cs:607-625 | below `int.MaxValue` the page as written is the corrected page; at `int.MaxValue` it is empty with no cursor |
| GrpcController.IconText | Headless/Services/GrpcControllerService.cs:615 | a resolved icon URL is kept; none becomes the empty text |
| GrpcController.UserInfos | Headless/Services/GrpcControllerService.cs:611-616 | one user info per contact, in order, with its id, name and resolved icon; fails exactly when some contact's icon does not resolve, with the first such error |
| GrpcController.ListContacts | Headless/Services/GrpcControllerService.cs:595-626 | the users are the ids and names of a prefix of the contacts from the cursor; at `int.MaxValue` the page is empty with no cursor; below it the corrected page's contacts, each projected with its resolved icon, and its cursor, failing exactly when an icon on the page does not resolve |
| GrpcController.UnsupportedIconFails | Headless/Services/GrpcControllerService.cs:615 | a contact whose icon is a URI of a scheme the resolver does not serve makes the call fail with that scheme's error |
| GrpcController.TypeToProto | Headless/Services/GrpcControllerService.cs:766-773 | the four named message types keep their names; exactly the other ones become `Unspecified` |
| GrpcController.HasIdAt | Headless/Services/GrpcControllerService.cs:658 | a message carries the id, the source's `Any`, exactly when some position holds one that does |
| GrpcController.IndexOfId | Headless/Services/GrpcControllerService.cs:721-732 | the first index holding a message with that id, present exactly when some message has it |
| GrpcController.Insert | Headless/Services/GrpcControllerService.cs:710 | inserting into a newest-first list keeps it newest first and adds exactly that message |
| GrpcController.InsertKeepsOrder | Headless/Services/GrpcControllerService.cs:710 | the inserted message comes before the messages of its send time, which keep their order |
| GrpcController.SortNewestFirst | Headless/Services/GrpcControllerService.cs:710 | the result is newest first and a permutation of the input, and messages with equal send times keep their input order, as the stable `OrderByDescending` does |
| GrpcController.OlderThanWithin | Headless/Services/GrpcControllerService.cs:685 | every message kept is of the batch and sent before the given time |
| GrpcController.OlderThanKeeps | Headless/Services/GrpcControllerService.cs:685 | no message of the batch sent before the given time is dropped |
| GrpcController.Searches | Headless/Services/GrpcControllerService.cs:658 | a search further back runs exactly for a non-empty target id that no message of a non-empty first batch carries |
| GrpcController.FetchLimit | Headless/Services/GrpcControllerService.cs:633-635 | never more than 100; the limit plus one, capped at 100, for a limit below `int.MaxValue`; `int.MinValue` when the sum wraps at `int.MaxValue` |
| GrpcController.SearchStep | Headless/Services/GrpcControllerService.cs:673-703 | one round never shortens what is held |
| GrpcController.SearchStepMeaning | Headless/Services/GrpcControllerService.cs:673-703 | one round keeps what is held and appends exactly the batch's messages older than the oldest held; `moreOlder` becomes whether the batch was full; it stops exactly when the target is held or the batch reaches the new oldest time; an empty batch changes nothing and goes on |
| GrpcController.SearchStepExtends | Headless/Services/GrpcControllerService.cs:684-687 | a round keeps the held messages as the start of what it holds |
| GrpcController.SearchFrom | Headless/Services/GrpcControllerService.cs:665-707 | the search from a given fetch on, as a value: ten fetches at most, a failed fetch fails it with the fetch error, a stopping round ends it |
| GrpcController.SearchFromUnfold | Headless/Services/GrpcControllerService.cs:665-707 | a failed fetch fails the search; an answered one ends it if its round stops and goes on from the next fetch otherwise |
| GrpcController.SearchAdvance | Headless/Services/GrpcControllerService.cs:665-707 | given the round's result, the search from this fetch is that result when it stops and the search from the next fetch otherwise |
| GrpcController.SearchFromExtends | Headless/Services/GrpcControllerService.cs:684-687 | the search only appends: it ends with the messages it held at its start |
| GrpcController.SearchFromSucceeds | Headless/Services/GrpcControllerService.cs:667-671 | when every fetch answers, the search succeeds, so it fails only for a failed fetch |
| GrpcController.SearchFromKeepsTarget | Headless/Services/GrpcControllerService.cs:693-696 | a target already held is still held when the search ends |
| GrpcController.SearchFromProvenance | Headless/Services/GrpcControllerService.cs:684-686 | every message the search ends with was held at its start or came from one of the fetches |
| GrpcController.SearchFromFindsTarget | Headless/Services/GrpcControllerService.cs:685-696 | a target in a fetched batch, older than the oldest held, is held when the search ends |
| GrpcController.SearchOlder | Headless/Services/GrpcControllerService.cs:657-707 | the loop's result is exactly `SearchFrom` from the first fetch: the same messages in the same order and the same `moreOlder`, or the same failure |
| GrpcController.SearchBatch | Headless/Services/GrpcControllerService.cs:673-703 | exactly the round `SearchStep`: an empty batch changes nothing; otherwise only the batch's messages older than the oldest held are appended, and the search stops exactly when the target is held or the batch reaches the new oldest time |
| GrpcController.Fetched | Headless/Services/GrpcControllerService.cs:633-711 | the fetch phase as a value: a failed first fetch fails; a first batch that needs no search is the result, with whether it was full; only the fetch error occurs |
| GrpcController.FetchedProperties | Headless/Services/GrpcControllerService.cs:649-711 | the fetch phase keeps the first batch, adds only fetched messages, sorts a search's messages newest first, and succeeds when every fetch answers |
| GrpcController.FetchMessages | Headless/Services/GrpcControllerService.cs:633-711 | exactly `Fetched`: a failed first fetch fails; without a search the first batch is returned with whether it was full; after a search the messages gathered, sorted newest first, containing the first batch and only fetched messages |
| GrpcController.Window | Headless/Services/GrpcControllerService.cs:742-760 | at most `limit` consecutive messages from the start; "more before" is false only when the window reaches the oldest message held and the cloud has nothing older |
| GrpcController.SliceMessages | Headless/Services/GrpcControllerService.cs:713-760 | fails exactly on an unknown before or after id; otherwise a window of at most `limit` messages after the before id or ending at the after id |
| GrpcController.SliceProperties | Headless/Services/GrpcControllerService.cs:713-760 | a slice of newest-first messages is newest first, and a slice without more before ends at the oldest message held |
| GrpcController.GetContactMessages | Headless/Services/GrpcControllerService.cs:629-786 | exactly the slice of the fetched messages, or the fetch's failure; a failure is the fetch error or an invalid argument; at most `limit` fetched messages, newest first whenever a search ran or the first batch was, with `hasMoreAfter` exactly for a before id |
| GrpcController.ParseItems | Headless/Services/GrpcControllerService.cs:918-925 | every item URL parsed in order, or the first item that does not parse, and a failure exactly when one does not |
| GrpcController.Controller.constructor | Headless/Services/GrpcControllerService.cs:58-70 | a new controller has not been asked to shut down |
| GrpcController.Controller.Shutdown | Headless/Services/GrpcControllerService.cs:58-70 | the first call requests shutdown once; later calls do nothing more |
| GrpcController.Controller.FindSession | Headless/Services/GrpcControllerService.cs:84-88 | the registered session, or `Session not found` exactly when the id is unknown |
| GrpcController.Controller.StartWorld | Headless/Services/GrpcControllerService.cs:95-113 | unavailable while shutting down, an invalid argument without URL and preset, an internal error when the world does not open, else the opened session |
| GrpcController.Controller.AllowUserToJoin | Headless/Services/GrpcControllerService.cs:178-188 | `Session not found` for an unknown id; otherwise the user id is appended to the world's admitted users and to the session's start info, which changes in nothing else; no other field can change |
| GrpcController.Controller.UpdateSessionParameters | Headless/Services/GrpcControllerService.cs:234-379 | `Session not found` for an unknown id, otherwise the session's settings become the specified update; only the settings' own fields of that session and its world can change |
| GrpcController.Controller.UpdateUserRole | Headless/Services/GrpcControllerService.cs:190-232 | errors for unknown session, role or user; otherwise the user gets the requested role clamped to the host's and the reply names it; only the world's users and default permissions can change |
| GrpcController.Controller.UpdateHostSettings | Headless/Services/GrpcControllerService.cs:902-929 | tick rate, transfer limit and user name change only for positive or non-empty values; the item list is replaced by the parsed URLs or the call fails |
| HeadlessStartupConfig.NameOf | Headless/Configuration/HeadlessStartupConfig.cs:56-79 | an entry is read as a URI exactly when the trimmed, lowered text is an absolute URI with a host; otherwise it is split at a colon |
| HeadlessStartupConfig.NameOfCases | Headless/Configuration/HeadlessStartupConfig.cs:63-79 | text with exactly one colon gives the host before it and the port text after it; any other text is the host as a whole |
| HeadlessStartupConfig.PortOfText | Headless/Configuration/HeadlessStartupConfig.cs:57-76 | port text that is a 32-bit integer's printing gives that port, and text that does not parse gives 80 |
| HeadlessStartupConfig.PortOf | Headless/Configuration/HeadlessStartupConfig.cs:57-76 | a URI gives its own port; otherwise a 32-bit port: the parsed port text, or 80 without text or with text that does not parse |
| HeadlessStartupConfig.AccessTypesFor | Headless/Configuration/HeadlessStartupConfig.cs:84-92 | HTTP, WebSocket and OSC sending always; OSC receiving exactly for `localhost` |
| HeadlessStartupConfig.EntryFor | Headless/Configuration/HeadlessStartupConfig.cs:80-98 | no entry exactly for an empty host; otherwise that host with its single port and the access types for it |
| HeadlessStartupConfig.ParseHostEntry | Headless/Configuration/HeadlessStartupConfig.cs:54-98 | no entry exactly when the parsed host is empty; otherwise that non-empty host with one port and the access types for it |
| HeadlessStartupConfig.Present | Headless/Configuration/HeadlessStartupConfig.cs:99 | dropping the nulls never lengthens the list |
| HeadlessStartupConfig.PresentMembers | Headless/Configuration/HeadlessStartupConfig.cs:99 | exactly the non-null entries are kept |
| HeadlessStartupConfig.PresentAppend | Headless/Configuration/HeadlessStartupConfig.cs:99-103 | dropping nulls keeps the order of the entries |
| HeadlessStartupConfig.PresentKeepsAll | Headless/Configuration/HeadlessStartupConfig.cs:99 | nothing is dropped exactly when every entry is present |
| HeadlessStartupConfig.ParsedEntries | Headless/Configuration/HeadlessStartupConfig.cs:54-99 | one parse result per configured host, at its place |
| HeadlessStartupConfig.AllowedHosts | Headless/Configuration/HeadlessStartupConfig.cs:52-103 | never more allowed hosts than configured entries, and as many exactly when every entry parses to a host |
| HeadlessStartupConfig.AllowedHostsWellFormed | Headless/Configuration/HeadlessStartupConfig.cs:52-103 | every allowed host added has a non-empty host and one port, and comes from one of the configured entries |
| HeadlessStartupConfig.EnabledWorlds | Headless/Configuration/HeadlessStartupConfig.cs:47 | keeps exactly the enabled start worlds |
| HeadlessStartupConfig.ConvertAll | Headless/Configuration/HeadlessStartupConfig.cs:45-51 | a success converts every world; a failure is the failure of one of the worlds |
| HeadlessStartupConfig.ConvertAllMeaning | Headless/Configuration/HeadlessStartupConfig.cs:45-51 | converting the worlds fails exactly when one of them fails, and otherwise holds each world's conversion at its place |
| HeadlessStartupConfig.ConvertAllAppend | Headless/Configuration/HeadlessStartupConfig.cs:45-51 | converting a concatenation converts the parts in turn, the first failure winning |
| HeadlessStartupConfig.ConvertAllSingle | Headless/Configuration/HeadlessStartupConfig.cs:49 | a single world converts to its conversion or fails with it |
| HeadlessStartupConfig.ConvertEach | Headless/Configuration/HeadlessStartupConfig.cs:47-50 | the loop converts the worlds in order as specified, stopping at the first failure |
| HeadlessStartupConfig.AddAll | Headless/Configuration/HeadlessStartupConfig.cs:100-111 | the loop appends the items in order |
| HeadlessStartupConfig.CopySettings | Headless/Configuration/HeadlessStartupConfig.cs:28-44 | the universe and user name are copied; tick rate and transfer limit only when positive |
| HeadlessStartupConfig.LoadFromVanillaConfig | Headless/Configuration/HeadlessStartupConfig.cs:16-114 | no file gives null; otherwise the settings, the enabled worlds converted, the allowed hosts and the spawn items, failing exactly when a world fails to convert, with that world's error |
| HeadlessStartupConfig.Config.constructor | Headless/Configuration/HeadlessStartupConfig.cs:11-14 | the configuration is the loaded one, or the empty one without a file |
| HeadlessStartupConfig.Config.Parse | Headless/Configuration/HeadlessStartupConfig.cs:122-129 | a parse error is reported; a parsed document replaces the value, a null one leaves it |
| HeadlessStartupConfig.Load | Headless/Configuration/HeadlessStartupConfig.cs:11-14 | without a vanilla file the new configuration is the empty one; with one it is the converted configuration (settings, enabled worlds converted, allowed hosts, spawn items), and loading fails exactly when a start world fails to convert, with that world's error |
| HostLoop.PassesRun | Headless/Services/StandaloneFrooxEngineService.cs:185 | the loop runs exactly the passes before the first one whose condition finds the service cancelled, the engine shut down and startup complete |
| HostLoop.FirstShutdown | Headless/Services/StandaloneFrooxEngineService.cs:206-212 | the pass that begins the shutdown, if any, is one of the passes run |
| HostLoop.FirstShutdownMeaning | Headless/Services/StandaloneFrooxEngineService.cs:206-212 | the shutdown begins at the first pass that sees the service cancelled after startup, and not at all when no pass does |
| HostLoop.FirstShutdownStable | Headless/Services/StandaloneFrooxEngineService.cs:206-212 | once the shutdown has begun, later passes do not move it |
| HostLoop.Throws | Headless/Services/StandaloneFrooxEngineService.cs:189-197 | one entry per pass saying whether its engine update threw |
| HostLoop.PassSteps | Headless/Services/StandaloneFrooxEngineService.cs:187-212 | a pass makes two or three calls |
| HostLoop.PassStepsCounts | Headless/Services/StandaloneFrooxEngineService.cs:187-212 | a pass waits for one tick and runs one update, and begins the shutdown exactly when none has begun and the service is cancelled after startup |
| HostLoop.TraceCounts | Headless/Services/StandaloneFrooxEngineService.cs:185-213 | after n passes the loop waited n ticks, ran the n updates in order, and began the shutdown at most once |
| HostLoop.TracePrefix | Headless/Services/StandaloneFrooxEngineService.cs:185-213 | what the loop has done after fewer passes is a prefix of what it does after more |
| HostLoop.ShutdownPass | Headless/Services/StandaloneFrooxEngineService.cs:206-212 | the shutdown begins at the end of the pass that first sees the service cancelled after startup, after as many ticks as passes |
| HostLoop.TraceOrder | Headless/Services/StandaloneFrooxEngineService.cs:187-191 | the standalone service waits for the tick before each update, the runner waits after it |
| HostLoop.LoopStepsSplit | Headless/Services/StandaloneFrooxEngineService.cs:185-215 | the loop's calls are its passes followed by one wait for the shutdown exactly when the loop exited after beginning it |
| HostLoop.LoopStepsWork | Headless/Services/StandaloneFrooxEngineService.cs:185-213 | the whole loop waits one tick per pass run and runs their updates in order, an exception never ending it |
| HostLoop.LoopStepsShutdownCounts | Headless/Services/StandaloneFrooxEngineService.cs:206-215 | the shutdown begins at most once, and is awaited at most once |
| HostLoop.LoopStepsExtendTrace | Headless/Services/StandaloneFrooxEngineService.cs:185-215 | the loop's calls extend those of the passes it ran, with one await of the shutdown after them when it exits after beginning one |
| HostLoop.LoopStepsShutdown | Headless/Services/StandaloneFrooxEngineService.cs:206-215 | when the loop exits after beginning the shutdown its last call awaits it, and the shutdown began at the first pass that allowed it |
| StandaloneFrooxEngineService.GrantsFor | Headless/Services/StandaloneFrooxEngineService.cs:282-289 | HTTP, WebSocket and OSC sending for the host always; the OSC receiver exactly for `localhost` |
| StandaloneFrooxEngineService.EntryGrants | Headless/Services/StandaloneFrooxEngineService.cs:253-289 | no grants exactly for an empty host; every grant but the OSC receiver names the entry's host |
| StandaloneFrooxEngineService.NamedGrants | Headless/Services/StandaloneFrooxEngineService.cs:251-292 | every grant but the OSC receiver names a non-empty host |
| StandaloneFrooxEngineService.HostGrants | Headless/Services/StandaloneFrooxEngineService.cs:246-292 | every grant for the configured list, except the OSC receiver, names a non-empty host |
| StandaloneFrooxEngineService.Names | Headless/Services/StandaloneFrooxEngineService.cs:251-276 | one parsed host per entry |
| StandaloneFrooxEngineService.HostGrantsMatchConfig | Headless/Services/StandaloneFrooxEngineService.cs:246-292 | the hosts this service allows are exactly those of the allowed-host entries the startup configuration builds from the same list |
| StandaloneFrooxEngineService.EntryGrantsMatch | Headless/Services/StandaloneFrooxEngineService.cs:253-289 | one entry is allowed exactly as the configuration's entry for it, and not at all when the configuration drops it |
| StandaloneFrooxEngineService.ReadHostEntry | Headless/Services/StandaloneFrooxEngineService.cs:253-276 | the loop body reads the host and port exactly as the configuration's parser does |
| StandaloneFrooxEngineService.AllowEntry | Headless/Services/StandaloneFrooxEngineService.cs:253-289 | one entry adds its grants, none for an empty host |
| StandaloneFrooxEngineService.AllowHosts | Headless/Services/StandaloneFrooxEngineService.cs:246-292 | the loop grants exactly the specified grants of every entry, in order |
| StandaloneFrooxEngineService.EngineLoop | Headless/Services/StandaloneFrooxEngineService.cs:174-216 | the loop's calls are the specified trace with the tick before the update, and it exits exactly when some pass allows it |
| StandaloneFrooxEngineService.ShutdownEngine | Headless/Services/StandaloneFrooxEngineService.cs:157-172 | stops all worlds first, then exits the app, then waits for uploads exactly when logged in; no call is made twice |
| StandaloneFrooxEngineService.Service.constructor | Headless/Services/StandaloneFrooxEngineService.cs:91-146 | nothing is configured, granted or started yet |
| StandaloneFrooxEngineService.Service.Configure | Headless/Services/StandaloneFrooxEngineService.cs:124-132 | the user name and transfer limit are written as configured, even when null; the universe only when present; the hosts are allowed |
| StandaloneFrooxEngineService.Service.StartWorlds | Headless/Services/StandaloneFrooxEngineService.cs:133-143 | only enabled worlds are started, in order; a start that throws ends the startup there, and startup completes exactly when none throws |
| FrooxEngineRunnerService.PortAccessMembers | Headless/Services/FrooxEngineRunnerService.cs:296-314 | a port is allowed for exactly the access types its entry lists, OSC receiving only for `localhost` |
| FrooxEngineRunnerService.PortAccess | Headless/Services/FrooxEngineRunnerService.cs:296-314 | every call for a port is on that port and names the entry's host unless it is OSC receiving |
| FrooxEngineRunnerService.EntryAccessCalls | Headless/Services/FrooxEngineRunnerService.cs:294-316 | every call for an entry's ports is on one of those ports and names the entry's host unless it is OSC receiving |
| FrooxEngineRunnerService.AccessGrantsCalls | Headless/Services/FrooxEngineRunnerService.cs:290-318 | every call for the entries is on a port of one entry and names that entry's host unless it is OSC receiving |
| FrooxEngineRunnerService.AllowPort | Headless/Services/FrooxEngineRunnerService.cs:296-314 | one port adds its specified calls |
| FrooxEngineRunnerService.AllowEntry | Headless/Services/FrooxEngineRunnerService.cs:294-316 | one entry adds the calls for each of its ports, in order |
| FrooxEngineRunnerService.AllowHosts | Headless/Services/FrooxEngineRunnerService.cs:290-318 | the loop makes exactly the specified calls for every entry and port, in order |
| FrooxEngineRunnerService.AllAsStandalone | Headless/Services/FrooxEngineRunnerService.cs:290-318 | each call mapped to the standalone service's call of the same kind, at its place |
| FrooxEngineRunnerService.PortAccessMatches | Headless/Services/FrooxEngineRunnerService.cs:296-314 | for an entry built from the vanilla configuration, a port is allowed as the standalone service allows it |
| FrooxEngineRunnerService.EntryAccessMatches | Headless/Services/FrooxEngineRunnerService.cs:294-316 | a vanilla entry's ports are allowed as the standalone service allows them |
| FrooxEngineRunnerService.AccessGrantsMatchStandalone | Headless/Services/FrooxEngineRunnerService.cs:290-318 | vanilla entries are allowed as the standalone service allows them |
| FrooxEngineRunnerService.AllowedHostsAreVanilla | Headless/Configuration/HeadlessStartupConfig.cs:84-98 | every entry the vanilla configuration produces lists the access types for its host |
| FrooxEngineRunnerService.VanillaHostsMatch | Headless/Services/FrooxEngineRunnerService.cs:290-318 | a host list converted by the startup configuration and allowed here gets the same grants as the standalone service gives the list itself |
| FrooxEngineRunnerService.EngineLoop | Headless/Services/FrooxEngineRunnerService.cs:231-260 | the loop's calls are the specified trace with the update before the tick, and it exits exactly when some pass allows it |
| FrooxEngineRunnerService.ShutdownEngine | Headless/Services/FrooxEngineRunnerService.cs:213-229 | stops all worlds first, waits for uploads exactly when logged in, then requests the engine shutdown and finalizes the session last; no call twice |
| FrooxEngineRunnerService.ConfiguredTickRate | Headless/Services/FrooxEngineRunnerService.cs:93-97 | the configured rate when present and positive, else 60; always positive |
| FrooxEngineRunnerService.Runner.constructor | Headless/Services/FrooxEngineRunnerService.cs:93-97 | the tick rate is the configured one; nothing else is set yet |
| FrooxEngineRunnerService.Runner.SetTickRate | Headless/Services/FrooxEngineRunnerService.cs:34-42 | any value is stored as the tick rate |
| FrooxEngineRunnerService.Runner.Configure | Headless/Services/FrooxEngineRunnerService.cs:165-176 | user name, universe and transfer limit are written only when non-empty or positive; the host calls are those of the configured entries |
| FrooxEngineRunnerService.Runner.Start | Headless/Services/FrooxEngineRunnerService.cs:184-191 | the world is recorded as started, and as failed when its start threw |
| FrooxEngineRunnerService.Runner.StartWorlds | Headless/Services/FrooxEngineRunnerService.cs:178-194 | every converted world is started in order, a failed start logged and skipped; a conversion error ends the loop there; startup completes exactly without such an error |
| HeadlessControlService.ToSessionAccessLevel | Headless/Services/HeadlessControlService.cs:60-68 | each named level maps to the engine level of that name; `Unknown` and any unnamed number become `Private` |
| HeadlessControlService.ToLegacyAccessLevel | Headless/Services/HeadlessControlService.cs:94-102 | each named engine level maps to the reply level of that name; exactly the unnamed engine levels become `Unknown` |
| HeadlessControlService.AccessLevelRoundTrips | Headless/Services/HeadlessControlService.cs:60-102 | the six named levels survive the conversion in both directions |
| HeadlessControlService.NonBlank | Headless/Services/HeadlessControlService.cs:48-49 | absent exactly when the text is empty or white space, otherwise the text itself |
| HeadlessControlService.BuildParameters | Headless/Services/HeadlessControlService.cs:47-72 | `InvalidArgument` with the source's message exactly when both the URL and the preset are blank; otherwise the request's name, custom id, description, user limit and invite list, its converted level, and the URL and preset with blanks made null |
| HeadlessControlService.StartedWorldsHaveASource | Headless/Services/HeadlessControlService.cs:48-72 | every world the handler asks for has a URL or a preset that is not blank, and a named access level |
| HeadlessControlService.ConvertUsers | Headless/Services/HeadlessControlService.cs:86-89 | one reply user per world user, in order, with the same id and name; a null id or name makes the conversion fail |
| HeadlessControlService.ConvertSession | Headless/Services/HeadlessControlService.cs:84-106 | the session id, the name or `<Empty Name>`, the description or the empty string, the converted level, the users and an empty thumbnail URL; fails exactly when some user has a null id or name |
| HeadlessControlService.ShownSessionRestarts | Headless/Services/HeadlessControlService.cs:54-106 | a session shown by this service and started again from what is shown keeps its name, description and named access level |
| HeadlessControlService.ListSessions | Headless/Services/HeadlessControlService.cs:35-43 | every registered session converted, and nothing else; a session that cannot be converted fails the whole call |
| HeadlessControlService.StartWorld | Headless/Services/HeadlessControlService.cs:45-82 | blank URL and preset give `InvalidArgument`, a world that did not open gives `Internal` with `Failed open world!`, otherwise the converted opened session |
| AssemblyPatcher.VersionIn | EnginePrePatcher/AssemblyPatcher.cs:137-146 | no version exactly when no constructor argument, read as text or `""`, starts with `EnginePrePatched:` |
| AssemblyPatcher.VersionInIsFirstLabelled | EnginePrePatcher/AssemblyPatcher.cs:137-143 | the version found is the rest of the first argument that starts with the label |
| AssemblyPatcher.DescriptionIndex | EnginePrePatcher/AssemblyPatcher.cs:134-151 | the position of the first attribute named `AssemblyDescriptionAttribute`, and none exactly when there is no such attribute |
| AssemblyPatcher.DescriptionIndexAt | EnginePrePatcher/AssemblyPatcher.cs:134-151 | a description attribute with none before it is the one the search returns |
| AssemblyPatcher.Relabelled | EnginePrePatcher/AssemblyPatcher.cs:155-156 | the first argument is removed and the label appended; no arguments makes `RemoveAt(0)` throw |
| AssemblyPatcher.GetPatcherVersionAsWritten | EnginePrePatcher/AssemblyPatcher.cs:132-147 | throws exactly when the assembly has no description attribute; otherwise the version found in that attribute's arguments |
| AssemblyPatcher.SetPatcherVersionAsWritten | EnginePrePatcher/AssemblyPatcher.cs:149-165 | throws when the assembly has no description attribute, and never touches the main module's attributes |
| AssemblyPatcher.AsWrittenThrowsWithoutDescription | EnginePrePatcher/AssemblyPatcher.cs:134-151 | for an assembly without a description attribute both accessors throw instead of reporting no version and adding one |
| AssemblyPatcher.AsWrittenFallbackIsNotRead | EnginePrePatcher/AssemblyPatcher.cs:158-164 | a label placed on the main module, as the fallback branch would place it, is not seen by the reader |
| AssemblyPatcher.GetPatcherVersion | EnginePrePatcher/AssemblyPatcher.cs:132-147 | with the null test working: no version for an assembly without a description attribute, otherwise the version found in its arguments |
| AssemblyPatcher.GetPatcherVersionAgrees | EnginePrePatcher/AssemblyPatcher.cs:132-147 | wherever the as-written reader answers, the corrected reader gives the same answer |
| AssemblyPatcher.SetPatcherVersion | EnginePrePatcher/AssemblyPatcher.cs:149-165 | fails only for a description attribute without arguments; keeps the applied patches and the main module's attributes |
| AssemblyPatcher.LabelIsLabelled | EnginePrePatcher/AssemblyPatcher.cs:152 | the written label starts with `EnginePrePatched:` and the rest of it is the version |
| AssemblyPatcher.VersionRoundTrip | EnginePrePatcher/AssemblyPatcher.cs:132-165 | writing a version into an assembly with no description or a single-argument description succeeds, reads back as that version and again leaves a single-argument description |
| AssemblyPatcher.PatchesFor | EnginePrePatcher/AssemblyPatcher.cs:19-35 | a target's group has no more patches than there are |
| AssemblyPatcher.PatchesForAppend | EnginePrePatcher/AssemblyPatcher.cs:27-34 | a further patch joins the end of its own target's group and of no other group |
| AssemblyPatcher.PatchesForMembers | EnginePrePatcher/AssemblyPatcher.cs:19-35 | a target's group holds exactly the patches aimed at that target |
| AssemblyPatcher.TargetsMembers | EnginePrePatcher/AssemblyPatcher.cs:19-40 | the targets are exactly the patches' targets, each listed once |
| AssemblyPatcher.GroupPatches | EnginePrePatcher/AssemblyPatcher.cs:19-35 | the loop builds one entry per target, in the order targets first appear, each holding that target's patches in discovery order |
| AssemblyPatcher.PatchesForEmpty | EnginePrePatcher/AssemblyPatcher.cs:19-35 | a path no patch targets has an empty group |
| AssemblyPatcher.TargetOfGroup | EnginePrePatcher/AssemblyPatcher.cs:19-35 | a non-empty group belongs to a listed target |
| AssemblyPatcher.EveryPatchIsGrouped | EnginePrePatcher/AssemblyPatcher.cs:19-35 | each patch sits in the group of its own target and in no other |
| AssemblyPatcher.Applied | EnginePrePatcher/AssemblyPatcher.cs:84 | applying a patch records it and keeps the attributes |
| AssemblyPatcher.PatchAll | EnginePrePatcher/AssemblyPatcher.cs:82-88 | when every patch succeeds the attributes are kept and each patch is recorded once |
| AssemblyPatcher.PatchAllSucceeds | EnginePrePatcher/AssemblyPatcher.cs:82-88 | when every patch succeeds they are recorded in their group's order |
| AssemblyPatcher.Decide | EnginePrePatcher/AssemblyPatcher.cs:51-71 | already patched exactly when the stored version is the current one, back up exactly when there is none, restore exactly when it is another version |
| AssemblyPatcher.OriginalOfDiffers | EnginePrePatcher/AssemblyPatcher.cs:58 | a file's `.original` backup is a different file |
| AssemblyPatcher.PatchOutcome | EnginePrePatcher/AssemblyPatcher.cs:42-93 | a missing assembly makes the read throw; an assembly without a description attribute throws before anything is copied, the directory unchanged; an assembly with the current label is skipped unchanged; a restore without a backup returns false unchanged; no file but the assembly and its backup changes |
| AssemblyPatcher.PatchOutcomeIntended | EnginePrePatcher/AssemblyPatcher.cs:42-93 | the same step with the intended accessors: a missing assembly throws, a labelled one is skipped unchanged, and no file but the assembly and its backup changes |
| AssemblyPatcher.PatchOutcomeAgrees | EnginePrePatcher/AssemblyPatcher.cs:42-93 | for an assembly and backup that carry a description attribute, the step as written and the intended step agree |
| AssemblyPatcher.NoDescriptionStep | EnginePrePatcher/AssemblyPatcher.cs:48-58 | an assembly without a description attribute: as written the step throws with the directory unchanged, while the intended step backs it up and labels it |
| AssemblyPatcher.SetAgrees | EnginePrePatcher/AssemblyPatcher.cs:149-165 | with a description attribute present the writer as written is the intended one |
| AssemblyPatcher.PatchOutcomeLabels | EnginePrePatcher/AssemblyPatcher.cs:56-93 | single-argument descriptions stay single, and an assembly the step goes on from carries the current label |
| AssemblyPatcher.PatchEach | EnginePrePatcher/AssemblyPatcher.cs:40-94 | files that are neither a target nor a target's backup are kept as they were; a first assembly without a description attribute ends the loop with the exception and the directory unchanged |
| AssemblyPatcher.PatchEachUpToDate | EnginePrePatcher/AssemblyPatcher.cs:51-55 | when every target already carries the current label, the loop goes through and changes nothing |
| AssemblyPatcher.PatchEachLabels | EnginePrePatcher/AssemblyPatcher.cs:40-94 | after the loop goes through, every target carries the current label, as long as no target is another's backup |
| AssemblyPatcher.Removed | EnginePrePatcher/AssemblyPatcher.cs:100-118 | a missing file is skipped; an existing one is renamed to its `.original`, replacing an older backup; nothing else changes |
| AssemblyPatcher.RemoveEach | EnginePrePatcher/AssemblyPatcher.cs:96-127 | with none of the files present nothing changes; files that are neither removed nor a backup of one are kept |
| AssemblyPatcher.RemoveEachAppend | EnginePrePatcher/AssemblyPatcher.cs:96-127 | removing two lists of files in turn equals removing them joined |
| AssemblyPatcher.RetiredAppend | EnginePrePatcher/AssemblyPatcher.cs:98-100 | the retired files of two lists of patches are the first list's followed by the second's |
| AssemblyPatcher.OrderedMembers | EnginePrePatcher/AssemblyPatcher.cs:96-98 | the patches walked in group order are all discovered patches |
| AssemblyPatcher.RetiredMembers | EnginePrePatcher/AssemblyPatcher.cs:100 | every file retired is named by some patch's `RemoveFiles` |
| AssemblyPatcher.ProcessOutcome | EnginePrePatcher/AssemblyPatcher.cs:11-130 | a run that stops early or throws during the patch loop returns what the loop returned and leaves the directory as the loop left it, so a first target without a description attribute throws with the directory unchanged; otherwise the retired files are renamed and the run returns true |
| AssemblyPatcher.ProcessIsIdempotent | EnginePrePatcher/AssemblyPatcher.cs:51-129 | once every target carries the current label and every retired file is gone, another run returns true and changes nothing |
| AssemblyPatcher.ProcessLabelsEveryTarget | EnginePrePatcher/AssemblyPatcher.cs:11-130 | a run that returns true leaves every targeted assembly carrying the current label, provided no target is another's backup or a retired file |
| AssemblyPatcher.TargetDirectory.PatchAssembly | EnginePrePatcher/AssemblyPatcher.cs:42-93 | one assembly's step on the directory, with the outcome and the directory `PatchOutcome` gives, throwing for an assembly without a description attribute |
| AssemblyPatcher.TargetDirectory.RunPatches | EnginePrePatcher/AssemblyPatcher.cs:82-88 | applies the group's patches in order and stops at the first that fails |
| AssemblyPatcher.TargetDirectory.PatchGroups | EnginePrePatcher/AssemblyPatcher.cs:40-94 | the first `foreach` over the groups, ending as `PatchEach` does, the first exception included |
| AssemblyPatcher.TargetDirectory.RemoveAll | EnginePrePatcher/AssemblyPatcher.cs:100-125 | renames the given files in turn, leaving the directory `RemoveEach` gives |
| AssemblyPatcher.TargetDirectory.RemoveGroup | EnginePrePatcher/AssemblyPatcher.cs:98-126 | renames the retired files of one group's patches, patch after patch |
| AssemblyPatcher.TargetDirectory.RemoveGroups | EnginePrePatcher/AssemblyPatcher.cs:96-127 | renames the retired files of every group, group after group |
| AssemblyPatcher.TargetDirectory.Process | EnginePrePatcher/AssemblyPatcher.cs:11-130 | the whole run on the directory, with the outcome and the directory `ProcessOutcome` gives, the exception for an assembly without a description attribute included |
| SyncMembers.Create | Headless/GraphQL/Types/SyncMemberType.cs:225-235 | a field gets the field view with its value, a reference the reference view with its target, anything else the generic view; each keeps its name and index |
| SyncMembers.AllViews | Headless/GraphQL/Types/SlotType.cs:44-56 | one view per member, the i-th with index i and the member's registered name |
| SyncMembers.FirstNamedFrom | Headless/GraphQL/Types/SlotType.cs:58-70 | the first index from a position whose member has that name, and none exactly when no later member has it |
| SyncMembers.ByName | Headless/GraphQL/Types/SlotType.cs:58-70 | the view of the first member with that name, and null exactly when no member has it |
| SyncMembers.FindByName | Headless/GraphQL/Types/SlotType.cs:58-70 | the loop returns the specified first match by name |
| SyncMembers.ByIndex | Headless/GraphQL/Types/ComponentType.cs:54-64 | null exactly out of range, otherwise the view of the member at that index |
| SyncMembers.ByIndexIsEnumerated | Headless/GraphQL/Types/ComponentType.cs:26-64 | the member looked up by index is the one enumerated at that index |
| SyncMembers.ByNameIsFirstEnumerated | Headless/GraphQL/Types/ComponentType.cs:26-52 | the member looked up by name is the first enumerated member with that name |
| SlotType.Name | Headless/GraphQL/Types/SlotType.cs:18 | the slot's name, or `""` for a slot without one |
| SlotType.AllSyncMembers | Headless/GraphQL/Types/SlotType.cs:44-56 | one view per sync member of the slot, in index order |
| SlotType.GetSyncMember | Headless/GraphQL/Types/SlotType.cs:58-70 | the view of the slot's first member with that name, and null exactly when there is none |
| SlotType.GetComponent | Headless/GraphQL/Types/SlotType.cs:72-78 | a component of the slot whose short or full type name matches, and null exactly when none does |
| SlotType.FirstOfType | Headless/GraphQL/Types/SlotType.cs:75-76 | a matching component from the list, and none exactly when no component matches |
| SlotType.GetComponents | Headless/GraphQL/Types/SlotType.cs:80-86 | exactly the slot's components whose short or full type name matches |
| SlotType.OfType | Headless/GraphQL/Types/SlotType.cs:83-85 | exactly the matching components, never more than given |
| SlotType.GetComponentIsFirstOfGetComponents | Headless/GraphQL/Types/SlotType.cs:72-86 | the component found by type is the first of the components listed by type |
| SlotType.FirstOfTypeIsFirstOfFilter | Headless/GraphQL/Types/SlotType.cs:75-85 | `FirstOrDefault` with the test is the first element of the filtered list |
| ComponentType.TypeFullName | Headless/GraphQL/Types/ComponentType.cs:18 | the full type name, or the short one for a type without one |
| ComponentType.AllSyncMembers | Headless/GraphQL/Types/ComponentType.cs:26-38 | one view per sync member of the component, in index order |
| ComponentType.GetSyncMember | Headless/GraphQL/Types/ComponentType.cs:40-52 | the view of the component's first member with that name, and null exactly when there is none |
| ComponentType.GetSyncMemberByIndex | Headless/GraphQL/Types/ComponentType.cs:54-64 | null exactly out of range, otherwise the member at that index, as enumerated |
| WorldType.Name | Headless/GraphQL/Types/WorldType.cs:18 | the world's name, or `""` for a world without one |
| WorldType.UserId | Headless/GraphQL/Types/WorldType.cs:92 | the user's id, or `""` |
| WorldType.UserName | Headless/GraphQL/Types/WorldType.cs:93 | the user's name, or `""` |
| WorldType.RoleName | Headless/GraphQL/Types/WorldType.cs:94 | the name of the user's role, or `""` without one |
| WorldType.FindSlotByRefId | Headless/GraphQL/Types/WorldType.cs:33-41 | null exactly when the text is not a RefID or no slot of the world has it; otherwise the slot with that RefID |
| WorldType.SlotsNamed | Headless/GraphQL/Types/WorldType.cs:54-73 | the name matches never lengthen the list |
| WorldType.SlotsNamedMembers | Headless/GraphQL/Types/WorldType.cs:54-73 | exactly the slots with that name are kept |
| WorldType.FindSlotsRecursive | Headless/GraphQL/Types/WorldType.cs:69-79 | appends every slot below the parent with that name, in pre-order, to the results |
| WorldType.SearchChild | Headless/GraphQL/Types/WorldType.cs:73-77 | one child: itself if it matches, then its own subtree |
| WorldType.SearchStep | Headless/GraphQL/Types/WorldType.cs:71-78 | searching one more child adds its match and its subtree's matches after those found so far |
| WorldType.FindSlotByName | Headless/GraphQL/Types/WorldType.cs:43-61 | with `searchChildren` every slot of the tree but the root with that name, in pre-order; without it the matching direct children of the root |
| WorldType.DirectMatchesAreRecursiveMatches | Headless/GraphQL/Types/WorldType.cs:43-61 | the direct-children search finds a subset of what the recursive search finds |
| WorldQueries.GetWorlds | Headless/GraphQL/Queries/WorldQueries.cs:11-14 | exactly the worlds of the registered sessions |
| WorldQueries.GetWorld | Headless/GraphQL/Queries/WorldQueries.cs:16-22 | null exactly for an unknown session, otherwise its world |
| WorldQueries.GetSlot | Headless/GraphQL/Queries/WorldQueries.cs:24-38 | null for an unknown session; a parse failure for text that is not a RefID; else the slot with that RefID, or null when the world has none |
| WorldQueries.GetComponent | Headless/GraphQL/Queries/WorldQueries.cs:40-54 | null for an unknown session; a parse failure for text that is not a RefID; else the component with that RefID, if any |
| WorldQueries.Category | Headless/GraphQL/Queries/WorldQueries.cs:90-102 | a null namespace exactly has no category, and a category other than the namespace is one of the six engine categories |
| WorldQueries.CategoryOutsideFrooxEngine | Headless/GraphQL/Queries/WorldQueries.cs:90-102 | a namespace outside `FrooxEngine` keeps its own name, and a null namespace has no category |
| WorldQueries.CategoryCore | Headless/GraphQL/Queries/WorldQueries.cs:95-100 | inside `FrooxEngine` the category is `Core` exactly when the namespace is outside the five specific ones |
| WorldQueries.CategorySpecificFirst | Headless/GraphQL/Queries/WorldQueries.cs:95-100 | a specific sub-namespace wins over the generic `Core` rule |
| WorldQueries.Info | Headless/GraphQL/Queries/WorldQueries.cs:84-88 | the type's name, full name or short name, category, generic flag, and a generic definition only for generic types |
| WorldQueries.Matching | Headless/GraphQL/Queries/WorldQueries.cs:65-67 | the filter never lengthens the catalogue |
| WorldQueries.MatchingMembers | Headless/GraphQL/Queries/WorldQueries.cs:65-67 | keeps exactly the types whose lowered short or full name contains the lowered filter |
| WorldQueries.MatchingAppend | Headless/GraphQL/Queries/WorldQueries.cs:65-67 | the filter keeps the catalogue's order |
| WorldQueries.GetComponentTypes | Headless/GraphQL/Queries/WorldQueries.cs:56-71 | every scanned type for a null or empty filter, otherwise exactly the matching ones in order, each described by its info |
| SceneGraph.ParseRefId | Headless/GraphQL/Services/FrooxEngineGraphQLService.cs:69-81 | parsing succeeds exactly when the engine's parser accepts the text, and then yields the parsed RefID; otherwise it is the format exception |
| SceneGraph.Flatten | Headless/GraphQL/Services/FrooxEngineGraphQLService.cs:54-57 | the pre-order listing starts with the root |
| SceneGraph.Find | Headless/GraphQL/Services/FrooxEngineGraphQLService.cs:54-57 | a slot found carries the requested RefID, and a root with that RefID is the one found |
| SceneGraph.FindAll | Headless/GraphQL/Services/FrooxEngineGraphQLService.cs:54-57 | a slot found among a list of trees carries the requested RefID |
| SceneGraph.FirstWithId | Headless/GraphQL/Services/FrooxEngineGraphQLService.cs:54-57 | the first slot of a list carrying the RefID, and none exactly when no slot in the list carries it |
| SceneGraph.FindIsFirstInPreOrder | Headless/GraphQL/Services/FrooxEngineGraphQLService.cs:54-57 | the recursive lookup returns the first slot with that RefID in the tree's pre-order listing |
| SceneGraph.FlattenAllAppend | Headless/GraphQL/Services/FrooxEngineGraphQLService.cs:54-57 | the pre-order listing of a list of trees extended by one tree is the old listing followed by that tree's |
| SceneGraph.ChildIndex | Headless/GraphQL/Mutations/SlotMutations.cs:194-201 | the position of the first child with the RefID among a slot's children |
| SceneGraph.FindParent | Headless/GraphQL/Mutations/SlotMutations.cs:192 | a found parent has a direct child with the RefID |
| SceneGraph.FoundSlotHasParent | Headless/GraphQL/Mutations/SlotMutations.cs:187-192 | every slot of the tree other than its root has a parent |
| SceneGraph.FindParentInTree | Headless/GraphQL/Mutations/SlotMutations.cs:192 | the parent found is itself a slot of the tree |
| SceneGraph.MaxId | Headless/GraphQL/Mutations/SlotMutations.cs:161 | no slot of the tree has a RefID above the maximum |
| SceneGraph.FreshId | Headless/GraphQL/Mutations/SlotMutations.cs:161 | the RefID given to a new slot is carried by no slot of the tree |
| SceneGraph.UpdateAttrs | Headless/GraphQL/Mutations/SlotMutations.cs:71-78 | the edit changes the attributes of the slot with that RefID only, and keeps every RefID, member and component |
| SceneGraph.UpdateAttrsEffect | Headless/GraphQL/Mutations/SlotMutations.cs:71-78 | after the edit the same RefIDs are present, the edited slot has the changed attributes and every other slot its old ones |
| SceneGraph.ReplaceChildren | Headless/GraphQL/Mutations/SlotMutations.cs:194-201 | replacing a slot's children keeps each slot's RefID, attributes, members and components |
| SceneGraph.ReplaceChildrenEffect | Headless/GraphQL/Mutations/SlotMutations.cs:194-201 | after the replacement the slot with that RefID has exactly the new children and is otherwise as it was |
| SceneGraph.ReplaceChildrenKeepsMissing | Headless/GraphQL/Mutations/SlotMutations.cs:161 | replacing the children of a slot that is not in the tree leaves the tree as it was |
| SceneGraph.FirstComponentWithId | Headless/GraphQL/Services/FrooxEngineGraphQLService.cs:59-62 | the first component of a list carrying the RefID, and none exactly when no component in the list carries it |
| SceneGraph.FindComponent | Headless/GraphQL/Services/FrooxEngineGraphQLService.cs:59-62 | a component found has the requested RefID |
| SceneGraph.FindComponentIsFirstInPreOrder | Headless/GraphQL/Services/FrooxEngineGraphQLService.cs:59-62 | the recursive lookup returns the first component with that RefID over all slots in pre-order |
| SceneGraph.MapComponents | Headless/GraphQL/Mutations/SyncMemberMutations.cs:51 | the edit keeps the number of a slot's components |
| SceneGraph.UpdateComponent | Headless/GraphQL/Mutations/SyncMemberMutations.cs:51 | the edit touches components only, keeping every slot's RefID, attributes and members and the shape of the tree |
| SceneGraph.FirstComponentOfMap | Headless/GraphQL/Mutations/SyncMemberMutations.cs:51 | in one slot, the edited component is found edited and every other RefID finds what it found before |
| SceneGraph.UpdateComponentEffect | Headless/GraphQL/Mutations/SyncMemberMutations.cs:51 | after the edit the lookup of that RefID finds the edited component, and the lookup of any other RefID finds the same component as before |
| SceneGraph.UpdateComponentKeepsSlots | Headless/GraphQL/Mutations/SyncMemberMutations.cs:51 | a component edit leaves the same slots with the same attributes |
| SlotMutations.WithActive | Headless/GraphQL/Mutations/SlotMutations.cs:27 | sets `ActiveSelf` and leaves every other attribute as it was |
| SlotMutations.WithName | Headless/GraphQL/Mutations/SlotMutations.cs:47 | sets `Name` and leaves every other attribute as it was |
| SlotMutations.WithPosition | Headless/GraphQL/Mutations/SlotMutations.cs:71-78 | `isGlobal` sets the global position, otherwise the local one; nothing else changes |
| SlotMutations.WithRotation | Headless/GraphQL/Mutations/SlotMutations.cs:103-110 | `isGlobal` sets the global rotation, otherwise the local one; nothing else changes |
| SlotMutations.WithScale | Headless/GraphQL/Mutations/SlotMutations.cs:134-141 | `isGlobal` sets the global scale, otherwise the local one; nothing else changes |
| SlotMutations.EditedEffect | Headless/GraphQL/Mutations/SlotMutations.cs:21-29 | after a successful edit the returned slot is the one with that RefID carrying the changed attributes, and every other slot keeps its attributes |
| SlotMutations.EditSlot | Headless/GraphQL/Mutations/SlotMutations.cs:21-29 | on the world's thread: a RefID that `RefID.Parse` rejects is an error with the tree unchanged, an unknown slot gives null with the tree unchanged, otherwise that slot's attributes are changed and the slot returned |
| SlotMutations.EditInSession | Headless/GraphQL/Mutations/SlotMutations.cs:12-29 | an unknown session gives null and changes nothing; otherwise the edit of `EditSlot` on that session's world |
| SlotMutations.SetSlotActive | Headless/GraphQL/Mutations/SlotMutations.cs:12-30 | null for an unknown session; otherwise the edit that sets `ActiveSelf` |
| SlotMutations.SetSlotName | Headless/GraphQL/Mutations/SlotMutations.cs:32-50 | null for an unknown session; otherwise the edit that sets `Name` |
| SlotMutations.SetSlotPosition | Headless/GraphQL/Mutations/SlotMutations.cs:52-81 | null for an unknown session; otherwise the edit that sets the global or the local position |
| SlotMutations.SetSlotRotation | Headless/GraphQL/Mutations/SlotMutations.cs:83-113 | null for an unknown session; otherwise the edit that sets the global or the local rotation |
| SlotMutations.SetSlotScale | Headless/GraphQL/Mutations/SlotMutations.cs:115-144 | null for an unknown session; otherwise the edit that sets the global or the local scale |
| SlotMutations.NewSlot | Headless/GraphQL/Mutations/SlotMutations.cs:161 | `AddSlot(name)` makes an active, empty slot with that name |
| SlotMutations.AddedEffect | Headless/GraphQL/Mutations/SlotMutations.cs:152-163 | the added slot has a RefID no slot had before and the given name, and the parent's children end with it, the earlier ones unchanged |
| SlotMutations.AddChildSlotOn | Headless/GraphQL/Mutations/SlotMutations.cs:155-163 | a parent RefID that does not parse is an error, an unknown parent gives null, both with the tree unchanged; otherwise a new child is appended to the parent and returned |
| SlotMutations.AddChildSlot | Headless/GraphQL/Mutations/SlotMutations.cs:146-164 | null for an unknown session; otherwise `AddChildSlotOn` on that session's world |
| SlotMutations.RemoveAt | Headless/GraphQL/Mutations/SlotMutations.cs:201-202 | removing the k-th child keeps the children before it and shifts the later ones down by one |
| SlotMutations.KeptChildren | Headless/GraphQL/Mutations/SlotMutations.cs:192-201 | the parent loses exactly the deleted slot and, with `preserveChildren`, gains exactly its children, after the other children in their order |
| SlotMutations.DeletedKeepsRoot | Headless/GraphQL/Mutations/SlotMutations.cs:178-203 | the root survives every deletion; the reply echoes the RefID text; success holds exactly when the slot is in the tree and is not the root, and exactly then the reply carries no error |
| SlotMutations.DeletedEffect | Headless/GraphQL/Mutations/SlotMutations.cs:192-202 | after a successful deletion the old parent's children are its other children followed, when `preserveChildren` is set, by the deleted slot's children |
| SlotMutations.Reparent | Headless/GraphQL/Mutations/SlotMutations.cs:194-198 | each preserved child is appended, in order, to the new parent's children |
| SlotMutations.DeleteSlotOn | Headless/GraphQL/Mutations/SlotMutations.cs:178-203 | an unparsable RefID is an error; `Slot not found` and `Cannot delete root slot` fail with the tree unchanged; otherwise the slot is removed from its parent, its children moved up when asked |
| SlotMutations.DeleteSlot | Headless/GraphQL/Mutations/SlotMutations.cs:166-204 | an unknown session fails with `Session not found` and changes nothing; otherwise `DeleteSlotOn` on that session's world |
| SyncMemberMutations.Locate | Headless/GraphQL/Mutations/SyncMemberMutations.cs:32-42 | `Component not found` exactly when no component has the RefID, member-not-found exactly when none of its members has the name, otherwise the component and the first member with that name |
| SyncMemberMutations.MessagesDistinct | Headless/GraphQL/Mutations/SyncMemberMutations.cs:22-105 | every failed check has its own error message, so the reply tells the checks apart |
| SyncMemberMutations.FieldChecks | Headless/GraphQL/Mutations/SyncMemberMutations.cs:19-47 | the failures come in the source's order (session, RefID format, component, member, not a field), each exactly in its case, and the checks pass exactly when none applies |
| SyncMemberMutations.TargetChoice | Headless/GraphQL/Mutations/SyncMemberMutations.cs:79-87 | a null or empty target means no target; otherwise `Invalid target RefID format` exactly when the text does not parse, else the parsed RefID |
| SyncMemberMutations.RefChecks | Headless/GraphQL/Mutations/SyncMemberMutations.cs:68-106 | the failures in order session, RefID format, target format, component, member, not a SyncRef, each exactly in its case |
| SyncMemberMutations.WithMemberKind | Headless/GraphQL/Mutations/SyncMemberMutations.cs:51-112 | the write changes the one member at that index and keeps the component's RefID, type and other members |
| SyncMemberMutations.WriteEffect | Headless/GraphQL/Mutations/SyncMemberMutations.cs:51-112 | after the write the located component is the one with that member changed, and every other component is as it was |
| SyncMemberMutations.SetSyncFieldValue | Headless/GraphQL/Mutations/SyncMemberMutations.cs:12-59 | `Session not found` for an unknown session; otherwise the checks, then the field write, with the reply written out below |
| SyncMemberMutations.FieldWrittenEffect | Headless/GraphQL/Mutations/SyncMemberMutations.cs:30-58 | success exactly when the reply has no error; a failure leaves the tree as it was and reports no new value; a success stores the value in the first member with that name and reports the value before and after |
| SyncMemberMutations.AssignTarget | Headless/GraphQL/Services/FrooxEngineGraphQLService.cs:116-143 | a null or zero target clears the reference and succeeds; any other target succeeds exactly when the world has an object with that RefID |
| SyncMemberMutations.SetSyncRefTarget | Headless/GraphQL/Mutations/SyncMemberMutations.cs:61-119 | `Session not found` for an unknown session; otherwise the checks, then the reference write, with the reply written out below |
| SyncMemberMutations.RefWrittenEffect | Headless/GraphQL/Mutations/SyncMemberMutations.cs:74-117 | success exactly when the reply has no error; a failure leaves the tree as it was; a malformed target gives `Invalid target RefID format`; a success echoes the target text and leaves the member pointing at the parsed target, or at nothing for zero or empty |
| Text.TrimStartWhere | Headless/Configuration/HeadlessStartupConfig.cs:56 | the result is a suffix of the input, everything dropped matches the predicate, and the result does not start with a matching character |
| Text.TrimEndWhere | Headless/Configuration/HeadlessStartupConfig.cs:56 | the result is a prefix of the input, everything dropped matches the predicate, and the result does not end with a matching character |
| Text.TrimWhereBounds | Headless/Configuration/HeadlessStartupConfig.cs:56 | trimming keeps a contiguous piece of the input and cuts off only matching characters on either side |
| Text.TrimWhereEnds | Headless/Configuration/HeadlessStartupConfig.cs:56 | a trimmed string neither starts nor ends with a matching character |
| Text.TrimIsTightSlice | Headless/Configuration/HeadlessStartupConfig.cs:56 | `Trim()` gives a contiguous piece of the input with only white space outside it and neither end white |
| Text.ToLower | Headless/Configuration/HeadlessStartupConfig.cs:56 | lower-casing keeps the length and lowers each character on its own |
| Text.ToLowerIdempotent | Headless/GraphQL/Queries/WorldQueries.cs:64-67 | lower-casing twice is lower-casing once |
| Text.EqualsIgnoreCase | Headless/Services/GrpcControllerService.cs:197 | two strings are equal ignoring case exactly when they have the same length and lower-case to the same character at every place |
| Text.IndexOf | Headless/Configuration/HeadlessStartupConfig.cs:63-79 | the position of the first occurrence of the character |
| Text.Split | Headless/Configuration/HeadlessStartupConfig.cs:65 | every piece is free of the separator and there is at least one |
| Text.JoinSplit | Headless/Configuration/HeadlessStartupConfig.cs:65 | joining the pieces with the separator gives back the string |
| Text.SplitCount | Headless/Configuration/HeadlessStartupConfig.cs:65 | there is one piece more than there are separators |
| Text.SplitCases | Headless/Configuration/HeadlessStartupConfig.cs:65-79 | no separator leaves the string whole, one separator cuts it in two at that separator, two or more give at least three pieces |
| Text.DigitChar | Headless/Services/GrpcControllerService.cs:624 | the digit printed for a value below ten reads back as that value |
| Text.TryParseInt32 | Headless/Configuration/HeadlessStartupConfig.cs:73 | `int.TryParse` succeeds only with a value inside the 32-bit range |
| Text.NatToString | Headless/Services/GrpcControllerService.cs:624 | a natural number prints as a non-empty run of decimal digits |
| Text.IntToString | Headless/Services/GrpcControllerService.cs:624 | an integer prints as a non-empty run of decimal digits, after a minus sign when negative |
| Text.DigitsOfNat | Headless/Services/GrpcControllerService.cs:624 | the printed digits read back as the number |
| Text.NoNumberWhite | Headless/Services/GrpcControllerService.cs:602 | a printed number has no white space for the parser to trim |
| Text.ParseIntToString | Headless/Services/GrpcControllerService.cs:602-624 | a 32-bit integer printed with `ToString` and read by `int.TryParse` is that integer, so a cursor handed out reads back as the same index |
| Engine.TotalSecondsFromSeconds | Headless/Models/RunningSession.cs:89-92 | an interval made from whole seconds reports those seconds back |
| Engine.World.Destroy | Headless/Services/WorldService.cs:152-268 | destroying the world marks it destroyed |

## Left out

- **I/O and logging.** Files, JSON, console output and logging are not modelled:
  - `ConfigService` reading and writing configuration files;
  - `HeadlessStartupConfig.Parse` reading JSON, where the parsed value is a parameter;
  - every `Console.WriteLine` and `ILogger` call.
- **Concurrency.** Awaiting, `ConcurrentDictionary` atomicity, `SemaphoreSlim`, the world-thread dispatch (`ExecuteOnWorldThread`, coroutines) and event subscription are not modelled. Operations run sequentially in program order. The save lock is a boolean, cancellation is a flag, and a world-failed event is an input to the supervisor.
- **Awaiting the session handler.** `StopWorldAsync` waits for the session handler task, and the model does not. It removes the entry and requests cancellation. The handler's reaction to that cancellation is part of the supervisor model (`Sessions.WorldService.SessionHandler`).
- **Floating point.** Floating-point timing is not modelled:
  - the audio-time accumulator of the standalone engine loop (`StandaloneFrooxEngineService.cs:176-204`);
  - the runner's tick period `1 / TickRate`;
  - the `PeriodicTimer` waits.
  Tick rates and away-kick minutes are whole numbers.
- **Engine and cloud calls.** These calls are outcomes given as parameters or recorded as named calls:
  - opening, saving, `ExitApp`, `RequestShutdown`, `FinalizeSession`;
  - waiting for uploads;
  - login, contacts, messages and user search.
  Their own behaviour is not modelled.
- **`GrpcControllerService`, thin RPCs.** `GetAbout`, `GetStatus`, `ListSessions`, `StopSession`, `SaveSessionWorld`, `SaveAsSessionWorld`, `InviteUser`, `ListUsersInSession`, `KickUser` and `BanUser` are not modelled. Nor are `GetAccountInfo`, `FetchWorldInfo`, `SearchUserInfo`, `GetFriendRequests`, `AcceptFriendRequests`, `SendContactMessage`, `GetHostSettings`, `GetStartupConfigToRestore`, `AllowHostAccess` and `DenyHostAccess`. Apart from the session lookup they forward to the engine or the cloud. The session lookup they share is modelled (`GrpcController.Controller.FindSession`).
- **`Models.RunningSession.InviteUser`.** It is a coroutine that only forwards to the engine's invite call.
- **`FrooxEngineGraphQLService`, reflection and JSON.** `DeserializeValue`, and setting a reference through `GetProperty("Target")` and `GetProperty("Value")`, are not modelled. Whether a value deserialises and whether a target exists are parameters (`assign`, `accepts`). Only the branches of `SetSyncFieldValue` and `SetSyncRefTarget` around them are modelled.
- **`SyncMemberType` value formatting.** Values are held as text, so their formatting is not modelled.
- **The component-type catalogue.** Scanning assemblies for component types is a parameter of `WorldQueries.GetComponentTypes`.
- **`ComponentMutations.cs`.** These are thin engine calls and are not part of this model.
- **The patches.** The patch classes under `EnginePrePatcher/Patches` edit IL. The model records a patch as applied and takes its success as a parameter. `Headless/Patches` (Harmony hooks) and `ResoniteAssemblyResolver.cs` are not part of this model.
- **`AssemblyPatcher.Process`, other omissions.**
  - Patch discovery by reflection over the executing assembly, and the `patch is null` skip, are not modelled. The patches are given as a sequence in discovery order.
  - Reading `.pdb` symbols, `Path.Combine` and the assembly resolver are not modelled. File names are relative to the target directory.
  - The `catch` around file removal (`AssemblyPatcher.cs:120-124`) is not modelled. Renaming in the model cannot fail.
- **Engine-side effects of a slot edit.** Deleting a slot while keeping its children re-parents each child with `SetParent(slot.Parent, false)`. The second argument is `keepGlobalTransform`, so the engine keeps the child's local transform and its global transform changes with the new parent. The model moves the child with its stored transforms as they are. Destroying a slot also destroys its components and their references elsewhere, which the model does not follow. The model places an added or re-parented slot at the end of its parent's children.
- SlotMutations.WithPosition, SlotMutations.WithRotation, SlotMutations.WithScale: the model stores a slot's local and global transforms as two independent values, so setting one leaves the other as it was. The engine derives each from the other through the parent chain, and that derivation is FrooxEngine code, which is not part of this model.
- Sessions.WorldService.StartWorld: the auto-spawn coroutine (`WorldService.cs:92-101`) is not modelled. It runs later on the world's coroutine manager and loads each configured auto-spawn item into a new slot under the root, all engine and cloud work.
- **Unmodelled default fields.** The members of `WorldStartupParameters` that no modelled code reads are left out of `Engine.StartupParameters`.
- HeadlessControlService.ConvertSession: reads the world a session was registered with, and does not model `WorldInstance` naming some other world after a restart. `Shutdown` only calls `StopApplication` and is not modelled.
- **`Program.cs` files.** Dependency injection, `SystemInfo.cs` and the test projects are not part of this model.
- Text.ToLower: folds only the ASCII letters, because the Unicode case tables of `ToLowerInvariant` are not modelled.
- Text.TryParseInt32: accepts only ASCII digits with an optional sign and the white space `NumberStyles.Integer` allows. Thousands separators and other cultures are not modelled.
- FrooxEngineRunnerService.Runner.SetTickRate: the rate is a whole number, and the timer period the source derives from it (`1 / TickRate`) is not modelled.

## Findings

| source | as written | input that shows it | evidently intended | confidence | as-written member | corrected member |
|---|---|---|---|---|---|---|
| Headless/Services/GrpcControllerService.cs:607-609 | `Take(request.Limit + 1)` computes the probe in 32-bit arithmetic | `Limit = int.MaxValue`: the probe wraps to `int.MinValue`, so the page is empty and there is no cursor even with contacts left | the first `Limit` contacts, and a cursor exactly when more remain | not executed | GrpcController.PageAsWritten, GrpcController.MaxLimitPageIsEmpty, GrpcController.ListContacts | GrpcController.Page, GrpcController.PageAsWrittenBelowMax |
| EnginePrePatcher/AssemblyPatcher.cs:134,151 | `First(...)` followed by `is not null` | an assembly without an `AssemblyDescriptionAttribute`: `First` throws `InvalidOperationException`, so `Process` fails instead of backing up and labelling it, and the fallback branch (158-164) never runs | `FirstOrDefault`: such an assembly reads as unpatched and is labelled where the reader looks | not executed | AssemblyPatcher.GetPatcherVersionAsWritten, AssemblyPatcher.SetPatcherVersionAsWritten, AssemblyPatcher.AsWrittenThrowsWithoutDescription, AssemblyPatcher.AsWrittenFallbackIsNotRead, AssemblyPatcher.PatchOutcome, AssemblyPatcher.NoDescriptionStep | AssemblyPatcher.GetPatcherVersion, AssemblyPatcher.SetPatcherVersion, AssemblyPatcher.VersionRoundTrip, AssemblyPatcher.PatchOutcomeIntended, AssemblyPatcher.PatchOutcomeAgrees |
