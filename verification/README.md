# iot-agent: the agent's life cycle, verified

The IoT agent enrols a device with an identity service, keeps the credentials it was given on disk,
holds one MQTT connection, answers management messages on it, and offers part of snapd's interface over a
local NATS server. It runs on devices that lose power, restart and refresh at any moment, so what matters is
what its files, its package-wide singletons and its handler still have to do with each other after any run.
This project models that logic in Dafny and proves what holds of it over all runs, all interleavings
and all request sequences.

Outside calls (snapd, the identity service, the MQTT broker, NATS, HTTP uploads, the operating system's file
operations) are parameters: each operation takes a record of outcomes, and the theorems quantify over
all of them. Code that updates state in place is a class with methods proved against
a function of the old state; the theorems are about those functions and about runs of them.

## Modules

| module | subject |
|---|---|
| `Strings`, `Paths` | splitting and joining; `path.Clean`, `path.Join` and `GetPath` |
| `Disk`, `Config` | the file system, what its files hold, and the stored parameters |
| `Identity` | the credential cache and the enrolment that fills it, each write with its own failures |
| `Mqtt` | the two package variables of the MQTT connection |
| `Server` | enrolment ticks, the enrolment loop, add-on servers, `Run` and `Stop` for one caller |
| `Lifecycle` | a disk and a succession of processes: start-up, ticks, reconfiguration, unregister, crash |
| `Locks`, `Programs`, `HandlerSafety` | the four mutexes under every interleaving, as programs of atomic instructions; single programs run alone; who may write the handler and enrol |
| `Snapd`, `Actions`, `Replies`, `Dispatch` | the log of outside calls, the actions of the MQTT topic, what each message must ask and be answered, and the sessions of messages |
| `Subjects`, `Nats` | NATS subjects, handlers, connect loop and the two versions of the interface |
| `Refinement` | the overlapping models agree: every tick and the enrolment loop are runs of the locked programs, an unregister step is a handled message |

## What turned out otherwise

Where an expected property is false of the code, the code is modelled as it is and the exact condition is proved.

- Credentials on disk, connection and handler need not agree. A tick keeps them in agreement, whatever else happens in it, if and
  only if the credentials can be read, when there is a connection, and a new enrolment can be serialised or none is needed, when
  there is none (`Lifecycle.AgreementExact`). A device has one identity under a like condition (`Lifecycle.SingleIdentityExact`).
- Credentials whose key pair does not load, once stored, keep the agent in its enrolment loop for ever, across
  restarts, as long as the file can be read; a reply `{}` of the identity service is enough (`Lifecycle.BadCredentialsStick`, `Lifecycle.BlankReplySticks`).
  A tick on which every outside call succeeds ends the loop exactly otherwise (`Lifecycle.ConvergenceExact`).
- `getEncodedAssertions` ends without an error when snapd has no assertion, and an empty request body is sent
  (`Identity.EmptyRequestExact`). `storeCredentials` drops an enrolment it cannot serialise without
  an error (`Identity.EnrolmentCachedExact`).
- A params file that exists and cannot be read is overwritten with defaults, so the configured URL is lost
  (`Config.UnreadableParamsOverwritten`). A file that `stat` cannot see counts as removed (`Config.RemovalComplete`).
- The process ends after an unregister exactly when the reply could be serialised, removed or not
  (`Lifecycle.UnregisterExact`, `Lifecycle.ExitWithoutRemoval`).
- `validateServices` says it expects `snapname.daemonname`, and checks a prefix without the dot. For every snap there is a request
  that starts, stops or restarts a service of another snap (`Actions.ForeignServiceSent`); `Actions.PrefixIsNotMembership`
  says exactly which requests do not.
- `Run` starts its NATS server and `AddServer` starts it again (`Server.Server.Run`), so each NATS request is handled
  twice when both connect (`Nats.StartInTurn`, `Nats.RunHandlesTwice`) and answered twice (`Nats.ReplyEach`). A Start that does not return keeps the
  servers lock (`Locks.BlockedStartBlocksServers`).
- The lookup of credentials and the enrolment are two critical sections, and an unregister message removes the file under no lock. Of the
  operations that may be called beside `Run`, `Enroll` alone lets a nil handler be dereferenced, and `Enroll` and unregister alone
  let a second enrolment be stored (`HandlerSafety.NilUseExact`, `HandlerSafety.SecondEnrolmentExact`).
- The two versions of the NATS interface agree call by call; on the wire they differ exactly where a member
  is empty, because only v1 omits empty members (`Nats.VersionsAgree`, `Nats.WireSameExact`).

## Model

| member | source | states |
|---|---|---|
| Paths.GetPathSpelled | config/config.go:128-137 | with `SNAP_DATA` dir/r, where dir is a path of ordinary components, absolute or not, or the root, and r any revision, the path of f is the string dir/current/f |
| Paths.OverrideSpelled | config/config.go:128-137 | an override takes precedence and has its own subdirectory current; with neither variable set the file name is the path |
| Paths.DataPathSpelled | identity/identity.go:150-155 | device data goes to the override of `SNAP_COMMON`, else to `SNAP_COMMON`, else to the working directory |
| Paths.SpelledClean | config/config.go:128-137 | a path of ordinary components is left as it is by path.Clean |
| Paths.UpsClean | config/config.go:128-137 | leading `..` are kept in a relative path and dropped from an absolute one, for any number of them |
| Paths.SharedFilesExact | config/config.go:128-137 | for all environments, overrides and unset variables included, two of them find the same file if and only if they have the same home: the override, or the parent of `SNAP_DATA`, cleaned, or none |
| Paths.TrailingSlashIgnored | config/config.go:128-137 | a slash, or `/.`, behind `SNAP_DATA` changes no file |
| Paths.RevisionIndependenceExact | config/config.go:128-137 | one last component of `SNAP_DATA` can replace another below every directory and for every file if and only if both name an entry, or neither names anything, or both lead up |
| Paths.FilesDistinct | config/config.go:33-39 | params, credentials and device data are three different paths in every environment, so no write destroys another file |
| Config.StoreParameters | config/config.go:73-108 | writes the parameters with empty ones defaulted; every way the write can end leaves the file that way and reports it |
| Config.ReadParameters | config/config.go:48-70 | file members over defaults; an unreadable file is replaced by the defaults |
| Config.RemoveParameters | config/config.go:111-125 | succeeds if and only if every file that is there and seen can be removed, and then exactly those are gone; files and error for every outcome of stat and remove |
| Config.RemovalExact | config/config.go:111-125 | the same of the specification, with what a failure leaves: the credentials still there, params gone exactly if it could be removed, and no other file touched |
| Config.SettingsReadExact | config/config.go:48-70 | each setting is the file's own string member if the file can be read and is a JSON object, and the default otherwise |
| Config.ParamsStoredExact | config/config.go:73-108 | what a store leaves in the params file, for every way its write can end, and in no other file |
| Config.SettingsRoundTrip | config/config.go:48-108 | after a successful store, reading returns what was stored with empty members defaulted, and changes nothing |
| Config.NormaliseIdempotent | config/config.go:76-82 | defaulting twice is defaulting once, and changes exactly the settings with an empty member |
| Config.UnreadableParamsOverwritten | config/config.go:56-61 | a start-up leaves the stored document alone exactly when it was readable, could not be opened, or already was the default |
| Config.RemovalComplete | config/config.go:111-125 | a removal that reports success left neither file exactly when stat saw both; a failure left a file; no other file is touched |
| Identity.Service.EnrollDevice | identity/identity.go:112-142 | request, credentials, then device data, each with an early return: files, requests and result for every combination of failures; a success left the decoded device data and the serialised enrolment on disk |
| Identity.Service.StoreDeviceData | identity/identity.go:144-161 | base64 text is written decoded, or leaves what the write came to; other text is an error |
| Identity.Service.StoreCredentials | identity/store.go:29-37 | the enrolment at the credentials path, torn if the write breaks off, and success without a write if it cannot be serialised |
| Identity.Service.CheckEnrollment | identity/identity.go:76-86 | the cached enrolment if the file is readable and decodes, else a new enrolment |
| Identity.EmptyRequestExact | identity/identity.go:88-109 | an empty request is sent exactly when snapd has no model, or a model and no serial assertion; any other carries model and serial, in this order |
| Identity.CredentialsExact | identity/identity.go:112-132 | the credentials file is written if and only if an enrolment was answered and serialises, and then holds it or what the write came to |
| Identity.DeviceDataExact | identity/identity.go:127-161 | the device data file is written if and only if, besides, the credentials were stored without an error and the data is base64, and then holds the decoded bytes or what the write came to; no third file is touched |
| Identity.CheckExact | identity/identity.go:76-142 | when a check succeeds and with which enrolment, and when it sends a request, exactly |
| Identity.CachedExact | identity/store.go:39-54 | which files decode to an enrolment, and to which |
| Identity.CacheAnswers | identity/identity.go:76-86 | after any check that left a decodable file, every later readable check returns it, sends nothing and writes nothing |
| Identity.EnrolmentCachedExact | identity/identity.go:76-142 | a new enrolment is one request, and is what later checks return from disk exactly when it could be serialised |
| Identity.DataOnlyAfterCredentials | identity/identity.go:127-139 | device data changes only after an answer whose enrolment is already in the credentials file |
| Identity.DeviceDataFailureAbsorbed | identity/identity.go:127-160 | failing device data makes one check fail exactly when it does not decode or its write fails; the next check returns the same enrolment with no request |
| Mqtt.Package.NewClient | mqtt/mqtt.go:79-105 | the existing client, or a new one if the key pair loads |
| Mqtt.Package.GetConnection | mqtt/mqtt.go:49-76 | an existing connection is never replaced; what is returned is the connection, seen open or just connected |
| Mqtt.NewClientExact | mqtt/mqtt.go:79-105 | a client is built if and only if there is none and the key pair loads, and the first one stays |
| Mqtt.SingletonSound | mqtt/mqtt.go:45-105 | over every sequence of calls: at most one client, connection and client exist together, and both carry the first enrolment whose key pair loads |
| Mqtt.ConnectionNeverChanges | mqtt/mqtt.go:49-63 | once there is a connection, no sequence of calls changes client or connection |
| Server.Server.CreateLegacySubscriber | pkg/server/server.go:137-155 | no connection gives no handler; a failed subscription still gives the new handler, with an error |
| Server.Server.Enroll | pkg/server/server.go:157-174 | files, singletons, handler and result of a tick; the handler is left alone only if the check failed |
| Server.Server.AddServer | pkg/server/server.go:197-205 | starts the server and appends it whether or not the start failed |
| Server.Server.Stop | pkg/server/server.go:176-189 | every server in the list is stopped once for each time it is listed, the list is emptied, the client disconnected if there is a handler |
| Server.Server.EnrollLoop | pkg/server/server.go:94-100 | the loop ends at the first tick that succeeds, and then there is a handler |
| Server.Server.Run | pkg/server/server.go:76-133 | the NATS server is started twice; a run that gets past the loop gives it the handler pointer, stops it once and leaves no server |
| Server.LoopEndsWithHandler | pkg/server/server.go:94-102 | the loop ends with a handler bound to the one connection, no earlier tick having succeeded, and the connection never changes on the way |
| Lifecycle.RestartFromDisk | pkg/server/server.go:52-68 | a restarted process depends on the files alone, and begins without client, connection or handler, in its loop, with the settings of the params file or the defaults |
| Lifecycle.ConfiguredURLUsed | cmd/configure.go:22-35 | a configured URL that was stored whole is what every later process enrols with, over every run that reads the params file and does not reconfigure or unregister; the credentials path stays the default |
| Lifecycle.ListensOn | mqtt/mqtt.go:49-76 | once there is a connection, messages reach the process as long as it lives, failed ticks included |
| Lifecycle.AttachExact | pkg/server/server.go:102 | the NATS server gets its pointer exactly past the loop, and nothing else changes |
| Lifecycle.CredentialsPathStaysDefault | cmd/configure.go:26-28 | over every run, every params file written and every process use the path that unregister removes |
| Lifecycle.RefreshInvisible | config/config.go:128-137 | a run that goes on under another ordinary revision from some step on is the run without the refresh |
| Lifecycle.IdentityAgreement | pkg/server/server.go:137-174 | over every run of ticks that meet the exact condition, with failures, reconnects, crashes and restarts: credentials on disk, MQTT connection and handler carry the same IDs, the handler is bound to the connection, past the loop there is a handler |
| Lifecycle.AgreementExact | pkg/server/server.go:157-174 | from every agreeing world in the loop, all ticks with given readability and serialisability keep agreement if and only if: readable when there is a connection; serialisable, or readable and present, when there is none |
| Lifecycle.SingleIdentity | identity/identity.go:76-142 | over every run without an unregister of ticks that meet the exact condition, all enrolments that any process ever obtained are equal |
| Lifecycle.SingleIdentityExact | identity/identity.go:76-142 | from every world in which every enrolment handed out is the one on disk, all ticks with given readability and serialisability keep it so if and only if: readable once an enrolment was handed out; serialisable, or readable and present, before. A first enrolment that is handed out and not stored counts as a loss, although it is the only one so far |
| Lifecycle.WriteOnce | identity/identity.go:76-86 | once an enrolment is on disk, no run of ticks, crashes, restarts and reconfigurations changes the file, sends a request or obtains anything else |
| Lifecycle.SoundAlways | mqtt/mqtt.go:45-46 | client and connection are sound in every process of every run, whatever fails |
| Lifecycle.ConvergenceExact | pkg/server/server.go:94-100 | from every reachable state, leftovers of any failure included, the first all-good tick ends the loop if and only if there is a connection or the enrolment in use has a key pair that loads |
| Lifecycle.BadCredentialsStick | mqtt/mqtt.go:89-93 | with stored credentials that do not load, every run stays in the loop with no connection and no handler |
| Lifecycle.BlankReplySticks | identity/identity.go:184-200 | an answer without members is stored and brings that about |
| Lifecycle.UnregisterExact | pkg/legacy/subscribe_action.go:396-426 | success is reported if and only if the device answered and every file that is there and seen can be removed; it leaves neither file exactly when stat saw both; the process ends exactly when the reply could be serialised |
| Lifecycle.UnregisterForgets | pkg/legacy/subscribe_action.go:419-425 | after a successful unregister and any crashes, restarts and reconfigurations, the next tick obtains nothing it has not just requested |
| Lifecycle.ExitWithoutRemoval | pkg/legacy/legacy.go:110-113 | the process can end with the credentials still there |
| Locks.CodeDisciplined | pkg/server/server.go:70-92 | every operation takes locks in rising order, none twice, releases what it holds, and writes shared fields under their lock |
| Locks.RunDisciplined | pkg/server/server.go:76-133 | so does Run, which waits for ticks and signals with no lock held |
| Locks.OrderlyRun | pkg/server/server.go:176-205 | the discipline survives every interleaving of any number of threads |
| Locks.NoDeadlock | pkg/server/server.go:157-205 | in every reachable state with a thread waiting for a mutex, a thread holding one can move by itself |
| Locks.LocksComeFree | pkg/server/server.go:157-205 | from every reachable state the critical sections can be left without touching a thread outside one, after which every waiting thread can go on |
| Locks.BlockedStartBlocksServers | pkg/server/server.go:197-205 | while a Start inside AddServer does not return, nobody adds or stops a server |
| Locks.ServersConserved | pkg/server/server.go:176-205 | over every interleaving, servers are stopped in the order they were added; completed adds are stops plus what is still listed, for each server |
| Locks.StopSection | pkg/server/server.go:176-189 | over every interleaving, every critical section of a Stop stops the servers it found, each as often as it was listed and in order, with no add or stop in between, looks at the handler once, and leaves the list empty, or is still under way |
| Locks.StopBegins | pkg/server/server.go:176-179 | every call of Stop begins such a section as soon as it gets the lock |
| Locks.StatusUsesExact | pkg/nats/server.go:291-297 | a status request uses the handler exactly when the NATS server has its pointer |
| Locks.StopSectionEnds | pkg/server/server.go:176-189 | from every reachable state at its beginning the section can be brought to that end with nobody arriving |
| HandlerSafety.HandlerAlwaysThere | pkg/server/server.go:94-118 | with Run as the only caller of Enroll, over every interleaving, unregister messages included, and every outcome of lookups and writes: no thread is about to dereference a nil handler, and it is there from the attachment on |
| HandlerSafety.HandlerNeverReplaced | pkg/server/server.go:94-133 | with Run as the only caller of Enroll, from the end of the enrolment loop on, over every interleaving: the handler is not nil and is never assigned again |
| HandlerSafety.NilUseExact | pkg/server/server.go:157-195 | for every set of operations called beside Run, from every start: no run dereferences a nil handler if and only if Enroll is not among them |
| HandlerSafety.OneEnrolment | identity/identity.go:76-142 | with Run as the only caller of Enroll, no unregister message and lookups that read what is there: one enrolment is stored exactly when there was none and now there is one, never two |
| HandlerSafety.SecondEnrolmentExact | identity/identity.go:76-142 | for every set of operations called beside Run, starting without credentials: no run with such lookups stores two enrolments if and only if neither Enroll nor unregister is among them |
| HandlerSafety.TwoEnrollersEnrolTwice | identity/identity.go:76-86 | from every state without credentials two callers can both enrol |
| Programs.AddServerIsProgramRun | pkg/server/server.go:197-205 | the locked program of AddServer, alone, appends its server |
| Actions.Performer.ValidateServices | pkg/legacy/subscribe_action.go:270-289 | refused if and only if the data does not decode or some entry lacks the name; else the list itself, or the snap when it is empty |
| Actions.Performer.Unregister | pkg/legacy/subscribe_action.go:396-426 | files are removed only after snapd answered; calls, reply and files for every outcome |
| Actions.Performer.SnapList | pkg/legacy/subscribe_action.go:97-133 | one list call and one configuration call for each snap, in order |
| Actions.Performer.RetrieveLogs | pkg/legacy/subscribe_action.go:429-485 | calls and reply of a logs action |
| Actions.Performer.RetryExport | pkg/legacy/subscribe_action.go:501-515 | attempts up to the first success or the limit; body and length are those of the last one |
| Actions.Performer.SnapSnapshot | pkg/legacy/subscribe_action.go:488-543 | calls and reply of a snapshot action |
| Actions.TaskCallsOnce | pkg/legacy/subscribe_action.go:68-94 | the change actions make at most one call, none without a snap name, and succeed exactly when it returned no error |
| Actions.PlannedCallExact | pkg/legacy/subscribe_action.go:136-268 | the action can be told back from the call it makes, and the call is about the requested snap, services, channel or patch |
| Actions.LogsExact | pkg/legacy/subscribe_action.go:447-484 | the whole log text is uploaded exactly when snapd gave one; success is exactly a 200 |
| Actions.ListPairsAnswers | pkg/legacy/subscribe_action.go:107-133 | each listed snap carries the answer of its own configuration call; a failing one fails nothing else |
| Actions.ServicesGiven | pkg/legacy/subscribe_action.go:270-289 | the list given to snapd is never empty: the snap itself, or the whole request list, given exactly when every entry has the prefix |
| Actions.PrefixIsNotMembership | pkg/legacy/subscribe_action.go:211-289 | what start, stop and restart hand to snapd are services of the requested snap only, if and only if no listed entry goes on after the name with something but a dot, or some entry lacks the name, or the request is refused before |
| Actions.ForeignServiceSent | pkg/legacy/subscribe_action.go:277-287 | for every snap name, a request for a service of a snap whose name is longer passes and is handed to snapd |
| Actions.AttemptsExact | pkg/legacy/subscribe_action.go:507-515 | the number of attempts is k exactly when all before the last fail and the last fails only at the limit |
| Actions.SnapshotUploads | pkg/legacy/subscribe_action.go:501-527 | an upload happens exactly when one of the allowed attempts succeeds |
| Actions.FirstExportUploaded | pkg/legacy/subscribe_action.go:507-519 | what is uploaded is body and length of the first attempt to succeed, right after it |
| Replies.ServicesExact | pkg/legacy/subscribe_action.go:270-289 | the same of the specification, and the message names the first entry that lacks the snap name |
| Replies.TaskRight | pkg/legacy/subscribe_action.go:68-325 | each action that starts a change: refused without a call exactly when it must be, and why; else its own call, about the request's own snap, services, channel or patch; result and message |
| Replies.QueryRight | pkg/legacy/subscribe_action.go:291-394 | the same for conf, info, ack and server, each reply member from the member of its own name |
| Replies.DeviceServed | pkg/legacy/subscribe_action.go:42-66 | device information, then version; IDs of the handler, details of the answer, no version where that call failed |
| Replies.SnapshotRight | pkg/legacy/subscribe_action.go:488-543 | the snapshot of the request's snap, exports of its set up to the first good one, its upload; success exactly if that is answered with 200, and the message of whichever step failed |
| Replies.LogsRight | pkg/legacy/subscribe_action.go:429-485 | the logs of the request's limit, whole, to its URL; success exactly if that is answered with 200, and the message of whichever step failed |
| Replies.ConcatExact | pkg/legacy/subscribe_action.go:447-458 | joining log lines takes concatenation to concatenation and keeps each line |
| Dispatch.PerformRight | pkg/legacy/legacy.go:117-203 | every known action is served with its own calls and its own reply |
| Dispatch.Handler.PerformAction | pkg/legacy/legacy.go:117-203 | a reply for exactly the known actions, with the calls and the reply of that action; files as a removal leaves them, for an unregister that the device answered |
| Dispatch.Handler.SubscribeHandler | pkg/legacy/legacy.go:89-114 | decode, act, publish, and end after an unregister whose reply was serialised |
| Dispatch.SessionAccounts | pkg/legacy/legacy.go:89-114 | over every message sequence: one payload for each decodable message in order, echoing its ID and action; the process ends with the first serialised unregister reply and only then |
| Dispatch.SessionCalls | pkg/legacy/legacy.go:89-203 | over every message sequence: the calls made are those of the payloads, one after another, and for each message, of whatever action, calls, success, result and message are those of its action and of the answers |
| Dispatch.UnregisterReplyExact | pkg/legacy/legacy.go:98-113 | a published unregister reply reports success if and only if the device answered and every file that is there and seen can be removed; files change only then and only so |
| Dispatch.UnregisterReplyTruthful | pkg/legacy/legacy.go:98-113 | a published success means both files are gone; a device error leaves all files |
| Subjects.NoOverlap | pkg/nats/messages.go:7-20 | no subject matches two subscribed patterns |
| Subjects.SnapSubjectExact | pkg/nats/server.go:324-331 | a subject matches the wildcard pattern if and only if it has six parts, the fifth dot-free, and is rebuilt from that part |
| Nats.GetInitialConnection | pkg/nats/server.go:85-127 | for every event stream: connected exactly when an attempt succeeds before a quit, given up exactly when a quit comes first; a created ticker is stopped on every return |
| Nats.Server.SetupSubscriptions | pkg/nats/server.go:348-370 | every topic not refused is subscribed once more, in any order |
| Nats.Server.Start | pkg/nats/server.go:61-79 | connected, given up or waiting; `encodedConn` is set before any subscription exists |
| Nats.Server.HandleAppsPost | pkg/nats/server.go:201-241 | calls and reply of the unversioned start and stop |
| Nats.Server.HandleAppsPostV1 | pkg/nats/server.go:243-283 | calls and reply of the v1 start and stop |
| Nats.Server.HandleSnapsGet | pkg/nats/server.go:163-199 | one entry for each snap, built in a loop |
| Nats.Server.HandleMqttConnectionStatus | pkg/nats/server.go:285-303 | the reply by whether the pointer is set |
| Nats.Server.HandleSnapsSnapPostV1 | pkg/nats/server.go:305-346 | calls and the one reply of a switch, on every way out |
| Nats.RepliesExact | pkg/nats/server.go:129-346 | which requests are answered and which call snapd, exactly, and that start starts and stop stops |
| Nats.AnswersExact | pkg/nats/server.go:129-283 | an assertions request asks for its type and is answered with what snapd gave; start and stop replies, in both versions, carry snapd's change ID and error text |
| Nats.SwitchReachesSnap | pkg/nats/server.go:305-346 | a switch request published for a snap is delivered, switches that snap, and tells success from failure exactly when error texts are not empty |
| Nats.StatusExact | pkg/nats/server.go:285-297 | what a server sends for a status request: one reply, with error information exactly when the server has no handler pointer, and then not connected; else as the handler's connection says |
| Nats.SnapsReplyFaithful | pkg/nats/server.go:372-403 | every member of a reply entry comes from the member of its own name: the snap can be rebuilt from it |
| Nats.WireSameExact | pkg/nats/messages.go:52-55 | the two versions of a reply are the same JSON exactly when no member is empty |
| Nats.VersionsAgree | pkg/nats/server.go:129-283 | over every request sequence and every outcome, both versions make the same calls in the same order and publish the same replies up to nil against empty |
| Nats.StartInTurn | pkg/server/server.go:82-87 | after Starts one after another, as long as they return, every request is handled once for each Start that connected and was not refused |
| Nats.HandledPerStart | pkg/nats/server.go:348-370 | each of these handler runs is of the topic's own handler and no other |
| Nats.RunHandlesTwice | pkg/server/server.go:82-87 | when Run's Start and AddServer's both connect and are not refused, a request is handled by its handler twice |
| Nats.ReplyEach | pkg/nats/server.go:311-316 | each handler run of a switch or status request publishes one reply |
| Refinement.TickIsProgramRun | pkg/server/server.go:157-174 | every tick, whatever fails in it, is a run of the locked program that ends with the same handler and cache, on the successful way exactly when the tick succeeds |
| Refinement.LoopIsProgramRun | pkg/server/server.go:94-100 | the enrolment loop over any stretch of ticks is a run of the locked loop: same handler and cache, past the loop exactly when a tick succeeded |
| Refinement.UnregisterIsHandled | pkg/legacy/legacy.go:98-113 | the unregister step of the life cycle is what the message handler does: same files, same end, same Success |

## Left out

- TLS and certificates: whether a key pair loads is a verdict that comes with the credentials.
- JSON and base64 are abstract decoders that give a value or fail; files that break off never decode.
- Serialisation that fails is an outcome of its own wherever the code tests for it, although most of these values always serialise.
- Upload URLs that do not parse: the code uses the request before it tests the error, and would panic.
- Health and metrics payloads, log output and time stamps; the text of log lines is given with the answer of the logs call.
- Exact texts of errors that come from libraries (removal, retry, an upload that is not answered with 200) are constants or parameters.
- Waiting times: retry delays, ticker intervals and the quiescing of a disconnect.
- Reading the NATS password and other settings through viper, and failures that end the process through `logrus.Fatal`.
- `snapdapi/client.go` and `snapdapi/assert.go`, which forward to snapd's client.
- Command-line set-up, snap hooks and shell scripts, the unregister script among them.
- Power loss between a write and its sync: a crash inside a write leaves a torn or a complete file.
- The environment of a process is fixed while it runs.
- Data races below sequential consistency: unlocked reads and writes of the handler are atomic steps in `Locks`.
- Publish errors on NATS and MQTT, which the code only logs: a publish in the model is the attempt.
- The end of the process after an unregister whose reply could be serialised, in `Locks`: there an unregister message removes the credentials and the process lives on, and a process that ends is a run that stops.
- Locks.NoDeadlock: assumes that calls inside critical sections return, an add-on server's Start among them; `Locks.BlockedStartBlocksServers` says what happens otherwise.
