# Verified model of the nixstasis device client

The device client (`packages/client`) registers a device, polls a server, runs the
commands of each heartbeat, keeps a remote-access tunnel in line with what the server
grants, and converts the results of sandboxed scripts. This project models the parts
of it whose correctness is not visible from one function body, and proves what they
promise.

| module | what it models |
|---|---|
| `Converter` | the bounded Starlark-to-Go converter over an explicit heap graph with sharing and cycles |
| `AtomicFile` | the save under every durable record, one file-system call at a time, with unsynced data, names and a newly made directory losable |
| `Enrollment` | enrollment as a protocol: two files, the process, a lossy, duplicating, delaying network, crashes, and the server's own registration rule |
| `EveryRun` | what enrollment keeps in every run, also after a power loss took a directory |
| `Secrets` | which runs present every proof with one replacement and one MAC |
| `Progress` | which undisturbed executions get the device enrolled |
| `Register` | the `register` command as code over `AtomicFile`, with both files in one directory or in two; each of its executions is a run of `Enrollment` |
| `RemoteAccess` | tunnel reconciliation: start, stop, restart or keep, with failing calls and a tunnel that may die |
| `Scheduler` | batch execution with serial barriers and eight slots, for every schedule |
| `CommandCycle` | payload fetching by a worker pool, and the one list of answers sent per poll |
| `CommandPolicy` | policy updates across the handler, the runtime configuration and the policy file, with rollback, crashes and restarts |
| `PolicyService` | the polling service with its policy store as code; each of its executions is a run of `CommandPolicy` |
| `Base64`, `KeyCodec` | SSH public keys: base64, length-prefixed fields, canonical form |
| `SshStore` | the authorization store with timers whose callbacks come late or stale |
| `Mqtt` | the topic allowlist matcher against the matching relation of MQTT 3.1.1 |
| `Versions` | script version selection, and what an accepted install guarantees |
| `Text`, `Wrappers` | white space, UTF-8 length, words; optional values |

How the pieces are stated:

- What the client updates in place is a class with those fields, or an array; each
  method is proved against a specification function or relation of the old state.
- Whole-run properties are lemmas over sequences of steps (`Run`, `Path`) or class
  invariants that every method keeps.
- Concurrency is free choice: a method picks which goroutine moves next, so its
  contract holds for every schedule. Timeouts, cancellation, file-system outcomes,
  network events and operators' decisions are parameters.
- SHA-256 is taken to be injective and random tokens to be fresh. Clock readings are
  integers that never go back.
- The server's registration rule is not assumed: `Enrollment.Serve` follows
  `packages/server/lib/nixstasis/devices.ex`, so that enrollment is proved of client
  and server together.

Run `dafny verify dfyconfig.toml` to check everything.

## What the code does not do

Some statements one would expect are false of the code. Each is kept as the code has
it, with a lemma for the exact condition or a concrete input.

- A restart of the tunnel whose stop fails is forgotten when the response carries the
  token already tracked: the new lease and expiry are noted as if the restart had
  happened (`poll.go:396-399`). `RemoteAccess.FailedStopRetried` gives the exact
  condition and `RemoteAccess.FailedStopForgotten` an instance. The server signs lease
  and expiry into the token, and under that assumption what is tracked is what runs
  (`RemoteAccess.TrackedStateFaithful`); without it, nothing but such a restart makes the
  tracked lease another than that of the tunnel (`RemoteAccess.LeaseFaithful`).
- A save makes the directory it needs but never syncs that directory's parent. After a
  successful save the contents survive every power loss exactly if the directory was
  durable before (`AtomicFile.SurvivesIffDurable`, `AtomicFile.FirstSaveLost`). So
  enrollment is safe in every run exactly if the directory of its files is durable when
  the device starts (`Enrollment.SafeIffAnchored`); otherwise the power loss that takes
  the directory strands the device, as in the run `Enrollment.DirectoryLost`, and only
  that does (`Enrollment.StrandedOnlyByLoss`). The package makes `/etc/nixstasis` at
  installation; a path set in the environment may name a directory that is not there.
- A proof can be presented with two replacements if the registration file lies in a
  directory of its own: a power loss may take that directory after a request to rotate the
  token was sent, and the next run proposes another replacement for the same token
  (`Secrets.SecretsReplaced`). A power loss opens that way exactly if it takes the
  registration file and leaves an identity whose token was already presented
  (`Secrets.HarmlessIff`). So enrollments keep their secrets in every run exactly if the
  directory is durable or the two files are never lost apart (`Secrets.SecretsIff`), as when
  they share one directory.
- Replaying the policy version in force under another revision updates the runtime
  configuration and the file but not the handler: exactly then the copies differ
  (`CommandPolicy.ReplayedRevision`), and a later failed update changes the effective
  revision (`CommandPolicy.RollbackExact`). `CommandPolicy.RevisionAppears` is a run
  that shows both.
- A policy without a positive revision bypasses the ordering
  (`CommandPolicy.UnorderedRevision`, run `CommandPolicy.RevisionDisappears`).
- The store trims the version and the parser does not, so that after a restart a
  replay may not be recognised (`CommandPolicy.ReplayAfterRestart`, run
  `CommandPolicy.PaddedReplay`).
- A power loss can bring an older policy back. With updates from a catalogue of
  positive revisions that is possible exactly if the service is exposed, or if its
  directory is not durable and it has a policy (`CommandPolicy.SafeIffNotExposed`). It
  is exposed exactly after a reload of a newer policy whose save was renamed but not
  synced, until something settles the file (`CommandPolicy.ExposedIff`). The runs
  `CommandPolicy.PowerLossUndoesReload` and `CommandPolicy.PowerLossTakesDirectory` show
  both cases; otherwise revisions never go back (`CommandPolicy.RevisionsNeverDecrease`).
- The authorization store reads the clock before it takes its lock. Its answer is that of
  the log, unless the grant expires in between; then it is yes exactly if the entry is
  still stored (`SshStore.Store.Authorize`, instance `SshStore.LateAnswer`).
- Installing a script can overwrite a script of another name
  (`Versions.InstallKeepsOthers`, `Versions.SharedFilename`); `Versions.OverwritesOther`
  are two accepted installs of which the second loses the first.

## Model

| member | source | states |
|---|---|---|
| Converter.StarlarkValueToGo | packages/client/internal/script/runtime.go:216-227 | Succeeds exactly when the value unfolds to a finite tree of supported values within all four limits (unless cancelled); the result stands for the value, scalar by scalar, element by element and key by key; every value is preceded by a cancellation check, at most 10,001 on any graph; an error of size means that every tree is over that limit, and an error of shape has a culprit that the value leads to |
| Converter.StarlarkConverter.Convert | packages/client/internal/script/runtime.go:231-267 | The node and byte totals grow by exactly the tree's nodes and cost, the active sets are as before on every exit, and an error is given only when no tree of the value fits |
| Converter.StarlarkConverter.ConvertLeaf | packages/client/internal/script/runtime.go:239-266 | Scalars and strings become themselves; integers outside int64 and unsupported types are refused; each is charged or refused as the tree demands |
| Converter.StarlarkConverter.ConvertList | packages/client/internal/script/runtime.go:279-286 | A list already on the path has no tree; otherwise the list's own reference is pushed and popped on every exit |
| Converter.StarlarkConverter.ConvertDict | packages/client/internal/script/runtime.go:290-327 | The same for dicts, with string keys, and the early reservation of two nodes per entry refuses only what could not fit |
| Converter.StarlarkConverter.ConvertEntries | packages/client/internal/script/runtime.go:307-325 | The entry loop: keys and values charged once each, later entries of a key overwrite earlier ones |
| Converter.StarlarkConverter.ConvertIterable | packages/client/internal/script/runtime.go:332-353 | The element loop: the result is the elements' trees in order, and the early reservation changes nothing |
| Converter.StarlarkConverter.ConvertStringValue | packages/client/internal/script/runtime.go:366-374 | Accepts a string exactly within the per-string and total limits and charges its length |
| Converter.StarlarkConverter.ConvertScalar | packages/client/internal/script/runtime.go:270-275 | Charges the scalar or changes nothing |
| Converter.StarlarkConverter.CheckContext | packages/client/internal/script/runtime.go:378-388 | Polls once and reports cancellation exactly when it has come |
| Converter.StarlarkConverter.ReserveNodes | packages/client/internal/script/runtime.go:401-406 | Checks without consuming |
| Converter.StarlarkConverter.ConsumeNodes | packages/client/internal/script/runtime.go:391-397 | Never exceeds the node limit |
| Converter.StarlarkConverter.ConsumeOutputBytes | packages/client/internal/script/runtime.go:410-416 | Never exceeds the output limit |
| Converter.UnfoldsIffAcyclic | packages/client/internal/script/runtime.go:279-327 | A value has a tree exactly when it lies in an acyclic part of the graph with string keys and int64 integers; shared references do not matter |
| Converter.CycleHasNoUnfolding | packages/client/internal/script/runtime.go:277-286 | Nothing on a cycle of references has a tree, so rejecting a reference that is on the active path rejects only what must be rejected |
| Converter.UnfoldsAvoidsActive | packages/client/internal/script/runtime.go:391-406 | The tree relation with active sets accepts what the plain one accepts: the cycle checks refuse nothing that has a tree |
| Converter.UnfoldsUnique | packages/client/internal/script/runtime.go:231-267 | A value has at most one tree |
| Converter.EntryKeys | packages/client/internal/script/runtime.go:303-326 | The Go map has exactly the keys of the dict |
| Converter.DistinctKeysKept | packages/client/internal/script/runtime.go:303-326 | With distinct keys the Go map holds every entry of the dict |
| Converter.TreeRepresents | packages/client/internal/script/runtime.go:231-353 | The Go value of a tree stands for the value: the same scalar, a slice of the same length, or a map with the keys of the dict and the value of the last entry of each |
| Converter.CostIsLength | packages/client/internal/script/runtime.go:418-434 | The bytes charged are the length of the compact JSON text with every scalar at its widest and strings without quotes |
| Converter.Growth | packages/client/internal/script/runtime.go:277-353 | Nodes, visited values and levels grow entry by entry: a list item adds its own, a dict entry one node more for its key |
| Converter.FitsLimits | packages/client/internal/script/runtime.go:200-205 | The limits are 64 levels, 10,000 nodes, 1 MiB of text and 256 KiB for each string or key |
| AtomicFile.OldOrNew | packages/client/internal/identity/store.go:119-165 | A save that crashes or fails at any call leaves exactly the old or the new contents to read, and after success the new; a power loss too, unless it takes a directory that is not durable |
| AtomicFile.SurvivesIffDurable | packages/client/internal/identity/store.go:120-123 | What a successful save wrote survives every power loss exactly if the directory was durable before the save |
| AtomicFile.FirstSaveLost | packages/client/internal/identity/store.go:120-163 | The first save in a directory it has to make succeeds and is lost |
| AtomicFile.Directory.Write | packages/client/internal/identity/store.go:119-165 | The save as fallible calls refines one atomic step and succeeds exactly if each of its calls does; no temporary file stays behind; the directory is made if missing, and every other record of the directory, present or absent, is unchanged or settled |
| AtomicFile.Directory.MakeFolder | packages/client/internal/identity/store.go:120-123 | A missing directory is made but may vanish in a power loss; what it holds is unchanged |
| AtomicFile.Directory.Replace | packages/client/internal/identity/store.go:125-164 | Temporary file, write, sync, rename, directory sync and cleanup refine one atomic step |
| AtomicFile.Directory.CleanUp | packages/client/internal/identity/store.go:131-139 | Removing the temporary file touches no record |
| AtomicFile.Directory.WriteTemp | packages/client/internal/identity/store.go:141-155 | Only a written, synced and closed temporary file goes on to the rename |
| AtomicFile.Directory.Publish | packages/client/internal/identity/store.go:157-164 | The rename and the directory sync |
| AtomicFile.Directory.Remove | packages/client/internal/identity/store.go:78-83 | Removal leaves the old contents or none, and after success none |
| AtomicFile.Directory.Load | packages/client/internal/identity/store.go:56-63 | Reads what a running process sees |
| AtomicFile.Directory.PowerLoss | packages/client/internal/identity/store.go:120-163 | If the directory stays, every path falls back to something it may durably hold, never torn, while unsynced data is; a directory that is not durable may go with everything in it |
| AtomicFile.SyncDirView | packages/client/internal/identity/store.go:31-39 | Syncing the directory settles every name in it |
| Enrollment.NeverStranded | packages/client/cmd/nixstasis/register.go:48-193 | With the files in a durable directory, in every state of every run whatever a restart reads is usable: a registration file the server will accept, or the server's current identity, or neither file and a server that has never seen the device |
| Enrollment.SafeIffAnchored | packages/client/cmd/nixstasis/register.go:48-193 | All states of all runs are recoverable exactly if the directory is durable at the start |
| Enrollment.DirectoryLost | packages/client/internal/identity/store.go:120-163 | The run in which the first registration makes its directory and a power loss takes it; the server then refuses every new proof |
| Enrollment.StrandedOnlyByLoss | packages/client/cmd/nixstasis/register.go:48-193 | In any other directory the device stays restartable until the power loss that takes the directory |
| Enrollment.StepKeepsInv | packages/client/cmd/nixstasis/register.go:82-133 | Every step of the process, the network, the server, an operator, a crash or a power loss that leaves the directory keeps the protocol invariant |
| Enrollment.SendKeepsInv | packages/client/cmd/nixstasis/register.go:82-83 | A request sent is one of the exchanges prepared so far |
| Enrollment.SavePreparedKeepsInv | packages/client/cmd/nixstasis/register.go:187-192 | Saving the proposed exchange, whether it succeeds, fails or crashes |
| Enrollment.Advance | packages/client/cmd/nixstasis/register.go:176-192 | A rotation starts from the exchange just completed, before the server has seen anything of it |
| Enrollment.SaveClaimKeepsInv | packages/client/cmd/nixstasis/register.go:91-97 | Saving the proof that the server claimed |
| Enrollment.SaveIdentityKeepsInv | packages/client/cmd/nixstasis/register.go:114-126 | Saving the identity while the registration file still holds the exchange that led to it |
| Enrollment.SaveRecoveryKeepsInv | packages/client/cmd/nixstasis/register.go:117-125 | Keeping the runtime token as the next proof when the identity could not be saved |
| Enrollment.RemoveProofKeepsInv | packages/client/cmd/nixstasis/register.go:137-158 | The proof goes only when every possible content of the identity file is current |
| Enrollment.PowerFailsKeepsInv | packages/client/internal/identity/store.go:125-164 | A power loss that leaves the directory: both files may fall back to anything not yet settled |
| Enrollment.ServerHandlesKeepsInv | packages/server/lib/nixstasis/devices.ex:305-345 | The server may handle any request ever sent, again and in any order |
| Enrollment.ServerMoves | packages/server/lib/nixstasis/devices.ex:329-411 | Whatever past request arrives, the server only ever completes the last prepared exchange |
| Enrollment.ServeIdempotent | packages/server/lib/nixstasis/devices.ex:329-395 | A repeated request changes nothing more, and a granted exchange is granted again |
| Enrollment.GrantedIff | packages/server/lib/nixstasis/devices.ex:305-411 | The server grants an exchange exactly to an approved device on its current token, or again on the replacement it took, and a new device starts pending on its own proof |
| Enrollment.ReviewKeepsInv | packages/server/lib/nixstasis/devices/validations/approval_transition.ex:21-35 | Approval or rejection of a pending device |
| Enrollment.OneMac | packages/client/cmd/nixstasis/register.go:173-182 | While no power loss takes the directory all requests ever sent carry one MAC |
| Enrollment.CanComplete | packages/client/cmd/nixstasis/register.go:48-133 | From every stopped state that satisfies the invariant the device can be enrolled by one run, with one load and no failure, unless an operator rejected it |
| Enrollment.InvRestartable | packages/client/cmd/nixstasis/register.go:160-193 | The invariant implies that the files can be used after a restart, or a power loss that leaves the directory |
| EveryRun.StepSound | packages/client/cmd/nixstasis/register.go:82-192 | A second invariant, on what requests have presented and what the server has granted, is kept by every step, a power loss that takes the directory included |
| EveryRun.WriteAhead | packages/client/cmd/nixstasis/register.go:187-192 | In every run, every request sent carries exactly the proof, replacement and MAC that the registration file holds and all it can hold after a power loss that leaves the directory |
| EveryRun.SuccessIsCurrent | packages/client/cmd/nixstasis/register.go:115-132 | In every run, a process that removes its proof has the server's current identity as the only possible content of the identity file |
| EveryRun.SavedIsCurrent | packages/client/cmd/nixstasis/register.go:114-127 | Before the proof is removed the identity file durably holds the server's current token |
| Secrets.StepConsistent | packages/client/cmd/nixstasis/register.go:82-192 | Every step, with any harmless power loss, keeps the files and the process from presenting a proof with other secrets than before |
| Secrets.SecretsNeverChange | packages/client/internal/identity/enrollment.go:11-22 | In every run whose power losses are harmless, through all retries and restarts, no proof is presented with two replacements or two MACs |
| Secrets.HarmlessIff | packages/client/cmd/nixstasis/register.go:163-192 | A power loss is harmless exactly if no continuation of the run without a harmful one changes the secrets |
| Secrets.SecretsReplaced | packages/client/cmd/nixstasis/register.go:163-192 | The 16-step run in which the registration file alone is lost and one token is presented with two replacements |
| Secrets.SecretsIff | packages/client/internal/identity/enrollment.go:11-22 | The secrets are kept in every run exactly if the directory is durable or the two files are never lost apart |
| Progress.Grantable | packages/server/lib/nixstasis/devices.ex:329-395 | The server grants the request of a waiting process whose device is approved |
| Progress.CourseOn | packages/client/cmd/nixstasis/register.go:76-110 | How far server and operators have got after one more attempt that was not granted |
| Progress.ApprovedMeanwhile | packages/client/cmd/nixstasis/register.go:76-110 | A device that the server sees at one attempt, that is approved before a later one, and whose later attempt is answered has prospects of success |
| Register.NewDevice | packages/client/cmd/nixstasis/register.go:53-56 | A device that was never enrolled, with both files in one directory or in two, durable or not |
| Register.Device.RunRegister | packages/client/cmd/nixstasis/register.go:48-133 | The command, under any file-system outcomes, network events and reviews, killed at any step between two calls or while it waits, and also after a directory was lost, is a protocol run; every new request carries the MAC of the registration file, else of the identity, else the detected one, and so do the credentials stored; success means the identity file durably holds the identity that the last answer granted, which is current, and the proof is gone. While no directory was lost it ends restartable, and recoverable in a durable directory; while losses are harmless no proof has had two requests. Undisturbed, it succeeds if an attempt is granted and otherwise makes all eight; and an attempt is granted if nobody rejects the device and the server answers one after its approval |
| Register.Device.SaveEnrollment | packages/client/internal/identity/enrollment.go:51-60 | Saving the registration file is one protocol save, and at most settles the identity file beside it |
| Register.Device.SaveCredentials | packages/client/internal/identity/store.go:92-104 | Saving the identity file is one protocol save, and at most settles the registration file beside it |
| Register.Device.RemoveEnrollment | packages/client/internal/identity/store.go:78-83 | Removing the registration file is one protocol removal, and at most settles the identity file beside it |
| Register.Device.LoadRegistration | packages/client/cmd/nixstasis/register.go:163-186 | Recovery state first, then the runtime identity, then new secrets: the MAC, token and replacement are those of the first that is there, and for a new device the detected MAC and fresh tokens |
| Register.Device.SavePreparation | packages/client/cmd/nixstasis/register.go:187-192 | Nothing is sent unless the secrets are durable |
| Register.Device.Call | packages/client/internal/transport/client.go:196-251 | One request, answered by nothing, by something the server replied to it, or by what the server replies now, which is a grant if the device is approved; the process may be killed while it waits |
| Register.Device.Respond | packages/server/lib/nixstasis/devices.ex:305-345 | The server's reply to the request that the process waits for |
| Register.Device.Attempt | packages/client/cmd/nixstasis/register.go:81-109 | One turn of the retry loop: a pending reply with a proof is taken over and saved before the next turn, any other reply changes no secret |
| Register.Device.Finish | packages/client/cmd/nixstasis/register.go:113-133 | After a grant: the identity is saved, then the proof removed |
| Register.Device.RequestCredentials | packages/client/cmd/nixstasis/register.go:76-110 | The retry loop: at most eight requests, each on the protocol, with kills during every backoff and every request; it ends early only by a grant, a kill or a failed save, and by a grant whenever the server answers an attempt of an approved device |
| Register.Device.SaveClaimedProof | packages/client/cmd/nixstasis/register.go:91-97 | A claimed proof is saved before it is used |
| Register.Device.StoreIdentity | packages/client/cmd/nixstasis/register.go:114-126 | Saves the identity, or, when that fails, keeps uuid, token and MAC in the registration file |
| Register.Device.KeepRuntimeToken | packages/client/cmd/nixstasis/register.go:117-125 | The recovery save after a failed identity save |
| Register.Device.RemoveRegistrationProof | packages/client/cmd/nixstasis/register.go:137-158 | On success the identity file holds only the current identity |
| Register.Device.Reboot | packages/client/internal/identity/store.go:119-165 | Any power loss leaves a device that can go on; it is restartable if its directories stayed, recoverable if they were durable, and keeps its secrets unless the registration file's directory goes without the identity file's |
| RemoteAccess.Poller.Reconcile | packages/client/cmd/nixstasis/poll.go:354-413 | State and calls after one poll are those of the decision table `After` and `Calls` |
| RemoteAccess.Poller.StartFRP | packages/client/cmd/nixstasis/poll.go:418-435 | Tracks token and profile only if the start succeeds |
| RemoteAccess.Poller.ClearRemoteAccessState | packages/client/cmd/nixstasis/poll.go:457-464 | Forgets everything tracked |
| RemoteAccess.Poller.TurnTunnelOff | packages/client/cmd/nixstasis/poll.go:362-375 | Off with nothing tracked, unless the stop fails |
| RemoteAccess.Poller.Restart | packages/client/cmd/nixstasis/poll.go:380-395 | Stop, then start; a failed stop starts nothing |
| RemoteAccess.TrackedStateTruthful | packages/client/cmd/nixstasis/poll.go:354-464 | In every run, what is tracked about a running tunnel is its token and profile, and the lease and expiry of the latest accepted response with that token |
| RemoteAccess.TrackedStateFaithful | packages/server/lib/nixstasis/devices/frps_token.ex:23-50 | When tokens carry lease, expiry and profile, what is tracked is what the tunnel was started with |
| RemoteAccess.PollSettles | packages/client/cmd/nixstasis/poll.go:354-413 | When tokens are signed, a poll whose calls succeed leaves the tunnel off when access is withdrawn, expired or refused, and otherwise running the response's profile and lease |
| RemoteAccess.PollSettlesUnsigned | packages/client/cmd/nixstasis/poll.go:354-413 | Without that assumption the same for on, off and profile, and the exact condition for the lease |
| RemoteAccess.RefusedAccess | packages/client/internal/config/route_profile.go:75-111 | No token, an expired one, no profile, a malformed name, a version that is not positive, a profile not configured or configured in another version, or unsound routes: no start, and off with nothing tracked unless the stop fails |
| RemoteAccess.GrantedAccess | packages/client/internal/config/route_profile.go:75-111 | With none of these a poll whose calls succeed leaves the tunnel running that profile, tracked under its key |
| RemoteAccess.FailedStop | packages/client/cmd/nixstasis/poll.go:362-395 | A failed stop leaves the tunnel, its token and its profile as they are, and starts nothing |
| RemoteAccess.FailedStopRetried | packages/client/cmd/nixstasis/poll.go:380-399 | After a failed stop the same response asks for the restart again exactly when its token or profile is not the tracked one |
| RemoteAccess.LeaseFaithful | packages/client/cmd/nixstasis/poll.go:380-399 | In a run without such a forgotten restart the tracked lease is that of the running tunnel, signed or not |
| RemoteAccess.PollSettlesLease | packages/client/cmd/nixstasis/poll.go:354-413 | After such a run a granting poll whose calls succeed leaves the tunnel with the response's profile and lease |
| RemoteAccess.FailedStopForgotten | packages/client/cmd/nixstasis/poll.go:380-399 | An input on which the tunnel keeps its old lease |
| RemoteAccess.ExpiryBound | packages/client/cmd/nixstasis/poll.go:396-399 | After a granting poll the tracked expiry is no later than granted, and up to date or more than 30 s away |
| RemoteAccess.NeverLapses | packages/client/cmd/nixstasis/poll.go:448-455 | When tokens are signed, polls are at most 30 s apart and the server keeps extending, the running credential does not lapse before the next poll |
| RemoteAccess.NeverLapsesUnsigned | packages/client/cmd/nixstasis/poll.go:448-455 | Without signatures the same for the latest expiry that came with the running token |
| RemoteAccess.NoChurn | packages/client/cmd/nixstasis/poll.go:377-455 | Through any number of polls a running tunnel is left alone, however often the token changes, exactly if each keeps profile and lease and has no expiry, the stored one, or a later one while the stored one is not near |
| RemoteAccess.ProfileKeyInjective | packages/client/cmd/nixstasis/poll.go:437-446 | The "name:version" key identifies the profile |
| RemoteAccess.Numerals | packages/client/cmd/nixstasis/poll.go:437-446 | Versions are written in decimal |
| Scheduler.Handler.ExecuteBatch | packages/client/internal/commands/handler.go:79-139 | For every schedule, results and final state are those of running the commands one by one; never more than eight at once, a serial command alone, and each executes exactly once if it is the first with its id and was not cancelled while waiting |
| Scheduler.Handler.FlushBatch | packages/client/internal/commands/handler.go:90-114 | The collected commands all finish, each result in its own slot, at most eight running |
| Scheduler.Handler.RunSerial | packages/client/internal/commands/handler.go:126-132 | A serial command starts after every collected one has ended |
| Scheduler.Handler.CatchUp | packages/client/internal/commands/handler.go:90-114 | Flushing brings results and state up to the sequential ones |
| Scheduler.Skip | packages/client/internal/commands/handler.go:115-124 | Missing and repeated ids are answered without execution; a non-serial command may be put off because it does not change the handler |
| Scheduler.SeenIds | packages/client/internal/commands/handler.go:116-124 | The seen-set tells exactly the first command of each id |
| Scheduler.AnswerTo | packages/client/internal/commands/handler.go:115-172 | What each command is answered and does, by id, kind and timing: missing, repeated, late, changing the state, listing, or unsupported |
| Scheduler.OrderlyLimits | packages/client/internal/commands/handler.go:90-132 | At every moment at most eight commands run, and one of the six changing kinds alone |
| CommandCycle.HandleCommandResponses | packages/client/cmd/nixstasis/poll.go:530-546 | What is sent answers each of the first 50 commands exactly once, executed results first and refusals after, and the handler's state is that of executing the ready commands in order |
| CommandCycle.HydrateCommandPayloads | packages/client/cmd/nixstasis/poll.go:548-624 | For every schedule of the workers, at most eight busy at once, the ready commands and the refusals are those of the commands in input order; a command without a reference or with a payload is ready as it is, one whose fetch succeeds is ready with exactly that payload, and the others are refused with their reason |
| CommandCycle.Separate | packages/client/cmd/nixstasis/poll.go:613-623 | The collecting loop |
| CommandCycle.NothingLost | packages/client/cmd/nixstasis/poll.go:548-624 | Every command is either ready or refused, under its own id, and neither list changes the order |
| CommandCycle.SortedOut | packages/client/cmd/nixstasis/poll.go:570-603 | What becomes of each command, by its fields and the result of its fetch |
| CommandCycle.RefIsSafe | packages/client/internal/transport/client.go:388-399 | Which payload references are valid |
| CommandCycle.ResultIds | packages/client/internal/commands/handler.go:79-139 | Executing a batch answers its commands, in order |
| CommandPolicy.Handler.ApplyCommandPolicy | packages/client/internal/commands/handler.go:416-456 | One update: refused, taken in all copies, or rolled back, with the file after any save outcome; refused without a change if it is older, or has the version in force and other commands, and otherwise taken, by every field, unless the save fails |
| CommandPolicy.Handler.ApplyPolicy | packages/client/internal/commands/handler.go:550-587 | The verdict on a policy, by its version, revision and commands, and the policy it would replace |
| CommandPolicy.Handler.RestorePreviousPolicy | packages/client/internal/commands/handler.go:589-601 | Both copies in memory are set back |
| CommandPolicy.EffectiveIsLastApplied | packages/client/internal/commands/handler.go:399-414 | In every run scripts run with the version and commands of the last policy that an update put in force or a start loaded; no refused, failed or crashed update shows |
| CommandPolicy.AppliedAgrees | packages/client/internal/commands/handler.go:572-579 | In every run an update that carries the version in force carries its commands, and one with a revision is not older than a revision in force |
| CommandPolicy.Handler.Save | packages/client/internal/commandpolicy/store.go:51-104 | Refuses a blank version, otherwise one atomic save of the policy with its version trimmed |
| CommandPolicy.Handler.Preloaded | packages/client/internal/commands/handler.go:60-70 | Starts in agreement with the runtime configuration |
| CommandPolicy.StartService | packages/client/cmd/nixstasis/poll.go:155-169 | A started service holds the policy file's contents, or the local configuration when there is none |
| CommandPolicy.Handler.Shared | packages/client/internal/commands/handler.go:54-58 | Holds nothing of its own and uses the shared configuration |
| CommandPolicy.ParseApplyCommandPolicy | packages/client/internal/commands/handler.go:622-653 | Which requests parse, that every entry of an accepted one is usable with an absolute path, and that the parsed commands are the trimmed entries |
| CommandPolicy.NormalizeCommands | packages/client/internal/commandpolicy/store.go:115-134 | Succeeds exactly if every entry is usable; in whatever order the map is visited, every trimmed name is kept |
| CommandPolicy.TrimsTidy | packages/client/internal/commandpolicy/store.go:115-134 | What normalising gives has no surrounding white space and no empty entry |
| CommandPolicy.TrimsAgain | packages/client/internal/commandpolicy/store.go:115-134 | Normalising what was normalised changes nothing |
| CommandPolicy.TakenAgrees | packages/client/internal/commands/handler.go:429-437 | After an accepted update the copies agree and hold the policy's version and commands |
| CommandPolicy.RollbackExact | packages/client/internal/commands/handler.go:555-571 | A failed update leaves the effective version and commands, and the revision except in one exact case |
| CommandPolicy.StepKeepsInv | packages/client/internal/commands/handler.go:416-456 | Updates, failed and crashed saves, restarts and power losses keep the agreement |
| CommandPolicy.PolicyAgreement | packages/client/internal/commands/handler.go:416-456 | In every run the handler and the runtime configuration agree, the disk holds only the last saved policy and accounted remains, and the file records the policy in force |
| CommandPolicy.RevisionsNeverDecrease | packages/client/internal/commands/handler.go:572-574 | From a catalogue with positive revisions, over failures, crashes and restarts, the revision in force never decreases except at a power loss that is not safe |
| CommandPolicy.OneRevision | packages/client/internal/commands/handler.go:429-445 | In such runs handler, runtime configuration and last saved policy carry the same revision |
| CommandPolicy.SafeIffNotExposed | packages/client/internal/commandpolicy/store.go:94-101 | At any point of such a run, no power loss can lower the revision exactly if the service is not exposed and its directory is durable or it has no policy yet |
| CommandPolicy.ExposedIff | packages/client/internal/commandpolicy/store.go:94-101 | Exposed exactly after a reload that raised the revision from an unsettled file, with nothing settling the file since |
| CommandPolicy.PowerLossUndoesReload | packages/client/internal/commandpolicy/store.go:94-101 | The run in which a power loss undoes such a reload |
| CommandPolicy.PowerLossTakesDirectory | packages/client/internal/commandpolicy/store.go:62-65 | The run in which a power loss takes the directory that the first save made |
| CommandPolicy.RevisionAppears | packages/client/internal/commands/handler.go:555-578 | The run in which a replay divides the copies and a failed update then changes the effective revision from 0 to 5 |
| CommandPolicy.RevisionDisappears | packages/client/internal/commands/handler.go:572-574 | The run in which revision 3 gives way to a policy without a revision |
| CommandPolicy.PaddedReplay | packages/client/internal/commandpolicy/store.go:115-119 | The run in which a replay is recognised before a restart and not after it |
| CommandPolicy.ReplayedRevision | packages/client/internal/commands/handler.go:575-578 | The copies keep one revision exactly if no replay carries another |
| CommandPolicy.UnorderedRevision | packages/client/internal/commands/handler.go:572-574 | An accepted update is older exactly when its revision is not positive |
| CommandPolicy.ReplayAfterRestart | packages/client/internal/commandpolicy/store.go:115-119 | After a restart a replay is recognised exactly if its version has no surrounding white space |
| PolicyService.Service.constructor | packages/client/cmd/nixstasis/poll.go:155-169 | A started service is at the start of a run |
| PolicyService.Service.ApplyCommandPolicy | packages/client/internal/commands/handler.go:416-456 | A policy command that parses in time is one update of the service's run, with the outcome that the file system gave; any other is refused and changes nothing |
| PolicyService.Service.Restart | packages/client/cmd/nixstasis/poll.go:155-169 | A new start, after the process died or the power failed, is one restart of the run |
| PolicyService.Service.CommandRuntimeConfig | packages/client/internal/commands/handler.go:399-414 | In every execution scripts run with the version and commands of the last policy applied or loaded |
| PolicyService.UpdateMade | packages/client/internal/commands/handler.go:416-456 | Whatever an update did to memory and file is a step of the run |
| PolicyService.RestartMade | packages/client/cmd/nixstasis/poll.go:155-169 | And so is a restart |
| Base64.DecodeEncode | packages/client/internal/sshauth/keys.go:86-101 | Decoding undoes encoding for all byte strings (section 4 of RFC 4648) |
| Base64.EncodeInjective | packages/client/internal/sshauth/keys.go:86 | Two byte strings have the same text exactly when they are equal |
| Base64.CanonicalShorter | packages/client/internal/sshauth/keys.go:96-101 | The canonical text is never longer than what was offered, padded or broken into lines |
| Base64.Alphabet | packages/client/internal/sshauth/keys.go:86 | The alphabet of section 4 of RFC 4648, in its order |
| Base64.SameBits | packages/client/internal/sshauth/keys.go:86 | Three bytes and their four characters are the same 24 bits, highest first |
| Base64.TestVectors | packages/client/internal/sshauth/keys.go:86 | The test vectors of section 10 of RFC 4648 |
| Base64.DecodePadded | packages/client/internal/sshauth/keys.go:96-101 | The padded form is read as well |
| Base64.BreaksIgnored | packages/client/internal/sshauth/keys.go:96-101 | Line breaks mean nothing |
| Base64.OnlyAlphabet | packages/client/internal/sshauth/keys.go:96-101 | Nothing but the alphabet, padding and line breaks is read |
| KeyCodec.FieldInverse | packages/client/internal/sshauth/keys.go:140-149 | Reading a field and building one are inverse (section 5 of RFC 4251) |
| KeyCodec.BodyInverse | packages/client/internal/sshauth/keys.go:112-138 | The body check accepts exactly the bodies of well-formed Ed25519 and RSA keys |
| KeyCodec.BlobInverse | packages/client/internal/sshauth/keys.go:75-85 | A blob is accepted exactly when it is built from the fields of a key of that type, which it determines |
| KeyCodec.BlobForm | packages/client/internal/sshauth/keys.go:112-138 | A blob is the name of its type and 32 bytes of key, or a nonempty exponent and modulus, each as a field |
| KeyCodec.FieldBytes | packages/client/internal/sshauth/keys.go:140-149 | A field is its length in four bytes, highest first, and its contents |
| KeyCodec.OfferAccepted | packages/client/internal/sshauth/keys.go:60-94 | An offer is accepted exactly when it fits and decodes to a well-formed key of its type |
| KeyCodec.Stored | packages/client/internal/sshauth/keys.go:86-93 | What is stored of an offer: its type, the canonical text, the bytes for the fingerprint, and the line |
| KeyCodec.KeyAccepted | packages/client/internal/sshauth/keys.go:60-94 | Every well-formed key that fits is accepted in canonical form, and its fields are read back |
| KeyCodec.SameKeySameBytes | packages/client/internal/sshauth/keys.go:86-93 | Two accepted offers give the same stored key exactly when they name the same type and decode to the same bytes |
| KeyCodec.Reparse | packages/client/internal/sshauth/keys.go:44-94 | A stored key is accepted again unchanged, as an offer and as a line |
| KeyCodec.ReparseLine | packages/client/internal/sshauth/keys.go:44-57 | The same for keys that arrived as a line |
| KeyCodec.CanonicalLine | packages/client/internal/sshauth/keys.go:49-51 | The canonical line stays within the size limit although it is one blank longer |
| KeyCodec.CommentIgnored | packages/client/internal/sshauth/keys.go:44-57 | A comment after the key changes nothing |
| SshStore.EntryKeyInjective | packages/client/internal/sshauth/store.go:190-192 | Different subjects have different entry keys, whatever the target user contains |
| SshStore.Store.Add | packages/client/internal/sshauth/store.go:49-77 | Refines adding to the log: the key is granted until its expiry, earlier entries of the subject are replaced |
| SshStore.Store.Authorize | packages/client/internal/sshauth/store.go:80-97 | Answers as the last addition that no later revocation covers and that has not expired, unless it expires between the reading of the clock and the answer; then yes exactly if its entry is still stored |
| SshStore.LateAnswer | packages/client/internal/sshauth/store.go:80-97 | An instance of such an answer: a key is authorized although its grant has expired |
| SshStore.Store.Expire | packages/client/internal/sshauth/store.go:178-188 | A late or stale callback never removes a live entry, even one added again with an equal expiry |
| SshStore.Store.RevokeSession | packages/client/internal/sshauth/store.go:110-117 | Removes and counts exactly the session's entries |
| SshStore.Store.RevokeCommand | packages/client/internal/sshauth/store.go:100-107 | Removes and counts exactly the command's entries |
| SshStore.Store.RevokeAll | packages/client/internal/sshauth/store.go:121-136 | Counts the entries still valid and removes all |
| SshStore.Store.DeleteMatchingLocked | packages/client/internal/sshauth/store.go:149-163 | Exactly the matching entries go, with their timers, in whatever order the map is visited |
| SshStore.Store.PurgeExpiredLocked | packages/client/internal/sshauth/store.go:165-176 | Exactly the entries expired by the given moment go |
| SshStore.AddRefines | packages/client/internal/sshauth/store.go:60-76 | Storing an entry refines adding it to the log |
| SshStore.DropRefines | packages/client/internal/sshauth/store.go:165-188 | Removing expired entries at any time changes no answer |
| SshStore.RevokeRefines | packages/client/internal/sshauth/store.go:100-163 | Deleting the matching entries refines the revocation |
| SshStore.Found | packages/client/internal/sshauth/store.go:92-96 | What the lookup tells about the log |
| SshStore.LogLaws | packages/client/internal/sshauth/store.go:49-136 | What the reference log grants after an addition and after each revocation |
| Mqtt.TopicMatch | packages/client/internal/script/builtins_mqtt.go:237-258 | Agrees with sections 4.7.1.2, 4.7.1.3 and 4.7.2 of MQTT 3.1.1 for every pattern and topic; malformed patterns and topics that are not concrete match nothing |
| Mqtt.TopicAllowed | packages/client/internal/script/builtins_mqtt.go:225-232 | Allowed exactly when some pattern matches |
| Mqtt.SplitJoin | packages/client/internal/script/builtins_mqtt.go:241-242 | Splitting into levels loses nothing |
| Mqtt.PlainFilter | packages/client/internal/script/builtins_mqtt.go:237-258 | A pattern without wildcards matches exactly its own topic |
| Mqtt.HashFilter | packages/client/internal/script/builtins_mqtt.go:237-258 | With "/#" it matches that topic and everything below it |
| Mqtt.LoneWildcards | packages/client/internal/script/builtins_mqtt.go:237-258 | "#" matches every topic and "+" every topic of one level, unless it begins with "$" |
| Versions.LatestScript | packages/client/internal/script/version.go:82-103 | The first script with the highest number of its name, or none |
| Versions.MaxVersion | packages/client/internal/script/version.go:106-121 | The number of that script |
| Versions.SelectLatestScripts | packages/client/internal/script/version.go:53-79 | Strictly sorted by name, one entry per name of the list, each the script that LatestScript selects |
| Versions.ChosenUnique | packages/client/internal/script/version.go:53-103 | The two selectors cannot disagree |
| Versions.EnsureNewerVersion | packages/client/internal/commands/handler.go:711-720 | Accepts exactly a valid version that exceeds every installed one of the name |
| Versions.InstalledIsChosen | packages/client/internal/commands/handler.go:305-346 | After an accepted install every listing selects the new script for its name |
| Versions.InstallKeepsOthers | packages/client/internal/script/version.go:33-38 | A script of another name is lost exactly when it holds the new script's file name |
| Versions.SharedFilename | packages/client/internal/script/version.go:33-38 | Two scripts that share a file name |
| Versions.FileNames | packages/client/internal/script/version.go:33-38 | A file is named after the script, and the version if there is one |
| Versions.OverwritesOther | packages/client/internal/commands/handler.go:305-346 | Two accepted installs after which no listing has the first script |
| Versions.VersionNumbers | packages/client/internal/script/version.go:13-30 | Digits with or without "v", "V" or a sign are their decimal number, if it fits 64 bits and is not negative; nothing is 0 |
| Versions.VersionChars | packages/client/internal/script/version.go:13-30 | No other character makes a version number |
| Versions.DecimalPlaces | packages/client/internal/script/version.go:13-30 | Every digit counts ten times the next |
| Versions.LessAt | packages/client/internal/script/version.go:70-78 | Names are ordered by the first character that differs |
| Text.TrimIs | packages/client/internal/commandpolicy/store.go:115-134 | Trimming removes the white space at both ends and nothing else |
| Text.SpaceChars | packages/client/internal/commandpolicy/store.go:115-134 | White space is what Unicode calls so |
| Text.Utf8Width | packages/client/internal/sshauth/keys.go:49-51 | Sizes count the bytes of UTF-8 |

## Left out

- Converter: Starlark execution, iterators' own mutation guards and the `Execute` wrapper around the conversion; the graph is given and does not change. Float contents are opaque bits.
- AtomicFile: permissions, JSON text and errors of decoding a stored file; a record is a value, and I/O errors on reading are not modelled. A directory and the parents that have to be made with it are one name.
- Enrollment: several devices sharing a server, devices an operator created in advance (pre-approved or without a token) or deletes (`packages/server/lib/nixstasis/devices.ex:1416`), a changed MAC when the configured interface changes, identities saved without a MAC (which `packages/client/cmd/nixstasis/poll.go:283-287` rewrites), and UUID normalisation; wall-clock backoff between retries. Only one `register` process runs at a time: nothing locks the files, and `nixstasis-registration.service` may start one while an operator runs another by hand; of two first runs the files may then hold one proof and the server the other.
- Enrollment.CanComplete: states that one undisturbed run can enroll the device; `Register.Device.RunRegister` states which ones do. That the network delivers and operators decide is not promised by anything.
- Register: that both paths name one file (`packages/client/cmd/nixstasis/register.go:138-140` and `152`), and an identity file that holds anything but credentials.
- RemoteAccess: the frpc process, its configuration file, proxy names and the reported error text; `Start` and `Stop` succeed or fail. A poller without tracked state (nil) is not modelled.
- RemoteAccess.TrackedStateFaithful: rests on signed tokens; without that only `TrackedStateTruthful` holds.
- Scheduler: what the operations do; a non-serial command only reads, and its timeout, cancellation and reading moment are fixed per command. Panics are not modelled.
- Scheduler.Handler.FlushBatch: the order in which goroutines are launched is free, which allows more schedules than the code has.
- CommandCycle: the detail text after `invalid_payload_ref` and `payload_fetch_failed`, and the delivery of the list once it is sent.
- CommandPolicy: saves of other files in the same directory, which can only settle the policy file; the text of the answers and of JSON; a policy file that exists but cannot be read; a nil handler.
- KeyCodec: text that is not valid UTF-8; SHA-256 itself, whose input stands for the fingerprint.
- SshStore: a nil store, `Len`, and the Unix socket that serves `Authorize`; a Go map's iteration order is any order.
- Mqtt: connecting, publishing and waiting for replies.
- Versions: front matter parsing, schema checks, the identifier pattern, and removal (`selectRemovalTarget`), which add only easy members; the library sort is modelled by insertion.
- Front matter splitting, proxy naming, device names, telemetry, inventory limits and backoff jitter would only add easy members.
- Transport (HTTP, TLS, proxies), systemd units, subprocess execution and the user interfaces are plumbing.
