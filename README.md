# Resource upload command and authorised-keys facade, modelled in Dafny

This project models two pieces of a cluster-management tool. Both are
pinned down by their test suites.

* **The `upload` command** (`upload service name=file [name2=file2 ...]`).
  `Init` checks the arguments. It either rejects them with an error kind
  (BadRequest, NotValid, AlreadyExists) or records the service and one
  resource file per `name=file` argument, in argument order. `Run` connects
  a client. For each file, in order, it opens the file, uploads it and closes
  it. It closes the client last. The dependencies are the recording stub
  the tests use, so what `Run` does shows up as the stub's call log.
* **The credentials facade's `AuthorisedKeys` and `WatchAuthorisedKeys`.**
  A machine tag such as `machine-42` is parsed to a machine id. A caller
  without the manage-state job is denied with "permission denied". A
  machine that does not exist gives "machine N not found", which names the
  id and not the tag. Otherwise the environment's `authorized-keys` setting
  is split on newlines, in order. The watcher is a single-slot notifier. It
  starts with one notification waiting. It raises a new one only when the
  reported value differs from the last value it saw. Once stopped, it hands
  out any waiting notification and then reports a closed stream. It can be
  stopped again without error.

Files:

* `results.dfy`: the `Option` and `Result` types.
* `upload_args.dfy`: module `UploadArgs`, the pure argument parsing of `Init`.
* `upload_command.dfy`: module `ResourceUpload`. It holds the `UploadCommand`
  class (`Init`, and `Run` with its loop), the recording stub
  `StubUploadDeps`, the specification `RunTrace` of the call log, and
  lemmas about that log.
* `credentials.dfy`: module `Credentials`. It holds tags, errors, the
  permission gate, the newline split and `AuthorisedKeys`.
* `keys_watcher.dfy`: module `KeysWatcher`. It holds the watcher state
  machine as pure functions, the `NotifyWatcher` class implementing it,
  `WatchAuthorisedKeys`, and lemmas about notification counts.

Decisions the tests do not fix, made here:

* A resource argument is split at its first `=`.
* `Authorise` reports faults in this order: a malformed tag, then a missing
  manage-state job, then a missing machine.
* The split keeps empty pieces and trims nothing, like Go's `strings.Split`.
  So n newlines give n + 1 pieces, and an empty setting gives one empty key.
* A stopped watcher still hands out a notification that was waiting when it
  was stopped. Only after that does it report a closed stream.
* `WatchAuthorisedKeys` is behind the same gate as `AuthorisedKeys`: a
  malformed tag, a missing manage-state job or a missing machine fails it.

## Model

| member | source | states |
|---|---|---|
| `UploadArgs.ParseResourceArg` | resource/cmd/upload_test.go:48-74 | a rejected argument is NotValid; an accepted one has a non-empty name without `=`, a non-empty file name, the given service, and is exactly `name=file` |
| `UploadArgs.ParseResourceArgRoundTrip` | resource/cmd/upload_test.go:76-87 | every `name=file` text with a non-empty, `=`-free name and a non-empty file name parses back to that name and file |
| `UploadArgs.ParseResources` | resource/cmd/upload_test.go:55-104 | on success, one file per argument, in order, each the parse of its argument, with pairwise distinct names; a failure is NotValid or AlreadyExists |
| `UploadArgs.ParseResourcesComplete` | resource/cmd/upload_test.go:89-104 | if every argument is well formed and no name repeats, parsing succeeds |
| `UploadArgs.ParseResourcesErrorCause` | resource/cmd/upload_test.go:48-74 | NotValid only happens when some argument is malformed; AlreadyExists only happens when two well-formed arguments share a name |
| `UploadArgs.ParseArgs` | resource/cmd/upload_test.go:35-104 | BadRequest exactly when there are fewer than two arguments; on success, the service is the first argument, and there is one file per later argument, in order, carrying that service, with distinct names |
| `UploadArgs.InitSucceeds` | resource/cmd/upload_test.go:76-104 | any service with at least one well-formed argument and no repeated name is accepted, yielding exactly those files in order |
| `UploadArgs.InitTooFewArgs` | resource/cmd/upload_test.go:35-46 | no argument, or only a service, is BadRequest |
| `UploadArgs.InitMalformedArg` | resource/cmd/upload_test.go:48-74 | an argument without `=`, with an empty name or with an empty path makes Init fail; it is NotValid when no name repeats |
| `UploadArgs.InitDuplicateName` | resource/cmd/upload_test.go:55-60 | two arguments with the same name make Init fail whatever their file names; it is AlreadyExists when every argument is well formed |
| `UploadArgs.InitEmptyAndOneArgExamples` | resource/cmd/upload_test.go:35-46 | `[]` and `["foo"]` are BadRequest |
| `UploadArgs.InitJustNameExample` | resource/cmd/upload_test.go:48-53 | `["foo", "bar"]` is NotValid |
| `UploadArgs.InitDuplicateExample` | resource/cmd/upload_test.go:55-60 | `["foo", "foo=bar", "foo=baz"]` is AlreadyExists |
| `UploadArgs.InitNoNameNoPathExamples` | resource/cmd/upload_test.go:62-74 | `=foobar` and `foobar=` are NotValid |
| `UploadArgs.InitGoodExample` | resource/cmd/upload_test.go:76-87 | `["foo", "bar=baz"]` gives service foo and the single file foo/bar/baz |
| `UploadArgs.InitTwoResourcesExample` | resource/cmd/upload_test.go:89-104 | `["foo", "bar=baz", "fizz=buzz"]` gives foo/bar/baz then foo/fizz/buzz |
| `ResourceUpload.StubUploadDeps.constructor` | resource/cmd/upload_test.go:25-33 | a fresh stub has an empty call log and hands out the given stream |
| `ResourceUpload.StubUploadDeps.NewClient` | resource/cmd/upload_test.go:166-173 | records NewClient |
| `ResourceUpload.StubUploadDeps.OpenResource` | resource/cmd/upload_test.go:175-182 | records OpenResource of the path and returns the stub's stream |
| `ResourceUpload.StubUploadDeps.Upload` | resource/cmd/upload_test.go:155-157 | records Upload with service, name and stream |
| `ResourceUpload.StubUploadDeps.FileClose` | resource/cmd/upload_test.go:144-153 | records FileClose |
| `ResourceUpload.StubUploadDeps.Close` | resource/cmd/upload_test.go:144-153 | records Close |
| `ResourceUpload.UploadCommand.constructor` | resource/cmd/upload_test.go:35-38 | a zero command has no service and no files |
| `ResourceUpload.UploadCommand.WithFiles` | resource/cmd/upload_test.go:124-139 | a command built with the given service and files |
| `ResourceUpload.UploadCommand.Init` | resource/cmd/upload_test.go:76-104 | succeeds exactly when the arguments parse; it then records the first argument as service and the parsed files; a failure returns the parser's error kind |
| `ResourceUpload.UploadCommand.Run` | resource/cmd/upload_test.go:121-158 | returns no error and appends exactly `RunTrace` of the command's files to the stub's log: NewClient, then OpenResource, Upload and FileClose per file, then Close |
| `ResourceUpload.AllUploadsAt` | resource/cmd/upload_test.go:144-157 | uploading n files takes 3n calls; the i-th file's OpenResource, Upload and FileClose sit at 3i, 3i+1 and 3i+2 |
| `ResourceUpload.RunTraceShape` | resource/cmd/upload_test.go:144-157 | a Run log has 2 + 3n calls: NewClient first, Close last, and the i-th file's OpenResource(filename), Upload(service, name, stream) and FileClose at 1+3i, 2+3i and 3+3i |
| `ResourceUpload.RunTraceConnectsOnce` | resource/cmd/upload_test.go:144-153 | NewClient occurs only at the first position and Close only at the last |
| `ResourceUpload.UploadStepsBalanced` | resource/cmd/upload_test.go:146-151 | one file's calls open its stream, upload while it is open, and close it |
| `ResourceUpload.AllUploadsBalanced` | resource/cmd/upload_test.go:144-153 | across the uploads at most one stream is open at a time, every Upload happens while a stream is open, and none is left open |
| `ResourceUpload.RunTraceBalanced` | resource/cmd/upload_test.go:144-153 | the same holds over the whole Run log: each opened file is closed before the next is opened and before the client is closed |
| `ResourceUpload.RunExample` | resource/cmd/upload_test.go:121-158 | the test's two files give no error and the eight-call log with OpenResource "bar", Upload svc/foo, OpenResource "bat", Upload svc/baz |
| `ResourceUpload.InitExample` | resource/cmd/upload_test.go:89-104 | Init on the command object records service foo and both files |
| `Credentials.ParseMachineTag` | state/api/credentials/authorisedkeys_test.go:53-56 | an accepted tag is `machine-` followed by a decimal id without leading zeros, and that id is the result; anything else is a malformed tag |
| `Credentials.ParseMachineTagRoundTrip` | state/api/credentials/authorisedkeys_test.go:53-56 | parsing the tag of a machine id gives that id back |
| `Credentials.SplitLines` | state/api/credentials/authorisedkeys_test.go:68-73 | the split has at least one piece and no piece contains a newline |
| `Credentials.JoinSplitLines` | state/api/credentials/authorisedkeys_test.go:68-73 | joining the pieces with newlines gives the original setting back, so nothing is lost or reordered |
| `Credentials.SplitJoinLines` | state/api/credentials/authorisedkeys_test.go:68-73 | newline-free keys joined by newlines split back into the same keys, in order |
| `Credentials.SplitLinesCount` | state/api/credentials/authorisedkeys_test.go:68-73 | the number of keys is the number of newlines plus one |
| `Credentials.Authorise` | state/api/credentials/authorisedkeys_test.go:53-66 | passes exactly for a well-formed tag, a caller with the manage-state job and an existing machine; permission denied exactly for a well-formed tag and a caller without the job; a tag that does not parse is MalformedTag of that tag, whatever the caller and the store; a parsed tag, with the job present, whose machine is absent gives not found naming that id, and not found happens only then |
| `Credentials.AuthorisedKeys` | state/api/credentials/authorisedkeys_test.go:53-73 | succeeds exactly when the gate passes, with its error otherwise; on success there is at least one key, the keys are newline-free and they join back to the stored setting, which by `SplitJoinLines` fixes them |
| `Credentials.NoSuchMachine` | state/api/credentials/authorisedkeys_test.go:53-56 | with the manage-state job, an absent machine N gives "machine N not found", the text `ErrorMessage` gives that error |
| `Credentials.WithoutManageStateDenied` | state/api/credentials/authorisedkeys_test.go:58-66 | without the manage-state job the answer is "permission denied", the text `ErrorMessage` gives that error, whether or not the machine exists |
| `Credentials.AuthorisedKeysLines` | state/api/credentials/authorisedkeys_test.go:68-73 | with the job and an existing machine, a setting made of keys joined by newlines gives those keys back in order |
| `Credentials.NoSuchMachineExample` | state/api/credentials/authorisedkeys_test.go:53-56 | the state server asking for machine-42 gets "machine 42 not found" |
| `Credentials.NonStateServerExample` | state/api/credentials/authorisedkeys_test.go:58-66 | a unit-hosting caller asking for an existing machine gets "permission denied" |
| `Credentials.AuthorisedKeysExample` | state/api/credentials/authorisedkeys_test.go:68-73 | the setting "key1\nkey2" is returned as ["key1", "key2"] |
| `KeysWatcher.ObservedAllCoalesces` | state/api/credentials/authorisedkeys_test.go:88-96 | after a burst of reports the watcher holds the last reported value, and a notification waits exactly when one was waiting or some reported value differed from the one seen before |
| `KeysWatcher.ObservedAllAfterStop` | state/api/credentials/authorisedkeys_test.go:97-98 | reports after Stop change nothing |
| `KeysWatcher.BurstYieldsAtMostOneChange` | state/api/credentials/authorisedkeys_test.go:88-96 | after a burst the reader sees one change exactly when one was already waiting or some reported value differed from the last one seen, otherwise nothing, and never a second change before the next report |
| `KeysWatcher.StartedDeliversOneChange` | state/api/credentials/authorisedkeys_test.go:80-86 | a new watcher yields one change before any report, then nothing |
| `KeysWatcher.StopDrainsThenCloses` | state/api/credentials/authorisedkeys_test.go:83-98 | a second Stop changes nothing; a stopped watcher hands out a waiting change, then reports the stream closed |
| `KeysWatcher.PromptReadsSeeEveryChange` | state/api/credentials/authorisedkeys_test.go:88-96 | a reader that reads after every report gets exactly one change per change of value: repeats give none and no distinct value is skipped |
| `KeysWatcher.NotifyWatcher.constructor` | state/api/credentials/authorisedkeys_test.go:80-86 | a new watcher knows the current value and holds the initial notification |
| `KeysWatcher.NotifyWatcher.Observe` | state/api/credentials/authorisedkeys_test.go:75-78 | the new state is `Observed` of the old: a different value fills the slot, the same value or a stopped watcher changes nothing |
| `KeysWatcher.NotifyWatcher.Next` | state/api/credentials/authorisedkeys_test.go:84-96 | the event and new state are `Read` of the old state |
| `KeysWatcher.NotifyWatcher.Stop` | state/api/credentials/authorisedkeys_test.go:97-98 | never returns an error and marks the watcher stopped |
| `KeysWatcher.WatchAuthorisedKeys` | state/api/credentials/authorisedkeys_test.go:80-82 | behind the same gate as AuthorisedKeys; on success a fresh watcher started on the stored setting |
| `KeysWatcher.WatchAuthorisedKeysExample` | state/api/credentials/authorisedkeys_test.go:80-99 | the test's run gives Change, NoChange, Change, NoChange, NoChange, Change, NoChange, Closed, and both Stops return no error |

## Left out

- `UploadCommand.Run`'s failure paths are not modelled. The stub can queue errors for `NewClient` and `OpenResource`, but no test in `upload_test.go` does. They do not fix what `Run` does with such an error, so here every dependency succeeds and `Run` returns no error.
- The `NewClient` log entry does not record its argument (the command itself).
- The stub client and stub file are not part of this model. Their `Upload`, `Close` and file `Close` calls record into the same log as the dependency stub, so they are methods of `StubUploadDeps` here.
- `UploadCommand.Init` on a rejected argument list: the model leaves the command's fields unchanged and promises nothing about them. The tests do not inspect them.
- An empty service name is accepted. No test rejects it.
- Which error wins when one argument list has several faults: `ParseArgs` checks left to right. No contract or lemma depends on that order.
- `UploadCommand.Info` is constant help text with nothing to prove.
- Authentication is left out: passwords, provisioning nonces and random passwords. The caller's jobs are a given `Caller` value.
- `testing.UpdateConfig` against the backing state is a call to `NotifyWatcher.Observe`. The store given to `AuthorisedKeys` is a plain value.
- Delivery of watcher events over the RPC connection and its timing are left out. "One change" is modelled as a read that sees a change followed by a read that sees none.
- Only machine tags are parsed. Unit and user tags are not. Container machine ids (`0/lxc/1`) are not accepted. A machine id is `0` or a decimal number without leading zeros, as juju numbers its machines.
- The text of the malformed-tag message is not pinned by any test. The one in `ErrorMessage` is a placeholder.
- The accounts file (`jujuclient/accountsfile_test.go`) is not part of this model. It is file I/O around a YAML library, and this model does not cover either.
- The API server's network lifecycle and shutdown race (`state/apiserver/server_test.go`) are not part of this model.
- Concurrency is left out. Every call here is one atomic step.
