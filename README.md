# Witness lifecycle and commit-hash rules, in Dafny

This project models two parts of the gastown `gt` tool.

**The witness lifecycle controller** (`internal/witness`). A witness is the
agent that watches the polecats (worker processes) of one rig. Its lifecycle
record is kept in the rig's state file `<rig root>/.gastown/witness.json`. The
record holds the rig name, a state (`stopped`, `running` or `paused`), the
process id, the start and last-check times, the list of monitored polecats and
five statistics counters. A `Manager` bound to a rig loads that record, changes
it and writes the whole record back:

- `Status` heals a `running` record whose process has died to `stopped` with
  pid 0 and saves it, ignoring a failed save. It always reports the rig's
  current roster as the monitored polecats.
- `Start` refuses with `ErrAlreadyRunning` when a live instance is recorded.
  Otherwise it records the caller as running and saves.
- `Stop` refuses with `ErrNotRunning` unless the record is `running`.
  Otherwise it interrupts the recorded process when that is another process,
  marks the record stopped and saves.
- `HealthCheck` is one tick of the monitoring loop. It counts the check,
  stamps the check time and saves.

The model keeps the source's form. The record is a datatype. Its persisted
form is a key/value document that follows the record's field tags
(`witness_types.dfy`). The manager is a class over an abstract file store
(`witness_manager.dfy`):

- `files` maps a path to an encoded record, to bytes that do not parse, or to
  a read error.
- `readOnly` holds the paths whose write fails.
- `live` is the set of existing process ids.
- The ghost `saveLog` lists every record a save was attempted for. This lets
  the contracts say that a save happened even when the write failed.

The caller's process id and the current time are parameters.

**The commit-hash rules of the staleness check** (`internal/version/stale.go`,
in `version_stale.dfy`). `ShortCommit` truncates a hash to 12 bytes.
`CommitsMatch` compares two hashes by prefix and needs at least 7 bytes in
each. `ResolveCommitHash` takes the injected commit if there is one, otherwise
the first non-empty `vcs.revision` build setting. `CheckStaleBinary` decides
staleness from the binary's commit and the repository HEAD. Hashes are byte
strings, because Go measures and slices strings by byte. The package-level
`Commit` variable is a field of a `BuildMetadata` object, and `SetCommit`
assigns it.

A note on the state type: in the source, `State` is a string type with three
declared constants. Decoding a file therefore accepts any string as a state.
The model keeps such a string as `Unrecognised(name)`, and `Canonical` is the
form that decoding produces. The operations treat an unrecognised state as
"not running", as the source does.

## Model

| member | source | states |
|---|---|---|
| `WitnessTypes.ParseState` | internal/witness/types.go:9-20 | a stored string is read back as a state whose name is that string, in canonical form (a declared name always becomes its declared state) |
| `WitnessTypes.DeclaredStates` | internal/witness/types.go:11-20 | the three declared states have pairwise distinct names, and each name reads back as its state |
| `WitnessTypes.StateRoundTrip` | internal/witness/types.go:9-20 | storing a canonical state and reading it back gives the same state |
| `WitnessTypes.EncodeStats` | internal/witness/types.go:47-62 | the statistics object always carries exactly the five counter keys, each holding its own counter under the tag of types.go |
| `WitnessTypes.Encode` | internal/witness/types.go:23-44 | `rig_name`, `state` and `stats` are always written, holding the rig name, the state's name and the counters; `pid`, `started_at`, `monitored_polecats` and `last_check_at` are present exactly when non-zero, set or non-empty, and then hold that field; no other key is written |
| `WitnessTypes.Decode` | internal/witness/types.go:23-62 | decoding succeeds exactly when every known key holds null or a value of its field's kind; each field, each counter included, holds the value under its own tag, or its zero value when that key is missing or null; the state is canonical |
| `WitnessTypes.RoundTrip` | internal/witness/types.go:23-62 | decoding the encoded form of a record gives back every field, nested counters included |
| `WitnessTypes.EmptyDocument` | internal/witness/types.go:23-62 | an empty document decodes to the zero record: empty rig name, empty state string, no pid, no times, no polecats, zero counters |
| `WitnessManager.StatePath` | internal/witness/manager.go:35-37 | the state file is the rig root followed by `/.gastown/witness.json` |
| `WitnessManager.StatePathInjective` | internal/witness/manager.go:35-37 | two clean rig roots (non-empty, no trailing or doubled separator, no `.` or `..` segment, so that joining is concatenation) with the same state file are the same root |
| `WitnessManager.Fresh` | internal/witness/manager.go:44-48 | the record for a missing file has the rig's name, state stopped, pid 0, no times, no polecats and zero counters |
| `WitnessManager.Load` | internal/witness/manager.go:40-58 | a missing file loads as the fresh record; an unreadable file gives a read error; bytes that do not decode, or a document with a key of the wrong kind, give a decode error; no other error occurs; a stored document loads exactly when it is well typed, and then as the record it decodes to; a loaded state is canonical |
| `WitnessManager.SaveThenLoad` | internal/witness/manager.go:40-73 | after a record is written to the state file, loading that file gives the same record back |
| `WitnessManager.Halted` | internal/witness/manager.go:83-88 | marking a record stopped sets state stopped and pid 0 and keeps every other field |
| `WitnessManager.Started` | internal/witness/manager.go:110-114 | a started record is running, with the caller's pid, start time `now` and the current roster; rig name, last-check time and counters are kept |
| `WitnessManager.Checked` | internal/witness/manager.go:175-180 | a health check sets the last-check time to `now`, raises total and today checks by exactly one, and leaves the other three counters and every other field unchanged |
| `WitnessManager.TransitionsKeepPidMeansRunning` | internal/witness/manager.go:83-88 | halting, starting and checking all keep "a positive pid is recorded only while running" |
| `WitnessManager.StartThenStop` | internal/witness/manager.go:110-152 | a start followed by a stop gives a stopped record with pid 0 that keeps its start time and counters |
| `WitnessManager.ManyChecks` | internal/witness/manager.go:163-170 | the record the loop holds after a run of ticks has the last tick's time as its last check time and keeps its name, state, pid, start time and polecat list |
| `WitnessManager.ChecksNeverDecrease` | internal/witness/manager.go:156-185 | after n ticks on the record the loop holds, total and today checks have grown by exactly n and the other counters are unchanged |
| `WitnessManager.Manager.constructor` | internal/witness/manager.go:27-33 | a new manager is bound to the rig, its work directory is the rig's path, and nothing has been saved or interrupted yet |
| `WitnessManager.Manager.LoadState` | internal/witness/manager.go:40-58 | the record read is what `Load` gives for the rig's state file |
| `WitnessManager.Manager.SaveState` | internal/witness/manager.go:61-73 | a save is always attempted; the file holds the encoded record afterwards unless the path is not writable, in which case nothing changes and an I/O error is returned |
| `WitnessManager.Manager.Status` | internal/witness/manager.go:76-95 | a load error is returned with nothing saved; a running record with a positive dead pid is returned and saved as stopped with pid 0, and a failed save is ignored; any other record keeps its state and pid and is not saved; the monitored polecats returned are always the rig's current roster |
| `WitnessManager.Manager.Start` | internal/witness/manager.go:100-128 | a load error is returned with nothing saved; a running record with a positive live pid gives `ErrAlreadyRunning` with nothing saved; otherwise the started record is saved and the save's outcome is returned |
| `WitnessManager.Manager.Stop` | internal/witness/manager.go:131-153 | a load error is returned with nothing saved; a record that is not running, paused included, gives `ErrNotRunning` with nothing saved or signalled; a running record is saved stopped with pid 0, after an interrupt to its pid when that pid is positive and not the caller's |
| `WitnessManager.Manager.HealthCheck` | internal/witness/manager.go:175-185 | the held record is updated as `Checked` says and saved; the updated record is kept even when the save fails, and the save's outcome is returned |
| `WitnessManager.StartTwice` | internal/witness/manager.go:100-108 | when a live caller's first start succeeds, the state file then holds it as running with its pid and start time, and a second start is refused with `ErrAlreadyRunning` |
| `WitnessManager.AsWrittenProbeSeesNoProcess` | internal/witness/manager.go:188-196 | with the probe as written, no process exists, so a running record with a positive pid is always dead and never alive |
| `WitnessManager.StartTwiceAsWritten` | internal/witness/manager.go:100-108 | with the probe as written, `Start` never returns `ErrAlreadyRunning`, and a second start after a successful one succeeds too |
| `VersionStale.ShortCommit` | internal/version/stale.go:46-51 | the result is the prefix of the hash of length min(len, 12), and the hash itself when it has at most 12 bytes |
| `VersionStale.ShortCommitIdempotent` | internal/version/stale.go:46-51 | shortening twice is shortening once |
| `VersionStale.CommitsMatch` | internal/version/stale.go:55-65 | two hashes never match when either has fewer than 7 bytes |
| `VersionStale.CommitsMatchIffCommonPrefix` | internal/version/stale.go:55-65 | for hashes of at least 7 bytes, they match exactly when their first min(len a, len b) bytes agree, that is, when the shorter is a prefix of the longer |
| `VersionStale.CommitsMatchSymmetric` | internal/version/stale.go:55-65 | matching does not depend on argument order |
| `VersionStale.CommitsMatchReflexive` | internal/version/stale.go:55-65 | every hash of at least 7 bytes matches itself |
| `VersionStale.TrimLeft` | internal/version/stale.go:89 | the result is a suffix of the input, everything removed is white space, and it does not start with white space |
| `VersionStale.TrimRight` | internal/version/stale.go:89 | the result is a prefix of the input, everything removed is white space, and it does not end with white space |
| `VersionStale.TrimSpace` | internal/version/stale.go:89 | the trimmed HEAD output is a contiguous part of the output with only white space around it, and it neither starts nor ends with white space |
| `VersionStale.TrimmedIsSurrounded` | internal/version/stale.go:89 | trimming the left and then the right leaves the input's middle at the offset of its leading white space |
| `VersionStale.ResolvedFromUnique` | internal/version/stale.go:29-43 | the resolution rule determines the hash: one commit and one settings list admit only one resolved hash |
| `VersionStale.BuildMetadata.constructor` | internal/version/stale.go:14-17 | the injected commit starts empty |
| `VersionStale.BuildMetadata.SetCommit` | internal/version/stale.go:162-164 | the injected commit becomes the given value |
| `VersionStale.BuildMetadata.ResolveCommitHash` | internal/version/stale.go:29-43 | a non-empty injected commit wins; otherwise the value of the first `vcs.revision` setting with a non-empty value; otherwise empty |
| `VersionStale.BuildMetadata.CheckStaleBinary` | internal/version/stale.go:71-107 | the binary commit is the resolved one; an empty one gives an error, not stale and no repo commit; a failed HEAD lookup gives an error and not stale; otherwise the repo commit is the trimmed HEAD output, stale holds exactly when the two commits do not match, and the commits-behind count is the parsed count only when stale |
| `VersionStale.ResolveAfterSetCommit` | internal/version/stale.go:161-164 | after a non-empty commit is set, resolution returns that commit whatever the build settings hold |

## Left out

- The monitoring loop `run` (internal/witness/manager.go:156-172) is not modelled. It is an endless 30-second ticker with console output. Only its single step, `HealthCheck`, is modelled; `ManyChecks` describes the record it holds across ticks.
- `Manager.Start`: the `foreground` flag and the hand-off to `run` are not modelled. The model returns after the save, as the background path does.
- `processExists` is meant as a signal-0 liveness probe, as its comment says. The model replaces it with the set `live` of existing process ids. As written, the probe never finds a process (see "## Findings"); that behaviour is the instance `live == {}`.
- `Manager.Stop`: the interrupt is only recorded in `interrupted`. Its delivery and its errors are not modelled; the source ignores them too.
- `os.Getpid` and `time.Now` are parameters. Times are opaque integers.
- JSON syntax, `encoding/json`, `os.MkdirAll`, `os.ReadFile` and `os.WriteFile` are replaced by the abstract store. A file that does not decode as a JSON object (invalid JSON, or valid JSON such as `[]` or `5` that is not an object) is `Unparseable`; a file holding `null` decodes without error and is the empty document (see `EmptyDocument`); a read error other than "does not exist" is `Unreadable`, and a failed directory creation or write is a path in `readOnly`.
- `Manager.SaveState`: a failed write leaves the file unchanged. A partial or truncating write is not modelled.
- `WitnessTypes.Decode`: Go matches JSON keys case-insensitively. The model matches them exactly. Timestamps are opaque values rather than RFC 3339 strings, and list items are always strings.
- `WitnessManager.StatePath`: `filepath.Join` also cleans the path, removing doubled or trailing separators and `.` or `..` steps. The model only concatenates, which agrees with `filepath.Join` for clean roots (`CleanRoot`) only. So `StatePathInjective` is stated for clean roots: in the source, "/r" and "/r/" share one state file.
- `WitnessManager.Checked`: the counters are unbounded integers. The source's 64-bit `int` wrap-around is not modelled.
- Concurrent invocations racing on the state file are not modelled. Each operation runs to completion on the store.
- `VersionStale.TrimSpace`: only ASCII white space is removed. Go's `strings.TrimSpace` also removes Unicode spaces such as U+0085 and U+00A0.
- `VersionStale.TrimLeft`: removes only leading ASCII white space, for the same reason.
- `VersionStale.TrimRight`: removes only trailing ASCII white space, for the same reason.
- `GetRepoRoot`, `isGitRepo`, `hasGastownMarker` and the `git` subprocesses in `CheckStaleBinary` are not modelled (subprocess and environment I/O). Their results enter as parameters: the HEAD output, and the commit count after the `Sscanf` parse.
- `debug.ReadBuildInfo` is a foreign call. Its settings list is a parameter, and a binary without build information is an empty list.
- internal/session/startup_test.go is not part of this model. It tests notification text formatting, whose implementation is not among the modelled files.

## Findings

| source | as written | input that shows it | evidently intended | confidence | as-written member | corrected member |
|---|---|---|---|---|---|---|
| internal/witness/manager.go:188-196 | `processExists` probes with `proc.Signal(nil)`. On Unix, Go's `Process.Signal` rejects a signal that is not a `syscall.Signal` with an "unsupported signal type" error, so the probe returns false for every pid. | A running record whose pid is the still-running process of a first `Start`: a second `Start` succeeds instead of returning `ErrAlreadyRunning`, and `Status` heals the record to stopped. | A signal-0 probe (`syscall.Signal(0)`) that is true exactly for existing processes, as the comment at line 193 says. | not executed; rests on the Go standard library's behaviour, which is not part of this model | `WitnessManager.StartTwiceAsWritten` | `WitnessManager.StartTwice` |
