# memc_load core in Dafny

A model of the per-line and per-file logic of memc_load, a loader that reads
gzip-compressed tab-separated files of app-installation records and writes
each record to the memcache shard for its device type.

Two source files are modelled:

- `internal/pkg/parser/user_apps/user_apps.go`, the record parser: module
  `UserApps` (with `Strs` for `strings.Split` and `Strconv` for the decimal
  `uint32` rule of `strconv.ParseUint`). `Parse` is an imperative method that
  fills the record field by field with early returns and appends app ids in a
  loop. It is proved equal to the value-level definition `ParseLine`, and the
  lemmas state the line's properties about `ParseLine`.
- `internal/pkg/parser/parser.go`, the loader: module `Loader`. The
  `Parser` class keeps the source's fields (`clients`, `numJobs`, `dry`).
  `Insert` builds the key `devType:devId`, returns at once in dry mode,
  returns a marshalling error without touching the store, and otherwise runs
  the bounded retry loop (`SetRetrying`) of at most `MemcacheMaxRetries` (5)
  `Set` calls. `ProcessFile` is the counting loop. Which lines it counts is
  decided by the clients' scripts, and its contract follows them from line to
  line (`Scripts`, `LineError`, `Step`, `Replay`). `Classify` is the
  error-rate verdict with the source's NaN behaviour for an empty file.
  `DotName` is the marker rename, `Worker` one job of a worker goroutine, and
  `Run` the job fan-out, run one job after another.

The memcache client is the class `Memcache.Client`. It is a scripted stub:
each `Set` takes the next outcome from a script, fails once the script is
used up, and records every call. Three things outside the code are
parameters. `strconv.ParseFloat` is a function `string -> Option<real>`.
`proto.Marshal` is a function that may fail. The file contents are a
function from path to lines.

Behaviour of the code that the model keeps, where a reader might expect otherwise:

- A file with no lines is rejected, not accepted. `errors / processed` is the
  float 0/0, which is NaN, and `NaN < 0.01` is false (`parser.go:131-135`).
  `Loader.ClassifyExamples` states this.
- A line with more than five fields is accepted, and the extra fields are
  ignored (`UserApps.ExtraFieldsIgnored`).
- Device type and device id are not validated. Both may be empty.
- Keys are unique only for device types without a colon
  (`Loader.KeyInjective`, `Loader.KeyCollision`).

## Model

| member | source | states |
|---|---|---|
| `Strs.Split` | internal/pkg/parser/user_apps/user_apps.go:28 | `strings.Split` on one character: at least one piece, and no piece contains the separator |
| `Strs.SplitCount` | internal/pkg/parser/user_apps/user_apps.go:28-29 | the number of pieces is one more than the number of separators, so a line with fewer than four tabs has fewer than five fields |
| `Strs.JoinSplit` | internal/pkg/parser/user_apps/user_apps.go:28 | joining the pieces with the separator gives the line back: splitting loses nothing |
| `Strs.SplitJoin` | internal/pkg/parser/user_apps/user_apps.go:28 | splitting a join of separator-free pieces gives exactly those pieces |
| `Strs.SplitAppend` | internal/pkg/parser/user_apps/user_apps.go:28 | splitting at one separator splits the two sides independently |
| `Strconv.ParseUint32` | internal/pkg/parser/user_apps/user_apps.go:50 | a token parses iff it is non-empty, all ASCII digits, and its value is at most 4294967295; the result is that value |
| `Strconv.Accumulate` | internal/pkg/parser/user_apps/user_apps.go:50 | the left-to-right digit loop with an early range error computes the same verdict and value |
| `Strconv.ParseFormat` | internal/pkg/parser/user_apps/user_apps.go:50 | every uint32 written in decimal parses back to itself |
| `Strconv.LeadingZero` | internal/pkg/parser/user_apps/user_apps.go:50 | a leading zero does not change a token's value |
| `Strconv.RejectedSyntax` | internal/pkg/parser/user_apps/user_apps.go:50-53 | the empty token, signed tokens, tokens with a space or an underscore are dropped |
| `Strconv.RangeBoundary` | internal/pkg/parser/user_apps/user_apps.go:50-53 | 4294967295 is kept and 4294967296 is dropped |
| `UserApps.KeepApp` | internal/pkg/parser/user_apps/user_apps.go:49-55 | a token contributes at most one id; it contributes one iff it is a non-empty string of ASCII digits whose value is at most 4294967295, and that id is the token's value |
| `UserApps.AppsOf` | internal/pkg/parser/user_apps/user_apps.go:48-55 | the fifth field gives at most one id per comma-separated token, that is at most one more than its number of commas |
| `UserApps.ParseLine` | internal/pkg/parser/user_apps/user_apps.go:26-59 | the value-level parser: a parsed line had at least five tab-separated fields, and its device type and id contain no tab |
| `UserApps.Parse` | internal/pkg/parser/user_apps/user_apps.go:26-59 | the method's error and record equal `ParseLine`'s verdict. On an early return the record holds exactly the fields filled so far, as in the source |
| `UserApps.KeptApps` | internal/pkg/parser/user_apps/user_apps.go:48-56 | the filtered list of app ids is never longer than the list of tokens |
| `UserApps.KeptAppsSnoc` | internal/pkg/parser/user_apps/user_apps.go:49-55 | one more token appends exactly what that token contributes |
| `UserApps.KeptAppsAppend` | internal/pkg/parser/user_apps/user_apps.go:49-55 | filtering distributes over concatenation: kept ids stay in token order |
| `UserApps.KeptAppsMembers` | internal/pkg/parser/user_apps/user_apps.go:49-55 | an id is in `Apps` iff some token parses to it |
| `UserApps.KeptAppsAll` | internal/pkg/parser/user_apps/user_apps.go:49-55 | no token is dropped iff every token is a decimal uint32 |
| `UserApps.ShortLineRejected` | internal/pkg/parser/user_apps/user_apps.go:28-31 | the result is `ErrInvalidLine` iff the line has fewer than five tab-separated fields |
| `UserApps.EmptyLineRejected` | internal/pkg/parser/user_apps/user_apps.go:28-31 | the empty line is one field and is rejected |
| `UserApps.LatCheckedFirst` | internal/pkg/parser/user_apps/user_apps.go:36-40 | a bad latitude gives `ErrInvalidLat` whatever the longitude |
| `UserApps.LonRejected` | internal/pkg/parser/user_apps/user_apps.go:42-45 | a good latitude with a bad longitude gives `ErrInvalidLon` |
| `UserApps.ParsedIff` | internal/pkg/parser/user_apps/user_apps.go:33-58 | a line parses iff it has at least five fields and both coordinates parse, so app tokens never cause an error. Type and id are copied verbatim, and there are at most as many ids as tokens |
| `UserApps.ExtraFieldsIgnored` | internal/pkg/parser/user_apps/user_apps.go:28-48 | appending a tab and further fields to a line with at least five fields does not change the result |
| `UserApps.EmptyAppsField` | internal/pkg/parser/user_apps/user_apps.go:48-55 | an empty fifth field gives no app ids |
| `UserApps.FiveFields` | internal/pkg/parser/user_apps/user_apps.go:28 | five tab-free fields joined by tabs split back into those five fields |
| `UserApps.ThreeTokens` | internal/pkg/parser/user_apps/user_apps.go:48 | three comma-free tokens joined by commas split back into those tokens |
| `UserApps.ThreeAppLine` | internal/pkg/parser/user_apps/user_apps.go:26-59 | a well-formed line with three app tokens gives the five fields, with each token contributing on its own |
| `UserApps.ExampleLine` | internal/pkg/parser/user_apps/user_apps.go:26-59 | `idfa A42 55.55 37.37 42,43,44` gives ids [42, 43, 44] |
| `UserApps.ExampleBadApp` | internal/pkg/parser/user_apps/user_apps.go:49-55 | in `42,abc,44` the bad id is dropped, the line still parses, and the ids are [42, 44] |
| `UserApps.ExampleBadLat` | internal/pkg/parser/user_apps/user_apps.go:36-40 | a line whose latitude is `bad` gives `ErrInvalidLat` |
| `Loader.Key` | internal/pkg/parser/parser.go:63 | the key is one longer than type and id together, with the colon right after the type |
| `Loader.KeyParts` | internal/pkg/parser/parser.go:63 | the type is the part before that colon and the id the part after it |
| `Loader.FirstColon` | internal/pkg/parser/parser.go:63 | in the key of a colon-free device type, the first colon is right after the type |
| `Loader.KeyInjective` | internal/pkg/parser/parser.go:63 | for colon-free device types, equal keys mean equal type and id |
| `Loader.KeyCollision` | internal/pkg/parser/parser.go:63 | without that restriction two records share a key |
| `Loader.Retry` | internal/pkg/parser/parser.go:83-94 | at most `budget` calls. When stored, the last call was the first success. When not stored, the whole budget was spent and every scripted call failed |
| `Loader.SetRetrying` | internal/pkg/parser/parser.go:82-94 | the retry loop makes exactly `Retry(script, 5).attempts` calls of `Set(item)`, consumes that many outcomes, stores the item iff a call succeeded, and reports whether one did |
| `Loader.RetryFirstSuccess` | internal/pkg/parser/parser.go:83-91 | if the k-th call (k at most the budget) is the first success, exactly k calls are made and the item is stored |
| `Loader.RetryExhausted` | internal/pkg/parser/parser.go:83-94 | if every call fails, all 5 are made and nothing is stored |
| `Loader.ErrRate` | internal/pkg/parser/parser.go:131 | the rate is undefined (NaN) exactly for an empty file; otherwise it times the line count gives the error count |
| `Loader.Accepted` | internal/pkg/parser/parser.go:131-132 | an accepted file has at least one line and fewer errors than lines |
| `Loader.AcceptedIff` | internal/pkg/parser/parser.go:131-136 | a file is accepted iff `processed > 0` and `errors * 100 < processed`. The empty file's NaN rate is rejected |
| `Loader.Classify` | internal/pkg/parser/parser.go:131-136 | the integer decision agrees with the rate comparison |
| `Loader.ClassifyExamples` | internal/pkg/parser/parser.go:131-136 | 0 of 100 is accepted; 1 of 100, 2 of 100 and the empty file are rejected |
| `Loader.Count` | internal/pkg/parser/parser.go:121-128 | the error counter never exceeds the number of lines |
| `Loader.SplitPath` | internal/pkg/parser/parser.go:164 | `filepath.Split`: the two parts concatenate to the path, the file part has no `/`, and the directory part is empty or ends in `/` |
| `Loader.SplitPathUnique` | internal/pkg/parser/parser.go:164 | any split with those three properties is the one `SplitPath` returns |
| `Loader.DotName` | internal/pkg/parser/parser.go:163-166 | the new name has the same directory, and its base name is the old one with one leading dot |
| `Loader.DotNameInjective` | internal/pkg/parser/parser.go:163-166 | distinct files get distinct marker names |
| `Loader.Below` | internal/pkg/parser/parser.go:150-156 | the job indices 0 to numJobs - 1 |
| `Loader.IndicesSize` | internal/pkg/parser/parser.go:156-158 | proof helper for `EveryJobCompletes`: a completion order with no repeats has as many distinct indices as reports |
| `Loader.SubsetSize` | internal/pkg/parser/parser.go:156-158 | proof helper for `EveryJobCompletes`: a subset is no larger than its superset |
| `Loader.EveryJobCompletes` | internal/pkg/parser/parser.go:156-159 | in any completion order, every job index below numJobs is reported, so every file is renamed |
| `Memcache.Client.Set` | internal/pkg/parser/parser.go:84 | the stub takes the next scripted outcome and records the call. On success the key holds the value |
| `Loader.Parser.New` | internal/pkg/parser/parser.go:37-43 | the loader keeps the clients, the job count and the dry flag |
| `Loader.Parser.Inserted` | internal/pkg/parser/parser.go:55-95 | the two-state meaning of insert: dry mode returns nil and touches nothing; a marshalling error is returned as is; an unknown device type is `ErrUnknownDevice`; otherwise the routed client gets `Retry(script, 5).attempts` calls of `Set(Key, bytes)`, its script, calls and items move accordingly, no other client changes, and the result is nil iff a call succeeded |
| `Loader.Parser.LineError` | internal/pkg/parser/parser.go:118-128 | the reference definition of which lines processFile counts, given the clients' scripts: a line that does not parse; outside dry mode also one whose payload does not marshal, whose device type has no client, or whose five `Set` calls all fail |
| `Loader.Parser.Insert` | internal/pkg/parser/parser.go:55-95 | dry mode returns nil and touches no client. A marshalling error is returned as is with no `Set`. An unknown device type is `ErrUnknownDevice` with no `Set`. Otherwise the client of the device type gets `Retry(script, 5).attempts` calls of `Set(Key, bytes)`. The result is nil iff a call succeeded, else `ErrMemcacheConnect`. Other clients are unchanged |
| `Loader.Parser.Scripts` | internal/pkg/parser/parser.go:51 | the scripts of the clients, one per client object, so two device types sharing a client share a script |
| `Loader.Parser.Route` | internal/pkg/parser/parser.go:64-82 | a line reaches a retry loop only on a client of the loader: when it parses, the run is not dry, the payload marshals and the device type has a client |
| `Loader.Parser.Step` | internal/pkg/parser/parser.go:115-128 | processing one line moves only the routed client's script, by the outcomes its retry loop consumed, and keeps the set of clients |
| `Loader.Parser.Replay` | internal/pkg/parser/parser.go:118-129 | the scripts after a sequence of lines, one `Step` per line in order |
| `Loader.Parser.CountedAsSnoc` | internal/pkg/parser/parser.go:118-129 | proof helper for `ProcessFile`: one more line marked as `LineError` decides it on the scripts left by the lines before it |
| `Loader.Parser.DryReplay` | internal/pkg/parser/parser.go:64-68 | in dry mode no line reaches a client, so a file leaves every script as it was |
| `Loader.Parser.DryErrors` | internal/pkg/parser/parser.go:64-68 | in dry mode a line is an error iff it does not parse |
| `Loader.Parser.DryCounted` | internal/pkg/parser/parser.go:118-129 | so in a dry run a file's error marks are exactly its unparseable lines |
| `Loader.Parser.InsertErrors` | internal/pkg/parser/parser.go:70-94 | outside dry mode a parsed line whose payload does not marshal or whose device type has no client is an error; a line that reaches a retry loop is an error iff that loop stores nothing |
| `Loader.Parser.ProcessLine` | internal/pkg/parser/parser.go:115-128 | a line counts as an error iff it does not parse or its insert returns an error. A line that does not parse makes no insert and touches no client. A parsed line is inserted exactly as `Insert` states (the two-state predicate `Inserted`). So the line counts iff `LineError` holds of the scripts before it, and the scripts after it are `Step` of those before |
| `Loader.Parser.ProcessFile` | internal/pkg/parser/parser.go:110-136 | `processed` is the number of lines. `errors` counts the lines marked failed, one mark per line, so `errors <= processed`. Line i is marked iff `LineError` holds of it on the scripts that lines 0 to i-1 leave (`Replay`), and the file leaves the scripts that `Replay` of all its lines gives. In dry mode no client changes. The verdict is `Accepted` |
| `Loader.Parser.ReplayFiles` | internal/pkg/parser/parser.go:139-159 | the scripts after whole files are processed one after another, each as `Replay` of its lines |
| `Loader.Parser.ReplayFilesSnoc` | internal/pkg/parser/parser.go:139-159 | proof helper for `Run`: one more file replays its lines on the scripts left by the files before it |
| `Loader.Parser.DryReplayFiles` | internal/pkg/parser/parser.go:64-68 | in dry mode a whole run leaves every script as it was |
| `Loader.Parser.QueueJobs` | internal/pkg/parser/parser.go:150-153 | the jobs sent are `Job{files[i], i}` for every i below numJobs, in index order |
| `Loader.Parser.Worker` | internal/pkg/parser/parser.go:139-144 | a worker's job processes its file, counting every line of it and moving the scripts as `Replay` of its lines, then reports that same file |
| `Loader.Parser.Run` | internal/pkg/parser/parser.go:146-161 | requires `numJobs <= len(files)`. Job i is `Job{files[i], i}`. Exactly numJobs renames are made, the k-th on the file whose job completed k-th, to its dot name. The files are processed in that same completion order (`processed`), every line of each is counted, and the clients' scripts after the run are `ReplayFiles` of those files from the scripts before it |

## Left out

- `cmd/memc_load/main.go`: flag parsing, logging set-up, client construction and globbing. It is configuration and I/O.
- Opening, gunzipping and scanning a file. `ProcessFile` takes the lines as a sequence. `log.Fatal` on an open or gzip failure is not modelled.
- Goroutines and channels. `Run` is sequential: the workers' completion order is a parameter (any permutation of the job indices), and each file is processed when its job completes. Interleaving of Set calls from concurrent workers on a shared client is not modelled.
- Floating point. `strconv.ParseFloat` is an opaque parameter returning a real. The error rate is compared as an exact rational, which agrees with the float64 comparison except possibly at rates within rounding distance of 0.01. `strconv.ParseFloat` also accepts "NaN", "Inf" and "-0", which a real cannot represent or distinguish from 0; these values only reach the opaque `proto.Marshal`, so no verdict in the model depends on them. The float64 counters are unbounded naturals, so counts above 2^53 lose no precision in the model.
- `proto.Marshal` is an opaque parameter that may fail. The dry-run `protojson.Format` rendering and all logging are left out. The codec's encode/decode round trip belongs to the protobuf library, not to this core.
- `time.Sleep(MemcacheTimeout)` between attempts. `os.Rename` is recorded as a (from, to) pair. Its failure, which the source only logs, is not modelled.
- Loader.Parser.Insert: an unknown device type is an explicit `ErrUnknownDevice` with no `Set` call. The source logs the error and then calls `Set` on a nil client, which panics.
- Loader.DotName: `filepath.Join` is modelled as concatenation. `filepath.Clean`'s rewriting of `.`, `..`, repeated slashes and a trailing slash is not modelled, so the model matches the source only for clean paths whose base name is non-empty.
- Loader.Parser.ProcessFile: across a file the contract follows the clients' scripts, which decide every error mark. The `Set` calls each client received and the items it stores are stated per call by `Insert`, not chained across the lines of a file.
- Loader.Parser.Worker: the contract follows the clients' scripts through the job's file. The `Set` calls each client received and the items it stores are stated per call by `Insert`, not chained across the lines of the file.
- Loader.Parser.Run: the contract states the jobs, the renames, the order and line counts of the processed files, and the clients' scripts after the run. Error counts and verdicts per file are stated by `ProcessFile`, and the clients' `Set` calls and stored items by `Insert`; neither is carried through the jobs of `Run`.
- Loader.Parser.Run: `numJobs` is a natural number. A negative numJobs panics at `parser.go:147`, since `make` refuses a negative channel size. `main` passes `len(files)` (`main.go:79`), which is never negative.
