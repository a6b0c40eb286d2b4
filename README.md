# go-postgres-testdb in Dafny

A model of the `testdb` package of go-postgres-testdb, which brings up a
throw-away PostgreSQL server for a test suite, with proofs about it. The
package's helpers:

- check that the five PostgreSQL executables are on the search path
  (`PostgresInstalled`);
- look for a live process named `postgres` (`PostgresRunning`);
- run `initdb` on a data directory (`InitDbDir`);
- launch `postgres -D <dir>` (`StartPostgres`);
- run `createdb` (`CreateTestDb`);
- parse the `psql -ltq` listing to see whether a database exists (`DbExists`,
  `StringInSlice`);
- kill the server again (`StopPostgres`).

`StartTestDB` calls `PostgresRunning`, `InitDbDir`, `StartPostgres`,
`PostgresRunning` again, `CreateTestDb` and `DbExists`, and returns at the
first failure. Two consequences of the code are proved:

- `PostgresRunning` reports the liveness of the last process named `postgres`;
  an earlier live one is overwritten (`LiveServerOverwritten`).
- A failure after the launch leaves the server running; nothing is rolled
  back (`StartTestDBOrder`).

The project has two modules:

- `GoStrings` (`strings.dfy`) models the Go `strings` functions the package
  relies on: `Split` and `Join` with a one-character separator, and
  `TrimSpace` with Go's `unicode.IsSpace` set of white-space code points.
  Round trips and the characterisation of `TrimSpace` are proved there.
- `TestDb` (`testdb.dfy`) models `testdb/testdb.go`.
  - The four loops of the package are methods with loop invariants. Each is
    proved against a specification function: `Missing`, `Running`, `Names`
    and sequence membership.
  - The straight-line helpers are functions over oracle records. A `Host`
    says what `exec.LookPath`, the two process listings, signal 0 and each
    child process report. A `StopHost` says what `os.FindProcess`, `Kill` and
    `Wait` report.
  - `StartTestDB` and `StopPostgres` also return the trace of the external
    steps they attempted. `RunPlan` is an independent reference definition
    of "run these steps in order, stop at the first failure". Both helpers
    are proved to be runs of their plans.

## Model

| member | source | states |
|---|---|---|
| GoStrings.Split | testdb/testdb.go:169 | `strings.Split` with a one-character separator always yields at least one piece; JoinSplit, SplitJoin and SplitPiecesLackSeparator characterise the pieces |
| GoStrings.JoinSplit | testdb/testdb.go:169 | joining the pieces of `strings.Split` with the separator gives back the input |
| GoStrings.SplitJoin | testdb/testdb.go:172 | splitting a join of separator-free pieces gives back exactly those pieces |
| GoStrings.SplitPiecesLackSeparator | testdb/testdb.go:172 | no piece produced by a split contains the separator |
| GoStrings.SplitWithoutSeparator | testdb/testdb.go:172 | a string without the separator splits into itself alone |
| GoStrings.SplitAfterPiece | testdb/testdb.go:172 | a separator-free piece, the separator, then a rest, splits into that piece followed by the split of the rest |
| GoStrings.TrimSpace | testdb/testdb.go:174 | `strings.TrimSpace`, left trim then right trim; defined without a contract, and characterised by TrimSpaceIsTrimmed, TrimSpaceOfPadded and TrimSpaceIsInfix |
| GoStrings.TrimLeftIsSuffix | testdb/testdb.go:174 | trimming on the left removes a prefix made only of white space and leaves a suffix that does not start with white space |
| GoStrings.TrimRightIsPrefix | testdb/testdb.go:174 | trimming on the right removes a suffix made only of white space and leaves a prefix that does not end with white space |
| GoStrings.TrimSpaceIsTrimmed | testdb/testdb.go:174 | `TrimSpace` is no longer than its input; a non-empty result has no white space at either end; the result is empty exactly when the input is all white space |
| GoStrings.TrimSpaceOfPadded | testdb/testdb.go:174 | white space, then a core with no white space at its ends, then white space: `TrimSpace` returns exactly that core |
| GoStrings.TrimSpaceIsInfix | testdb/testdb.go:174 | the result of `TrimSpace` is a contiguous piece of the input, and only white space is cut off on either side |
| GoStrings.TrimSpaceIdempotent | testdb/testdb.go:174 | trimming twice is the same as trimming once |
| GoStrings.TrimLeftSpaces | testdb/testdb.go:174 | white space in front of a string that does not start with white space is exactly what left-trimming removes |
| GoStrings.TrimRightSpaces | testdb/testdb.go:174 | white space behind a string that does not end with white space is exactly what right-trimming removes |
| GoStrings.AllSpaceSplit | testdb/testdb.go:174 | a string is all white space exactly when both of its parts, cut at any point, are |
| TestDb.Missing | testdb/testdb.go:17-32 | the missing names are at most as many as the names looked up, and a name is missing exactly when it is looked up and not found on the path |
| TestDb.NotFoundPositions | testdb/testdb.go:27-32 | the positions of failed lookups are in bounds and strictly increasing, and a position is listed exactly when its lookup fails |
| TestDb.MissingIsSubsequence | testdb/testdb.go:17-32 | `missing` is the subsequence of the executable list at the failed positions, in their original order |
| TestDb.PostgresInstalled | testdb/testdb.go:16-40 | the loop over postgres, initdb, createdb, dropdb and psql returns exactly `Missing` of that list, with at most 5 entries; `ok` holds exactly when nothing is missing, which is exactly when all five are on the path |
| TestDb.Running | testdb/testdb.go:50-57 | the verdict of the loop over the process table, defined by recursion from the end; NoServerNotRunning, LastServerDecides and RunningHasLiveServer state what it is |
| TestDb.Probe | testdb/testdb.go:45-59 | the listing error, or the Running verdict over the listed processes; PostgresRunning is proved against it |
| TestDb.PostgresRunning | testdb/testdb.go:44-60 | a failed process listing gives false and that error; otherwise the loop's verdict is `Running` over the processes and there is no error |
| TestDb.NoServerNotRunning | testdb/testdb.go:50-59 | without a process named `postgres` the verdict is false |
| TestDb.LastServerDecides | testdb/testdb.go:50-57 | otherwise the verdict is the liveness of the last process named `postgres`, because each match overwrites `running` |
| TestDb.RunningHasLiveServer | testdb/testdb.go:50-57 | a true verdict always comes from some live process named `postgres` |
| TestDb.LiveServerOverwritten | testdb/testdb.go:50-57 | a live `postgres` followed by a dead one gives false: an earlier match does not make the verdict true |
| TestDb.StringInSlice | testdb/testdb.go:250-257 | the early-return loop returns true exactly when some element equals the string; the comparison is exact |
| TestDb.StringInSliceCases | testdb/testdb_test.go:42-48 | "bar" is found in ["foo","bar","baz"] and not in ["wip","zoz","woo"] |
| TestDb.FieldName | testdb/testdb.go:172-174 | the trimmed first pipe-separated field of one line; BlankLineNamesNothing and ListingOfOneDatabase state its value on blank and on listing lines |
| TestDb.Names | testdb/testdb.go:171-179 | the non-empty field names of the lines in order; NamesAreTrimmed, NamesMembership and NamesAppend state what it contains |
| TestDb.DbNames | testdb/testdb.go:169-179 | the names of the lines of the whole listing; ListingOfOneDatabase and FargleListing give its value on listings |
| TestDb.NamesAreTrimmed | testdb/testdb.go:167-179 | at most one name per line, and no collected name is empty or has white space at either end |
| TestDb.NamesComplete | testdb/testdb.go:171-179 | the trimmed first field of every line is collected whenever it is non-empty |
| TestDb.NamesSound | testdb/testdb.go:171-179 | every collected name is the trimmed first field of some line |
| TestDb.NamesMembership | testdb/testdb.go:167-179 | a name is collected exactly when it is non-empty and is the trimmed first field of some line |
| TestDb.NamesAppend | testdb/testdb.go:171-179 | the names of two runs of lines are the names of the first run, followed by those of the second, in line order |
| TestDb.BlankLineNamesNothing | testdb/testdb.go:172-178 | a blank or white-space-only line names no database |
| TestDb.NamesOfRowThenBlanks | testdb/testdb.go:169-178 | a line with a non-empty name followed by blank lines names exactly that name |
| TestDb.ListingOfOneDatabase | testdb/testdb.go:169-178 | a listing line made of a name, a space, a pipe and other fields, followed by an empty line, names exactly that database, for any trimmed name without a pipe or a newline |
| TestDb.FargleListing | testdb/testdb.go:169-178 | the listing of `fargle` with its owner and encoding fields, pipe-separated, followed by a blank line, names exactly ["fargle"] |
| TestDb.Catalog | testdb/testdb.go:154-179 | a missing psql, the listing's error, or the names of the listing; DbExists is proved against it |
| TestDb.DbExists | testdb/testdb.go:153-184 | a missing psql, or a failed listing, gives false with that error; otherwise there is no error and the result is true exactly when the name is among the names the listing yields |
| TestDb.InitDbDir | testdb/testdb.go:65-80 | a missing initdb is reported as not found; otherwise the result is what running initdb on the directory reports |
| TestDb.StartPostgres | testdb/testdb.go:84-100 | the launch succeeds exactly when postgres is on the path and starts; on success the pid is the child's, on failure the pid is 0; a missing postgres is reported as not found, and a failed launch with the launch's own error |
| TestDb.CreateTestDb | testdb/testdb.go:131-149 | a missing createdb is reported as not found; otherwise the result is what running createdb on the name reports |
| TestDb.RunPlan | testdb/testdb.go:189-246 | the reference for early-return chains: the trace is a prefix of the plan's steps, every attempted step but the last passed, success means every step ran and passed, and a failure is the error of the last step attempted |
| TestDb.RunPlanTraceIsPrefix | testdb/testdb.go:189-246 | a run's trace is a prefix of the plan's steps |
| TestDb.RunPlanFirstFailure | testdb/testdb.go:189-246 | when step k is the first to fail, the run attempts steps 0 to k and fails with step k's error |
| TestDb.RunPlanAllPass | testdb/testdb.go:189-246 | when every step passes, the run attempts every step and succeeds |
| TestDb.SixStepRun | testdb/testdb.go:189-246 | a six-step run, written out case by case: the first failing step ends it with its error |
| TestDb.StopPostgres | testdb/testdb.go:104-127 | the call begins with a process lookup and attempts one to four steps; it succeeds exactly when both lookups and the kill succeed; a failure is one of their errors; Wait is attempted exactly on success |
| TestDb.StopPostgresRunsPlan | testdb/testdb.go:104-127 | StopPostgres finds, kills, finds again and waits; the first of those calls to fail ends it with that error, and Wait reports nothing |
| TestDb.StopIgnoresWait | testdb/testdb.go:116-126 | what Wait reports never changes the outcome; success means both lookups and the kill succeeded; Wait is called exactly on success |
| TestDb.StartTestDB | testdb/testdb.go:189-246 | once the launch step has been reached and passed, the launched server's pid is returned, whatever fails later; before that the pid is 0 |
| TestDb.StartTestDBRunsPlan | testdb/testdb.go:189-246 | StartTestDB's error and trace are those of running check, init, start, recheck, create and verify in order, stopping at the first failure |
| TestDb.ProvisionStepsOfPlan | testdb/testdb.go:190-229 | whatever the host reports, the plan's steps are check, init, start, recheck, create and verify |
| TestDb.ProvisionRunOrder | testdb/testdb.go:197-240 | a run of those six steps attempts a non-empty prefix of them and never a stop step |
| TestDb.StartTestDBOrder | testdb/testdb.go:197-240 | the attempted steps are a prefix of check, init, start, recheck, create and verify; none stops a process, so nothing is rolled back; every attempted step but the last passed; a failure is the last attempted step's error |
| TestDb.AlreadyRunningLaunchesNothing | testdb/testdb.go:190-245 | a server already running ends the call with "Postgres is already running.", pid 0 and only the check attempted: no init, no launch; the error's text is proved to be that message |
| TestDb.RecheckFailure | testdb/testdb.go:211-221 | a launched server that the recheck does not see ends the call with "Postgres failed to start." and the launched pid, after exactly four steps; the error's text is proved to be that message |
| TestDb.VerifyFailure | testdb/testdb.go:229-238 | a database missing from the listing after createdb succeeded ends the call with "Testdb failed to create." and the launched pid, after all six steps; the error's text is proved to be that message |
| TestDb.StartTestDBSuccess | testdb/testdb.go:189-240 | success holds exactly when nothing was running, init passed, the launch passed, the recheck saw a server, createdb passed and the listing shows the name; then all six steps ran, the launched pid is returned, and the name is non-empty with no white space at either end |

## Left out

- Operating-system effects are oracles (the `Host` and `StopHost` fields), not modelled: `exec.LookPath`; `exec.Command` with `Run`, `Start` and `Output`; `ps.Processes`; `syscall.Kill` with signal 0; `os.FindProcess`, `Kill` and `Wait`. They are I/O.
- Each of the two `PostgresRunning` calls in `StartTestDB` gets its own process view. The model does not relate the second view to the server just launched: that relation is a property of the operating system.
- `time.Sleep(5 * time.Second)` at testdb/testdb.go:209 has no logical effect and is left out.
- The `fmt.Printf` diagnostics at testdb/testdb.go:112, 134 and 143 are logging only and are left out.
- `StopPostgres` ignores what `Wait` reports (testdb/testdb.go:124). Its plan records the `Wait` step as reporting nothing, and `StopIgnoresWait` states this.
- Go strings are byte strings. The model works on code points (`seq<char>`), so invalid UTF-8 input to `strings.TrimSpace` is not modelled. Splitting on `\n` and `|` gives the same pieces on valid UTF-8.
- testdb/testdb.go handles no ports. The port-taking calls in testdb/testdb_test.go (lines 78 and 194) do not match its signatures, so the model follows testdb.go: no port parameters, and `StartTestDB` returns a pid and an error. Only the `StringInSlice` test is modelled.
- The error values keep their kind and, for `OsError`, the text of the underlying cause. Go's concrete error types, such as `*exec.Error` and `*exec.ExitError`, are not modelled.
- Line 211 uses `:=`, which shadows `err` inside the block. Every return there names its values explicitly, so the shadowing has no effect and is not modelled.
