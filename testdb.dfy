/**
 The helpers of the `testdb` package, which bring up a throw-away PostgreSQL
 server for a test suite: they check that the PostgreSQL executables are on
 the search path, look for a running `postgres` process, run `initdb`,
 launch `postgres`, run `createdb`, ask `psql` which databases exist, and
 stop the server again.

 Every call into the operating system is an oracle: the `Host` record says
 what `exec.LookPath`, the process listing, signal 0, and each child
 process report, and `StopHost` what `os.FindProcess`, `Kill` and `Wait`
 report. The loops of the package are methods proved against specification
 functions; the straight-line helpers are functions over the oracles.
 */
module TestDb {
  import opened GoStrings

  datatype Option<T> = None | Some(value: T)

  /** The Go `error` values the helpers return. */
  datatype Error =
    | NotFound(executable: string)  // exec.LookPath found no executable of that name
    | OsError(cause: string)        // an error of the operating system or a child process, passed on unchanged
    | AlreadyRunning
    | FailedToStart
    | FailedToCreate

  /** The text of an error, as Go's `Error()` prints it. */
  function Message(e: Error): string {
    match e
    case NotFound(x) => "exec: \"" + x + "\": executable file not found in $PATH"
    case OsError(cause) => cause
    case AlreadyRunning => "Postgres is already running."
    case FailedToStart => "Postgres failed to start."
    case FailedToCreate => "Testdb failed to create."
  }

  datatype Result<T> = Ok(value: T) | Err(error: Error)

  /** One entry of the process table: the executable's name and the process id. */
  datatype Process = Process(executable: string, pid: int)

  /** What one call of PostgresRunning sees: the process table (or the error listing it gave)
      and, per pid, whether sending signal 0 to it succeeds. */
  datatype ProcessView = ProcessView(processes: Result<seq<Process>>, alive: int -> bool)

  /** The operating system as StartTestDB and its helpers see it. */
  datatype Host = Host(
    onPath: string -> bool,                 // exec.LookPath(name) finds the executable
    before: ProcessView,                    // the first PostgresRunning, before anything is started
    runInitdb: string -> Option<Error>,     // `initdb <dir>` run to completion
    startPostgres: string -> Result<int>,   // `postgres -D <dir>` launched, giving its pid
    after: ProcessView,                     // the second PostgresRunning, after the launch
    runCreatedb: string -> Option<Error>,   // `createdb <name>` run to completion
    psqlList: string -> Result<string>      // the output of `psql -ltq <name>`
  )

  // ---------------------------------------------------------------------------
  // PostgresInstalled

  /** The executables PostgresInstalled looks for, in the order it looks. */
  const Executables: seq<string> := ["postgres", "initdb", "createdb", "dropdb", "psql"]

  /** The names that `onPath` does not find, in their original order. */
  function Missing(names: seq<string>, onPath: string -> bool): (missing: seq<string>)
    ensures |missing| <= |names|
    ensures forall x :: x in missing <==> x in names && !onPath(x)
  {
    if names == [] then []
    else
      var last := names[|names| - 1];
      Missing(names[..|names| - 1], onPath) + (if onPath(last) then [] else [last])
  }

  /** The positions of the names that `onPath` does not find: increasing, and exactly those positions. */
  function NotFoundPositions(names: seq<string>, onPath: string -> bool): (idx: seq<nat>)
    ensures forall k :: 0 <= k < |idx| ==> idx[k] < |names|
    ensures forall k, l :: 0 <= k < l < |idx| ==> idx[k] < idx[l]
    ensures forall i :: 0 <= i < |names| ==> (i in idx <==> !onPath(names[i]))
  {
    if names == [] then []
    else
      var n := |names| - 1;
      NotFoundPositions(names[..n], onPath) + (if onPath(names[n]) then [] else [n])
  }

  /** Missing is the subsequence of the names at those positions. */
  lemma {:induction false} MissingIsSubsequence(names: seq<string>, onPath: string -> bool)
    ensures |Missing(names, onPath)| == |NotFoundPositions(names, onPath)|
    ensures forall k :: 0 <= k < |Missing(names, onPath)| ==>
              Missing(names, onPath)[k] == names[NotFoundPositions(names, onPath)[k]]
  {
    if names != [] {
      var n := |names| - 1;
      var prefix := names[..n];
      MissingIsSubsequence(prefix, onPath);
      var m, idx := Missing(names, onPath), NotFoundPositions(names, onPath);
      var m', idx' := Missing(prefix, onPath), NotFoundPositions(prefix, onPath);
      assert |m| == |idx|;
      forall k | 0 <= k < |m| ensures m[k] == names[idx[k]] {
        if k < |m'| {
          assert m[k] == m'[k] && idx[k] == idx'[k];
          assert prefix[idx'[k]] == names[idx'[k]];
        }
      }
    }
  }

  /** Every executable is looked up; `ok` says that none is missing. */
  method PostgresInstalled(onPath: string -> bool) returns (missing: seq<string>, ok: bool)
    ensures missing == Missing(Executables, onPath)
    ensures |missing| <= 5
    ensures ok <==> missing == []
    ensures ok <==> forall x :: x in Executables ==> onPath(x)
  {
    missing := [];
    for i := 0 to |Executables|
      invariant missing == Missing(Executables[..i], onPath)
    {
      var x := Executables[i];
      assert Executables[..i + 1][..i] == Executables[..i];
      if !onPath(x) {
        missing := missing + [x];
      }
    }
    assert Executables[..|Executables|] == Executables;
    if |missing| > 0 {
      assert missing[0] in missing;
      return missing, false;
    }
    return missing, true;
  }

  // ---------------------------------------------------------------------------
  // PostgresRunning

  /** The executable name PostgresRunning looks for. */
  const Server := "postgres"

  /** The verdict of PostgresRunning over a process table. Each process named `postgres`
      overwrites the verdict with its own liveness, so the last such process decides. */
  function Running(ps: seq<Process>, alive: int -> bool): bool {
    if ps == [] then false
    else if ps[|ps| - 1].executable == Server then alive(ps[|ps| - 1].pid)
    else Running(ps[..|ps| - 1], alive)
  }

  /** PostgresRunning as a value: the verdict, or the error that listing the processes gave. */
  function Probe(view: ProcessView): Result<bool> {
    match view.processes
    case Err(e) => Err(e)
    case Ok(ps) => Ok(Running(ps, view.alive))
  }

  method PostgresRunning(view: ProcessView) returns (running: bool, err: Option<Error>)
    ensures match Probe(view)
              case Err(e) => !running && err == Some(e)
              case Ok(b) => running == b && err == None
  {
    running := false;
    if view.processes.Err? {
      return running, Some(view.processes.error);
    }
    var processes := view.processes.value;
    for i := 0 to |processes|
      invariant running == Running(processes[..i], view.alive)
    {
      var p := processes[i];
      assert processes[..i + 1][..i] == processes[..i];
      if p.executable == Server {
        running := view.alive(p.pid);
      }
    }
    assert processes[..|processes|] == processes;
    return running, None;
  }

  /** Without a process named `postgres` the verdict is false. */
  lemma {:induction false} NoServerNotRunning(ps: seq<Process>, alive: int -> bool)
    requires forall i :: 0 <= i < |ps| ==> ps[i].executable != Server
    ensures !Running(ps, alive)
  {
    if ps != [] {
      NoServerNotRunning(ps[..|ps| - 1], alive);
    }
  }

  /** Otherwise the verdict is the liveness of the last process named `postgres`. */
  lemma {:induction false} LastServerDecides(ps: seq<Process>, alive: int -> bool, k: nat)
    requires k < |ps| && ps[k].executable == Server
    requires forall j :: k < j < |ps| ==> ps[j].executable != Server
    ensures Running(ps, alive) == alive(ps[k].pid)
  {
    if k < |ps| - 1 {
      LastServerDecides(ps[..|ps| - 1], alive, k);
    }
  }

  /** A true verdict is backed by some live process named `postgres`. */
  lemma {:induction false} RunningHasLiveServer(ps: seq<Process>, alive: int -> bool)
    requires Running(ps, alive)
    ensures exists k :: 0 <= k < |ps| && ps[k].executable == Server && alive(ps[k].pid)
  {
    var n := |ps| - 1;
    if ps[n].executable != Server {
      RunningHasLiveServer(ps[..n], alive);
      var k :| 0 <= k < n && ps[..n][k].executable == Server && alive(ps[..n][k].pid);
      assert ps[k] == ps[..n][k];
    }
  }

  /** A live `postgres` process does not make the verdict true when a later one is dead. */
  lemma LiveServerOverwritten()
    ensures !Running([Process(Server, 1), Process(Server, 2)], pid => pid == 1)
  {
    var ps := [Process(Server, 1), Process(Server, 2)];
    LastServerDecides(ps, pid => pid == 1, 1);
  }

  // ---------------------------------------------------------------------------
  // StringInSlice and DbExists

  /** Exact membership, with an early return at the first equal element. */
  method StringInSlice(a: string, list: seq<string>) returns (found: bool)
    ensures found <==> a in list
  {
    for i := 0 to |list|
      invariant a !in list[..i]
    {
      if list[i] == a {
        return true;
      }
      assert list[..i + 1] == list[..i] + [list[i]];
    }
    assert list[..|list|] == list;
    return false;
  }

  /** The two cases of the package's own test of StringInSlice. */
  method StringInSliceCases() returns (inTrueList: bool, inFalseList: bool)
    ensures inTrueList && !inFalseList
  {
    inTrueList := StringInSlice("bar", ["foo", "bar", "baz"]);
    inFalseList := StringInSlice("bar", ["wip", "zoz", "woo"]);
    assert "bar" != "wip" && "bar" != "zoz" && "bar" != "woo";
  }

  /** The database name on one line of `psql -ltq` output: its first `|`-separated field, trimmed. */
  function FieldName(line: string): string {
    TrimSpace(Split(line, '|')[0])
  }

  /** The names DbExists collects from the lines, in order, skipping the lines whose name is empty. */
  function Names(lines: seq<string>): seq<string> {
    if lines == [] then []
    else
      var name := FieldName(lines[|lines| - 1]);
      Names(lines[..|lines| - 1]) + (if name != "" then [name] else [])
  }

  /** At most one name per line, and no collected name is empty or starts or ends with white space. */
  lemma {:induction false} NamesAreTrimmed(lines: seq<string>)
    ensures |Names(lines)| <= |lines|
    ensures forall k :: 0 <= k < |Names(lines)| ==>
              var name := Names(lines)[k];
              name != "" && !IsSpace(name[0]) && !IsSpace(name[|name| - 1])
  {
    if lines != [] {
      NamesAreTrimmed(lines[..|lines| - 1]);
      TrimSpaceIsTrimmed(Split(lines[|lines| - 1], '|')[0]);
    }
  }

  /** The names listed in the whole output of `psql -ltq`. */
  function DbNames(output: string): seq<string> {
    Names(Split(output, '\n'))
  }

  /** The name on every line whose name is non-empty is collected. */
  lemma {:induction false} NamesComplete(lines: seq<string>, i: nat)
    requires i < |lines| && FieldName(lines[i]) != ""
    ensures FieldName(lines[i]) in Names(lines)
  {
    var n := |lines| - 1;
    if i < n {
      var prefix := lines[..n];
      assert prefix[i] == lines[i];
      NamesComplete(prefix, i);
    }
  }

  /** Every collected name is the name on some line. */
  lemma {:induction false} NamesSound(lines: seq<string>, name: string)
    requires name in Names(lines)
    ensures exists i :: 0 <= i < |lines| && FieldName(lines[i]) == name
  {
    var n := |lines| - 1;
    var prefix := lines[..n];
    if name != FieldName(lines[n]) {
      NamesSound(prefix, name);
      var i :| 0 <= i < n && FieldName(prefix[i]) == name;
      assert prefix[i] == lines[i];
    }
  }

  /** A name is collected exactly when it is non-empty and is the name on some line. */
  lemma NamesMembership(lines: seq<string>, name: string)
    ensures name in Names(lines) <==>
              name != "" && exists i :: 0 <= i < |lines| && FieldName(lines[i]) == name
  {
    if name in Names(lines) {
      NamesSound(lines, name);
    }
    if name != "" && exists i :: 0 <= i < |lines| && FieldName(lines[i]) == name {
      var i :| 0 <= i < |lines| && FieldName(lines[i]) == name;
      NamesComplete(lines, i);
    }
  }

  /** The names of consecutive runs of lines come out in the order of the lines. */
  lemma {:induction false} NamesAppend(a: seq<string>, b: seq<string>)
    ensures Names(a + b) == Names(a) + Names(b)
    decreases |b|
  {
    if b != [] {
      var n := |b| - 1;
      assert (a + b)[..|a + b| - 1] == a + b[..n];
      assert (a + b)[|a + b| - 1] == b[n];
      NamesAppend(a, b[..n]);
    } else {
      assert a + b == a;
    }
  }

  /** A blank or white-space-only line names no database. */
  lemma BlankLineNamesNothing(line: string)
    requires AllSpace(line)
    ensures FieldName(line) == ""
    ensures Names([line]) == []
  {
    assert forall i :: 0 <= i < |line| ==> line[i] != '|' by {
      assert !IsSpace('|');
    }
    SplitWithoutSeparator(line, '|');
    TrimSpaceIsTrimmed(line);
    assert [line][..0] == [];
  }

  /** A line with a non-empty name, followed by blank lines, names just that name. */
  lemma {:induction false} NamesOfRowThenBlanks(row: string, blanks: seq<string>)
    requires FieldName(row) != ""
    requires forall i :: 0 <= i < |blanks| ==> AllSpace(blanks[i])
    ensures Names([row] + blanks) == [FieldName(row)]
    decreases |blanks|
  {
    var lines := [row] + blanks;
    if blanks == [] {
      assert lines == [row] && lines[..0] == [];
    } else {
      var n := |blanks| - 1;
      assert FieldName(blanks[n]) == "" by {
        BlankLineNamesNothing(blanks[n]);
      }
      assert lines[..|lines| - 1] == [row] + blanks[..n];
      assert lines[|lines| - 1] == blanks[n];
      assert forall i :: 0 <= i < n ==> blanks[..n][i] == blanks[i];
      NamesOfRowThenBlanks(row, blanks[..n]);
      assert Names(lines) == Names([row] + blanks[..n]);
    }
  }

  /** A listing of one database, `<name> |<other fields>`, followed by an empty line,
      names just that database. */
  lemma ListingOfOneDatabase(name: string, fields: string)
    requires name != "" && !IsSpace(name[0]) && !IsSpace(name[|name| - 1])
    requires '|' !in name && '\n' !in name && '\n' !in fields
    ensures DbNames(name + " |" + fields + "\n\n") == [name]
  {
    var row := name + " |" + fields;
    assert name + " |" + fields + "\n\n" == Join([row, "", ""], '\n') by {
      assert Join(["", ""], '\n') == "\n";
    }
    assert '\n' !in row by {
      assert forall i :: 0 <= i < |row| ==> row[i] == (if i < |name| + 2 then (name + " |")[i] else fields[i - |name| - 2]);
    }
    SplitJoin([row, "", ""], '\n');
    var first := name + " ";
    assert row == first + ['|'] + fields;
    assert '|' !in first;
    SplitAfterPiece(first, '|', fields);
    assert FieldName(row) == name by {
      TrimSpaceOfPadded("", name, " ");
      assert "" + name + " " == first;
    }
    var blanks := ["", ""];
    assert forall i :: 0 <= i < |blanks| ==> AllSpace(blanks[i]);
    NamesOfRowThenBlanks(row, blanks);
    assert [row] + blanks == [row, "", ""];
  }

  /** psql's listing of the database `fargle` and a trailing blank line names just `fargle`. */
  lemma FargleListing()
    ensures DbNames("fargle | owner | UTF8 |\n\n") == ["fargle"]
  {
    ListingOfOneDatabase("fargle", " owner | UTF8 |");
    assert "fargle" + " |" + " owner | UTF8 |" + "\n\n" == "fargle | owner | UTF8 |\n\n";
  }

  /** What DbExists works from: the names `psql -ltq` lists, or the error that stops it. */
  function Catalog(dbName: string, h: Host): Result<seq<string>> {
    if !h.onPath("psql") then Err(NotFound("psql"))
    else
      match h.psqlList(dbName)
      case Err(e) => Err(e)
      case Ok(output) => Ok(DbNames(output))
  }

  method DbExists(dbName: string, h: Host) returns (present: bool, err: Option<Error>)
    ensures match Catalog(dbName, h)
              case Err(e) => !present && err == Some(e)
              case Ok(names) => err == None && (present <==> dbName in names)
  {
    if !h.onPath("psql") {
      return false, Some(NotFound("psql"));
    }
    var output := h.psqlList(dbName);
    if output.Err? {
      return false, Some(output.error);
    }
    var dbNames := [];
    var lines := Split(output.value, '\n');
    for i := 0 to |lines|
      invariant dbNames == Names(lines[..i])
    {
      var parts := Split(lines[i], '|');
      var name := TrimSpace(parts[0]);
      assert lines[..i + 1][..i] == lines[..i];
      if name != "" {
        dbNames := dbNames + [name];
      }
    }
    assert lines[..|lines|] == lines;
    present := StringInSlice(dbName, dbNames);
    return present, None;
  }

  // ---------------------------------------------------------------------------
  // InitDbDir, StartPostgres, CreateTestDb

  /** `initdb <dir>`: fails when initdb is not on the path or exits with an error. */
  function InitDbDir(dir: string, h: Host): (err: Option<Error>)
    ensures !h.onPath("initdb") ==> err == Some(NotFound("initdb"))
    ensures h.onPath("initdb") ==> err == h.runInitdb(dir)
  {
    if !h.onPath("initdb") then Some(NotFound("initdb")) else h.runInitdb(dir)
  }

  /** `postgres -D <dir>` launched without waiting: the child's pid, or 0 with the error. */
  function StartPostgres(dir: string, h: Host): (r: (int, Option<Error>))
    ensures r.1 != None ==> r.0 == 0
    ensures r.1 == None <==> h.onPath("postgres") && h.startPostgres(dir).Ok?
    ensures r.1 == None ==> r.0 == h.startPostgres(dir).value
    ensures !h.onPath("postgres") ==> r.1 == Some(NotFound("postgres"))
    ensures h.onPath("postgres") && h.startPostgres(dir).Err? ==> r.1 == Some(h.startPostgres(dir).error)
  {
    if !h.onPath("postgres") then (0, Some(NotFound("postgres")))
    else
      match h.startPostgres(dir)
      case Err(e) => (0, Some(e))
      case Ok(pid) => (pid, None)
  }

  /** `createdb <name>`: fails when createdb is not on the path or exits with an error. */
  function CreateTestDb(dbName: string, h: Host): (err: Option<Error>)
    ensures !h.onPath("createdb") ==> err == Some(NotFound("createdb"))
    ensures h.onPath("createdb") ==> err == h.runCreatedb(dbName)
  {
    if !h.onPath("createdb") then Some(NotFound("createdb")) else h.runCreatedb(dbName)
  }

  // ---------------------------------------------------------------------------
  // Steps, and running a list of steps until the first failure

  /** An external step a helper attempts. */
  datatype Step =
    | CheckRunning             // PostgresRunning, before anything is started
    | InitDb(dir: string)      // InitDbDir
    | StartServer(dir: string) // StartPostgres
    | Recheck                  // PostgresRunning, after the launch
    | CreateDb(name: string)   // CreateTestDb
    | VerifyDb(name: string)   // DbExists
    | FindProcess(pid: int)    // os.FindProcess
    | Kill(pid: int)           // Process.Kill
    | Wait(pid: int)           // Process.Wait

  /** How a helper ended: its error (None for success) and the steps it attempted. */
  datatype Report = Report(err: Option<Error>, trace: seq<Step>)

  /** Attempts the steps of `plan` in order, each paired with what it reports, and stops at the
      first that reports an error: the trace is the prefix attempted, every step of it but the last
      succeeded, and the call fails exactly with the error of the step that ended it. */
  function RunPlan(plan: seq<(Step, Option<Error>)>): (r: Report)
    ensures |r.trace| <= |plan|
    ensures forall i :: 0 <= i < |r.trace| ==> r.trace[i] == plan[i].0
    ensures forall i :: 0 <= i < |r.trace| - 1 ==> plan[i].1 == None
    ensures r.err == None ==> |r.trace| == |plan| && forall i :: 0 <= i < |plan| ==> plan[i].1 == None
    ensures r.err != None ==> |r.trace| >= 1 && plan[|r.trace| - 1].1 == r.err
  {
    if plan == [] then Report(None, [])
    else if plan[0].1 != None then Report(plan[0].1, [plan[0].0])
    else
      var rest := RunPlan(plan[1..]);
      Report(rest.err, [plan[0].0] + rest.trace)
  }

  /** The steps of a plan, without what they report. */
  function Steps(plan: seq<(Step, Option<Error>)>): (steps: seq<Step>)
    ensures |steps| == |plan|
  {
    seq(|plan|, i requires 0 <= i < |plan| => plan[i].0)
  }

  /** The trace of a run is a prefix of the plan's steps. */
  lemma RunPlanTraceIsPrefix(plan: seq<(Step, Option<Error>)>)
    ensures RunPlan(plan).trace == Steps(plan)[..|RunPlan(plan).trace|]
  {
  }

  /** When step `k` is the first to fail, the run attempts the steps up to `k` and fails with its error. */
  lemma {:induction false} RunPlanFirstFailure(plan: seq<(Step, Option<Error>)>, k: nat)
    requires k < |plan| && plan[k].1 != None
    requires forall j :: 0 <= j < k ==> plan[j].1 == None
    ensures RunPlan(plan) == Report(plan[k].1, Steps(plan)[..k + 1])
  {
    if k > 0 {
      RunPlanFirstFailure(plan[1..], k - 1);
      assert Steps(plan)[..k + 1] == [plan[0].0] + Steps(plan[1..])[..k];
    }
  }

  /** When every step passes, the run attempts them all and succeeds. */
  lemma {:induction false} RunPlanAllPass(plan: seq<(Step, Option<Error>)>)
    requires forall j :: 0 <= j < |plan| ==> plan[j].1 == None
    ensures RunPlan(plan) == Report(None, Steps(plan))
  {
    if plan != [] {
      RunPlanAllPass(plan[1..]);
      assert Steps(plan) == [plan[0].0] + Steps(plan[1..]);
    }
  }

  // ---------------------------------------------------------------------------
  // StopPostgres

  /** What each call StopPostgres makes reports. */
  datatype StopHost = StopHost(
    find: Option<Error>,       // the first os.FindProcess
    kill: Option<Error>,       // Process.Kill
    findAgain: Option<Error>,  // the second os.FindProcess
    wait: Option<Error>        // Process.Wait
  )

  /** The calls of StopPostgres in order; the result of Wait is not looked at. */
  function StopPlan(pid: int, s: StopHost): seq<(Step, Option<Error>)> {
    [(FindProcess(pid), s.find), (Kill(pid), s.kill), (FindProcess(pid), s.findAgain), (Wait(pid), None)]
  }

  /** Finds the process, kills it, finds it again and waits for it; the first failing call
      ends it with that call's error. */
  function StopPostgres(pid: int, s: StopHost): (r: Report)
    ensures 1 <= |r.trace| <= 4 && r.trace[0] == FindProcess(pid)
    ensures r.err == None <==> s.find == None && s.kill == None && s.findAgain == None
    ensures r.err != None ==> r.err in {s.find, s.kill, s.findAgain}
    ensures Wait(pid) in r.trace <==> r.err == None
  {
    if s.find != None then Report(s.find, [FindProcess(pid)])
    else if s.kill != None then Report(s.kill, [FindProcess(pid), Kill(pid)])
    else if s.findAgain != None then Report(s.findAgain, [FindProcess(pid), Kill(pid), FindProcess(pid)])
    else Report(None, [FindProcess(pid), Kill(pid), FindProcess(pid), Wait(pid)])
  }

  /** StopPostgres is the run of its plan. */
  lemma StopPostgresRunsPlan(pid: int, s: StopHost)
    ensures StopPostgres(pid, s) == RunPlan(StopPlan(pid, s))
  {
    var plan := StopPlan(pid, s);
    assert Steps(plan) == [FindProcess(pid), Kill(pid), FindProcess(pid), Wait(pid)];
    if s.find != None {
      RunPlanFirstFailure(plan, 0);
    } else if s.kill != None {
      RunPlanFirstFailure(plan, 1);
    } else if s.findAgain != None {
      RunPlanFirstFailure(plan, 2);
    } else {
      RunPlanAllPass(plan);
    }
  }

  /** StopPostgres succeeds exactly when the lookups and the kill do, whatever Wait reports,
      and it waits for the process only then. */
  lemma StopIgnoresWait(pid: int, s: StopHost, w: Option<Error>)
    ensures StopPostgres(pid, s) == StopPostgres(pid, s.(wait := w))
    ensures StopPostgres(pid, s).err == None <==> s.find == None && s.kill == None && s.findAgain == None
    ensures Wait(pid) in StopPostgres(pid, s).trace <==> StopPostgres(pid, s).err == None
  {
  }

  // ---------------------------------------------------------------------------
  // StartTestDB

  /** What one PostgresRunning check reports as a step: its error, or `whenRunning`/`whenStopped`. */
  function ProbeStep(view: ProcessView, whenRunning: Option<Error>, whenStopped: Option<Error>): Option<Error> {
    match Probe(view)
    case Err(e) => Some(e)
    case Ok(running) => if running then whenRunning else whenStopped
  }

  /** What the DbExists check reports as a step. */
  function VerifyStep(dbName: string, h: Host): Option<Error> {
    match Catalog(dbName, h)
    case Err(e) => Some(e)
    case Ok(names) => if dbName in names then None else Some(FailedToCreate)
  }

  /** The steps of `StartTestDB` in testdb.go, in the order it attempts them, each with what it reports. */
  function ProvisionPlan(dbDir: string, dbName: string, h: Host): seq<(Step, Option<Error>)> {
    [ (CheckRunning, ProbeStep(h.before, Some(AlreadyRunning), None)),
      (InitDb(dbDir), InitDbDir(dbDir, h)),
      (StartServer(dbDir), StartPostgres(dbDir, h).1),
      (Recheck, ProbeStep(h.after, None, Some(FailedToStart))),
      (CreateDb(dbName), CreateTestDb(dbName, h)),
      (VerifyDb(dbName), VerifyStep(dbName, h)) ]
  }

  /** The order StartTestDB attempts its steps in. Unlike the plan it needs no host, so the
      properties about order can be stated without one; ProvisionStepsOfPlan ties the two. */
  function ProvisionSteps(dbDir: string, dbName: string): seq<Step> {
    [CheckRunning, InitDb(dbDir), StartServer(dbDir), Recheck, CreateDb(dbName), VerifyDb(dbName)]
  }

  /** The plan's steps, whatever the host reports, are the order StartTestDB attempts them in. */
  lemma ProvisionStepsOfPlan(dbDir: string, dbName: string, h: Host)
    ensures Steps(ProvisionPlan(dbDir, dbName, h)) == ProvisionSteps(dbDir, dbName)
  {
  }

  /** The outcome of StartTestDB: the pid it returns, its error and the steps it attempted. */
  datatype Outcome = Outcome(pid: int, err: Option<Error>, trace: seq<Step>)

  /** `StartTestDB` in testdb.go, step after step with an early return at each failure. It does
      what running ProvisionPlan does, and returns the launched server's pid once the launch
      has succeeded (0 before that), whatever happens afterwards. */
  function StartTestDB(dbDir: string, dbName: string, h: Host): (r: Outcome)
    ensures |r.trace| >= 4 ==> h.startPostgres(dbDir).Ok? && r.pid == h.startPostgres(dbDir).value
    ensures |r.trace| < 4 ==> r.pid == 0
  {
    var trace0 := [CheckRunning];
    match Probe(h.before)
    case Err(e) => Outcome(0, Some(e), trace0)
    case Ok(running) =>
      if running then Outcome(0, Some(AlreadyRunning), trace0)
      else
        var trace1 := trace0 + [InitDb(dbDir)];
        var initErr := InitDbDir(dbDir, h);
        if initErr != None then Outcome(0, initErr, trace1)
        else
          var trace2 := trace1 + [StartServer(dbDir)];
          var (pid, startErr) := StartPostgres(dbDir, h);
          if startErr != None then Outcome(pid, startErr, trace2)
          else
            var trace3 := trace2 + [Recheck];
            match Probe(h.after)
            case Err(e) => Outcome(pid, Some(e), trace3)
            case Ok(ok) =>
              if !ok then Outcome(pid, Some(FailedToStart), trace3)
              else
                var trace4 := trace3 + [CreateDb(dbName)];
                var createErr := CreateTestDb(dbName, h);
                if createErr != None then Outcome(pid, createErr, trace4)
                else
                  var trace5 := trace4 + [VerifyDb(dbName)];
                  match Catalog(dbName, h)
                  case Err(e) => Outcome(pid, Some(e), trace5)
                  case Ok(names) =>
                    if dbName in names then Outcome(pid, None, trace5)
                    else Outcome(pid, Some(FailedToCreate), trace5)
  }

  /** A plan of six steps, run: the first failing step ends it with its error. */
  lemma SixStepRun(s0: Step, s1: Step, s2: Step, s3: Step, s4: Step, s5: Step,
                   e0: Option<Error>, e1: Option<Error>, e2: Option<Error>,
                   e3: Option<Error>, e4: Option<Error>, e5: Option<Error>)
    ensures RunPlan([(s0, e0), (s1, e1), (s2, e2), (s3, e3), (s4, e4), (s5, e5)]) ==
      if e0 != None then Report(e0, [s0])
      else if e1 != None then Report(e1, [s0, s1])
      else if e2 != None then Report(e2, [s0, s1, s2])
      else if e3 != None then Report(e3, [s0, s1, s2, s3])
      else if e4 != None then Report(e4, [s0, s1, s2, s3, s4])
      else Report(e5, [s0, s1, s2, s3, s4, s5])
  {
    var plan := [(s0, e0), (s1, e1), (s2, e2), (s3, e3), (s4, e4), (s5, e5)];
    assert Steps(plan) == [s0, s1, s2, s3, s4, s5];
    if e0 != None {
      RunPlanFirstFailure(plan, 0);
    } else if e1 != None {
      RunPlanFirstFailure(plan, 1);
    } else if e2 != None {
      RunPlanFirstFailure(plan, 2);
    } else if e3 != None {
      RunPlanFirstFailure(plan, 3);
    } else if e4 != None {
      RunPlanFirstFailure(plan, 4);
    } else if e5 != None {
      RunPlanFirstFailure(plan, 5);
    } else {
      RunPlanAllPass(plan);
    }
  }

  /** StartTestDB is the run of its plan. */
  lemma StartTestDBRunsPlan(dbDir: string, dbName: string, h: Host)
    ensures var r := StartTestDB(dbDir, dbName, h);
      Report(r.err, r.trace) == RunPlan(ProvisionPlan(dbDir, dbName, h))
  {
    var e0 := ProbeStep(h.before, Some(AlreadyRunning), None);
    var e1 := InitDbDir(dbDir, h);
    var e2 := StartPostgres(dbDir, h).1;
    var e3 := ProbeStep(h.after, None, Some(FailedToStart));
    var e4 := CreateTestDb(dbName, h);
    var e5 := VerifyStep(dbName, h);
    SixStepRun(CheckRunning, InitDb(dbDir), StartServer(dbDir), Recheck, CreateDb(dbName), VerifyDb(dbName),
               e0, e1, e2, e3, e4, e5);
  }

  /** Any run of a plan with the steps of StartTestDB attempts a non-empty prefix of them. */
  lemma ProvisionRunOrder(plan: seq<(Step, Option<Error>)>, dbDir: string, dbName: string)
    requires Steps(plan) == ProvisionSteps(dbDir, dbName)
    ensures var t := RunPlan(plan).trace;
      && 1 <= |t| <= 6
      && t == ProvisionSteps(dbDir, dbName)[..|t|]
      && (forall i :: 0 <= i < |t| ==> !t[i].Kill? && !t[i].FindProcess? && !t[i].Wait?)
  {
    RunPlanTraceIsPrefix(plan);
    assert plan != [];
    var steps := ProvisionSteps(dbDir, dbName);
    var t := RunPlan(plan).trace;
    forall i | 0 <= i < |t| ensures !t[i].Kill? && !t[i].FindProcess? && !t[i].Wait? {
      assert t[i] == steps[i];
    }
  }

  /** The steps attempted are a prefix of init-start-recheck-create-verify after the check,
      none of them stops a process (a failure leaves whatever was started behind), every step
      before the last succeeded, and a failure is the error of the last step attempted. */
  lemma StartTestDBOrder(dbDir: string, dbName: string, h: Host)
    ensures var r := StartTestDB(dbDir, dbName, h);
      && 1 <= |r.trace| <= 6
      && r.trace == ProvisionSteps(dbDir, dbName)[..|r.trace|]
      && (forall i :: 0 <= i < |r.trace| ==> !r.trace[i].Kill? && !r.trace[i].FindProcess? && !r.trace[i].Wait?)
      && (forall i :: 0 <= i < |r.trace| - 1 ==> ProvisionPlan(dbDir, dbName, h)[i].1 == None)
      && (r.err != None ==> ProvisionPlan(dbDir, dbName, h)[|r.trace| - 1].1 == r.err)
  {
    var plan := ProvisionPlan(dbDir, dbName, h);
    StartTestDBRunsPlan(dbDir, dbName, h);
    ProvisionStepsOfPlan(dbDir, dbName, h);
    ProvisionRunOrder(plan, dbDir, dbName);
  }

  /** With a server already running, StartTestDB fails at once and launches nothing. */
  lemma AlreadyRunningLaunchesNothing(dbDir: string, dbName: string, h: Host)
    requires Probe(h.before) == Ok(true)
    ensures StartTestDB(dbDir, dbName, h) == Outcome(0, Some(AlreadyRunning), [CheckRunning])
    ensures Message(StartTestDB(dbDir, dbName, h).err.value) == "Postgres is already running."
  {
  }

  /** A launched server that the recheck does not see ends the call with FailedToStart,
      returning the launched server's pid and stopping nothing. */
  lemma RecheckFailure(dbDir: string, dbName: string, h: Host)
    requires Probe(h.before) == Ok(false) && InitDbDir(dbDir, h) == None
    requires StartPostgres(dbDir, h).1 == None && Probe(h.after) == Ok(false)
    ensures StartTestDB(dbDir, dbName, h) ==
              Outcome(h.startPostgres(dbDir).value, Some(FailedToStart),
                      [CheckRunning, InitDb(dbDir), StartServer(dbDir), Recheck])
    ensures Message(StartTestDB(dbDir, dbName, h).err.value) == "Postgres failed to start."
  {
  }

  /** A database that the listing does not show after createdb succeeded ends the call with
      FailedToCreate, returning the launched server's pid. */
  lemma VerifyFailure(dbDir: string, dbName: string, h: Host)
    requires Probe(h.before) == Ok(false) && InitDbDir(dbDir, h) == None
    requires StartPostgres(dbDir, h).1 == None && Probe(h.after) == Ok(true)
    requires CreateTestDb(dbName, h) == None
    requires Catalog(dbName, h).Ok? && dbName !in Catalog(dbName, h).value
    ensures StartTestDB(dbDir, dbName, h) ==
              Outcome(h.startPostgres(dbDir).value, Some(FailedToCreate), ProvisionSteps(dbDir, dbName))
    ensures Message(StartTestDB(dbDir, dbName, h).err.value) == "Testdb failed to create."
  {
  }

  /** Success means every step ran and passed: nothing was running before, the launched
      server was seen afterwards, and the listing shows the database, by its exact name. */
  lemma StartTestDBSuccess(dbDir: string, dbName: string, h: Host)
    ensures var r := StartTestDB(dbDir, dbName, h);
      r.err == None <==>
        && Probe(h.before) == Ok(false)
        && InitDbDir(dbDir, h) == None
        && StartPostgres(dbDir, h).1 == None
        && Probe(h.after) == Ok(true)
        && CreateTestDb(dbName, h) == None
        && Catalog(dbName, h).Ok? && dbName in Catalog(dbName, h).value
    ensures var r := StartTestDB(dbDir, dbName, h);
      r.err == None ==>
        && r.trace == ProvisionSteps(dbDir, dbName)
        && r.pid == h.startPostgres(dbDir).value
        && dbName != "" && !IsSpace(dbName[0]) && !IsSpace(dbName[|dbName| - 1])
  {
    var r := StartTestDB(dbDir, dbName, h);
    if r.err == None {
      NamesAreTrimmed(Split(h.psqlList(dbName).value, '\n'));
    }
  }
}
