/** The database setup: SQL files split into batches at every "GO", batches run in order with
  * "already exists"/"duplicate" failures let through, required steps that stop the setup when they
  * fail, and connections tried over four configurations in a fixed order. The server is
  * represented by what it answers (`Server`); what the SQL itself creates is not modelled. */
module DatabaseSetup {
  import opened Values
  import opened Settings
  import opened Pipeline

  // ---------------------------------------------------------------------------------------------
  // Splitting a file into batches
  // ---------------------------------------------------------------------------------------------

  /** "GO" occurs in `s`. */
  predicate HasGo(s: string)
  {
    exists i :: 0 <= i < |s| - 1 && s[i] == 'G' && s[i + 1] == 'O'
  }

  /** `s.split('GO')`: the pieces between non-overlapping occurrences of "GO", scanning from the
    * left. */
  function SplitGo(s: string): (r: seq<string>)
    ensures |r| >= 1 && r[0] <= s
    decreases |s|
  {
    if |s| < 2 then [s]
    else if s[0] == 'G' && s[1] == 'O' then [""] + SplitGo(s[2..])
    else
      var rest := SplitGo(s[1..]);
      [[s[0]] + rest[0]] + rest[1..]
  }

  lemma {:induction false} JoinCons(sep: string, a: string, xs: seq<string>)
    requires |xs| >= 1
    ensures Join(sep, [a] + xs) == a + sep + Join(sep, xs)
    decreases |xs|
  {
    var ys := [a] + xs;
    var last := xs[|xs| - 1];
    assert ys[..|ys| - 1] == [a] + xs[..|xs| - 1];
    assert Join(sep, ys) == Join(sep, [a] + xs[..|xs| - 1]) + sep + last;
    if |xs| == 1 {
      assert Join(sep, [a]) == a;
    } else {
      var init := xs[..|xs| - 1];
      JoinCons(sep, a, init);
      assert Join(sep, xs) == Join(sep, init) + sep + last;
    }
  }

  /** Joining the pieces with "GO" gives the text back: the split loses nothing. */
  lemma {:induction false} SplitGoJoins(s: string)
    ensures Join("GO", SplitGo(s)) == s
    decreases |s|
  {
    if |s| >= 2 {
      if s[0] == 'G' && s[1] == 'O' {
        SplitGoJoins(s[2..]);
        JoinAtGo(s);
      } else {
        SplitGoJoins(s[1..]);
        JoinPastChar(s);
      }
    }
  }

  lemma JoinAtGo(s: string)
    requires |s| >= 2 && s[0] == 'G' && s[1] == 'O'
    requires Join("GO", SplitGo(s[2..])) == s[2..]
    ensures Join("GO", SplitGo(s)) == s
  {
    var rest := SplitGo(s[2..]);
    JoinCons("GO", "", rest);
    assert SplitGo(s) == [""] + rest;
    assert s == "GO" + s[2..];
  }

  lemma JoinPastChar(s: string)
    requires |s| >= 2 && !(s[0] == 'G' && s[1] == 'O')
    requires Join("GO", SplitGo(s[1..])) == s[1..]
    ensures Join("GO", SplitGo(s)) == s
  {
    var rest := SplitGo(s[1..]);
    assert SplitGo(s) == [[s[0]] + rest[0]] + rest[1..];
    JoinHeadChar("GO", s[0], rest);
    assert s == [s[0]] + s[1..];
  }

  /** Putting a character in front of the first piece puts it in front of the joined text. */
  lemma JoinHeadChar(sep: string, c: char, xs: seq<string>)
    requires |xs| >= 1
    ensures Join(sep, [[c] + xs[0]] + xs[1..]) == [c] + Join(sep, xs)
  {
    var first := [c] + xs[0];
    if |xs| == 1 {
      assert [first] + xs[1..] == [first];
      assert Join(sep, [first]) == first;
    } else {
      JoinCons(sep, first, xs[1..]);
      JoinCons(sep, xs[0], xs[1..]);
      assert xs == [xs[0]] + xs[1..];
    }
  }

  /** No piece contains "GO": every occurrence was a split point. */
  lemma {:induction false} SplitGoPiecesFree(s: string)
    ensures forall p :: p in SplitGo(s) ==> !HasGo(p)
    decreases |s|
  {
    if |s| >= 2 {
      if s[0] == 'G' && s[1] == 'O' {
        SplitGoPiecesFree(s[2..]);
      } else {
        var rest := SplitGo(s[1..]);
        SplitGoPiecesFree(s[1..]);
        var first := [s[0]] + rest[0];
        assert !HasGo(rest[0]) by {
          assert rest[0] in rest;
        }
        forall i | 0 <= i < |first| - 1
          ensures !(first[i] == 'G' && first[i + 1] == 'O')
        {
          if i == 0 {
            assert first[1] == rest[0][0] == s[1];
          } else {
            assert first[i] == rest[0][i - 1] && first[i + 1] == rest[0][i];
          }
        }
        forall p | p in SplitGo(s)
          ensures !HasGo(p)
        {
          if p != first {
            assert p in rest[1..];
          }
        }
      }
    }
  }

  /** The characters `str.strip()` removes: the ASCII and Latin-1 whitespace. */
  predicate IsSpace(c: char)
  {
    c == ' ' || '\t' <= c <= '\r' || '\U{1C}' <= c <= '\U{1F}' || c == '\U{85}' || c == '\U{A0}'
  }

  function StripLeft(s: string): (r: string)
    ensures |r| <= |s| && r == s[|s| - |r|..]
    ensures r != [] ==> !IsSpace(r[0])
    ensures r == [] <==> forall i :: 0 <= i < |s| ==> IsSpace(s[i])
    decreases |s|
  {
    if s != [] && IsSpace(s[0]) then StripLeft(s[1..]) else s
  }

  function StripRight(s: string): (r: string)
    ensures |r| <= |s| && r == s[..|r|]
    ensures r != [] ==> !IsSpace(r[|r| - 1])
    ensures r == [] <==> forall i :: 0 <= i < |s| ==> IsSpace(s[i])
    decreases |s|
  {
    if s != [] && IsSpace(s[|s| - 1]) then StripRight(s[..|s| - 1]) else s
  }

  /** `s.strip()`: a slice of `s` with no whitespace at either end, empty exactly when `s` is all
    * whitespace. */
  function Strip(s: string): (r: string)
    ensures exists i, j :: 0 <= i <= j <= |s| && r == s[i..j]
    ensures r != [] ==> !IsSpace(r[0]) && !IsSpace(r[|r| - 1])
    ensures r == [] <==> forall i :: 0 <= i < |s| ==> IsSpace(s[i])
  {
    var l := StripLeft(s);
    StripLeftDrops(s);
    var r := StripRight(l);
    assert r == s[|s| - |l|..][..|r|] == s[|s| - |l|..|s| - |l| + |r|];
    r
  }

  lemma {:induction false} StripLeftDrops(s: string)
    ensures forall i :: 0 <= i < |s| - |StripLeft(s)| ==> IsSpace(s[i])
    decreases |s|
  {
    if s != [] && IsSpace(s[0]) {
      StripLeftDrops(s[1..]);
    }
  }

  /** `[b.strip() for b in pieces if b.strip()]` */
  function Batches(pieces: seq<string>): seq<string>
  {
    if pieces == [] then []
    else
      var b := Strip(pieces[0]);
      (if b == [] then [] else [b]) + Batches(pieces[1..])
  }

  lemma SliceKeepsGoFree(p: string, i: nat, j: nat)
    requires i <= j <= |p| && !HasGo(p)
    ensures !HasGo(p[i..j])
  {
    var q := p[i..j];
    forall k | 0 <= k < |q| - 1
      ensures !(q[k] == 'G' && q[k + 1] == 'O')
    {
      assert q[k] == p[i + k] && q[k + 1] == p[i + k + 1];
    }
  }

  lemma {:induction false} BatchesClean(pieces: seq<string>)
    requires forall p :: p in pieces ==> !HasGo(p)
    ensures forall b :: b in Batches(pieces) ==>
              b != [] && !HasGo(b) && !IsSpace(b[0]) && !IsSpace(b[|b| - 1])
    decreases |pieces|
  {
    if pieces != [] {
      BatchesClean(pieces[1..]);
      var b := Strip(pieces[0]);
      var i, j :| 0 <= i <= j <= |pieces[0]| && b == pieces[0][i..j];
      SliceKeepsGoFree(pieces[0], i, j);
    }
  }

  /** The batches of a file: each is non-empty, holds no "GO", and has no whitespace at either
    * end. */
  lemma SqlBatchesClean(content: string)
    ensures forall b :: b in Batches(SplitGo(content)) ==>
              b != [] && !HasGo(b) && !IsSpace(b[0]) && !IsSpace(b[|b| - 1])
  {
    SplitGoPiecesFree(content);
    BatchesClean(SplitGo(content));
  }

  // ---------------------------------------------------------------------------------------------
  // Running the batches of a file
  // ---------------------------------------------------------------------------------------------

  function LowerChar(c: char): char
  {
    if 'A' <= c <= 'Z' then (c as int + 32) as char else c
  }

  /** `str.lower()` on ASCII letters. */
  function Lower(s: string): (r: string)
    ensures |r| == |s| && forall i :: 0 <= i < |s| ==> r[i] == LowerChar(s[i])
  {
    if s == [] then [] else [LowerChar(s[0])] + Lower(s[1..])
  }

  /** A failure that only says the object is already there. */
  predicate Benign(msg: string)
  {
    ContainsText(Lower(msg), "already exists") || ContainsText(Lower(msg), "duplicate")
  }

  /** Runs batches `i..` of file `path`; `execute(path, i)` is the error batch `i` raises, if
    * any. The answer is whether the file went through and how many batches were sent. */
  function RunBatches(batches: seq<string>, path: string, execute: (string, nat) -> Option<string>, i: nat): (r: (bool, nat))
    requires i <= |batches|
    ensures r.1 <= |batches|
    decreases |batches| - i
  {
    if i == |batches| then (true, i)
    else
      match execute(path, i)
      case None => RunBatches(batches, path, execute, i + 1)
      case Some(msg) => if Benign(msg) then RunBatches(batches, path, execute, i + 1) else (false, i + 1)
  }

  /** A file goes through exactly when no batch fails other than benignly; it stops at the first
    * other failure, after which nothing more is sent. */
  lemma {:induction false} RunBatchesOutcome(batches: seq<string>, path: string, execute: (string, nat) -> Option<string>, i: nat)
    requires i <= |batches|
    ensures var (ok, sent) := RunBatches(batches, path, execute, i);
      && (ok <==> forall k :: i <= k < |batches| ==> execute(path, k).None? || Benign(execute(path, k).value))
      && (ok ==> sent == |batches|)
      && (!ok ==> i < sent <= |batches| && execute(path, sent - 1).Some? && !Benign(execute(path, sent - 1).value)
                  && forall k :: i <= k < sent - 1 ==> execute(path, k).None? || Benign(execute(path, k).value))
    decreases |batches| - i
  {
    if i < |batches| {
      RunBatchesOutcome(batches, path, execute, i + 1);
    }
  }

  /** `_execute_sql_file`'s answer and the batches it sent, given the file's text (`None` when it
    * does not exist) and whether a connection is open. */
  function FileOutcome(content: Option<string>, connected: bool, path: string, execute: (string, nat) -> Option<string>)
    : (bool, seq<string>)
  {
    if content.None? then (false, [])
    else if Strip(content.value) == [] then (true, [])
    else
      var batches := Batches(SplitGo(content.value));
      if !connected then (false, [])
      else
        var (ok, sent) := RunBatches(batches, path, execute, 0);
        (ok, batches[..sent])
  }

  /** A missing file fails and a blank one succeeds, neither sending anything. */
  lemma FileEdgeCases(content: Option<string>, connected: bool, path: string, execute: (string, nat) -> Option<string>)
    ensures content.None? ==> FileOutcome(content, connected, path, execute) == (false, [])
    ensures content.Some? && (forall i :: 0 <= i < |content.value| ==> IsSpace(content.value[i])) ==>
              FileOutcome(content, connected, path, execute) == (true, [])
  {
  }

  // ---------------------------------------------------------------------------------------------
  // Connections
  // ---------------------------------------------------------------------------------------------

  /** An open connection: the database it is on and the configuration (1 to 4) that answered. */
  datatype Conn = Conn(database: string, approach: nat)

  /** What the server answers: `reach(db, n)` is whether configuration `n` connects to `db` and
    * answers `SELECT @@VERSION`; whether the staging database exists and what creating it does;
    * the SQL files; each file's batch failures; and the staging tables that exist. */
  datatype Server = Server(
    reach: (string, nat) -> bool,
    stagingExists: bool,
    createRaises: bool,
    visibleAfterCreate: bool,
    files: string -> Option<string>,
    execute: (string, nat) -> Option<string>,
    tables: set<string>)

  const ConnectionApproaches := 4

  /** The database `get_connection` targets: 'master' for creating the database, else the
    * requested one unless it is missing or empty, else the configured one. */
  function TargetDatabase(database: Option<string>, forCreateDb: bool, settings: Settings): string
  {
    if forCreateDb then "master"
    else if database.Some? && database.value != "" then database.value
    else settings.sqlServerDatabase
  }

  /** The first configuration from `i` on that answers. */
  function FirstReach(reach: (string, nat) -> bool, target: string, i: nat): (c: Option<Conn>)
    requires 1 <= i <= ConnectionApproaches + 1
    ensures c.Some? ==> c.value.database == target && i <= c.value.approach <= ConnectionApproaches
                        && reach(target, c.value.approach)
                        && forall j :: i <= j < c.value.approach ==> !reach(target, j)
    ensures c.None? <==> forall j :: i <= j <= ConnectionApproaches ==> !reach(target, j)
    decreases ConnectionApproaches + 1 - i
  {
    if i > ConnectionApproaches then None
    else if reach(target, i) then Some(Conn(target, i))
    else FirstReach(reach, target, i + 1)
  }

  // ---------------------------------------------------------------------------------------------
  // Steps
  // ---------------------------------------------------------------------------------------------

  datatype StepKind = CreateDatabaseStep | RunFile(path: string) | VerifyStep

  datatype Step = Step(name: string, required: bool, kind: StepKind)

  const SetupSteps: seq<Step> :=
    [Step("Database Creation", true, CreateDatabaseStep),
     Step("Core Schemas", true, RunFile("sql/staging/create_facolos_enterprise_schemas.sql")),
     Step("MISA CRM Tables", true, RunFile("sql/staging/create_misa_crm_tables.sql")),
     Step("TikTok Shop Tables", true, RunFile("sql/staging/create_tiktok_shop_orders_table.sql")),
     Step("Verification", true, VerifyStep)]

  /** `_create_database`: on a 'master' connection, the database exists or is created and then
    * found. */
  function CreateOutcome(s: Server): bool
  {
    FirstReach(s.reach, "master", 1).Some? && (s.stagingExists || (!s.createRaises && s.visibleAfterCreate))
  }

  /** `_verify_setup`: all six staging tables exist. */
  function VerifyOutcome(s: Server, conn: Option<Conn>): bool
  {
    conn.Some? && forall t :: t in StagingTables ==> t in s.tables
  }

  /** What a step's function returns, given the orchestrator's connection. */
  function StepOutcome(step: Step, conn: Option<Conn>, s: Server): bool
  {
    match step.kind
    case CreateDatabaseStep => CreateOutcome(s)
    case RunFile(path) => FileOutcome(s.files(path), conn.Some?, path, s.execute).0
    case VerifyStep => VerifyOutcome(s, conn)
  }

  /** The step loop from step `i` with connection `conn`: the answer, how many step functions were
    * called, and the connection afterwards. Steps after the first need a connection to the
    * configured database. */
  function SetupFrom(steps: seq<Step>, i: nat, conn: Option<Conn>, s: Server, settings: Settings): (bool, nat, Option<Conn>)
    requires i <= |steps|
    decreases |steps| - i
  {
    if i == |steps| then (true, i, conn)
    else
      var c := if i > 0 && conn.None? then FirstReach(s.reach, TargetDatabase(None, false, settings), 1) else conn;
      if i > 0 && c.None? then (false, i, c)
      else if !StepOutcome(steps[i], c, s) && steps[i].required then (false, i + 1, c)
      else SetupFrom(steps, i + 1, c, s, settings)
  }

  /** Started without a connection, the setup succeeds exactly when the configured database can
    * be reached (if any step needs it) and every required step succeeds, and on success every
    * step was called. */
  lemma {:induction false} SetupVerdict(steps: seq<Step>, s: Server, settings: Settings, i: nat, conn: Option<Conn>)
    requires i <= |steps|
    requires var target := FirstReach(s.reach, TargetDatabase(None, false, settings), 1);
      (i == 0 && conn.None?) || (i > 0 && conn == target && conn.Some?)
    ensures var target := FirstReach(s.reach, TargetDatabase(None, false, settings), 1);
      var (ok, called, _) := SetupFrom(steps, i, conn, s, settings);
      && (ok <==> (|steps| <= 1 || target.Some?)
                  && forall k :: i <= k < |steps| && steps[k].required ==>
                       StepOutcome(steps[k], if k == 0 then None else target, s))
      && (ok ==> called == |steps|)
      && (!ok ==> i <= called <= |steps|)
    decreases |steps| - i
  {
    var target := FirstReach(s.reach, TargetDatabase(None, false, settings), 1);
    if i < |steps| {
      var c := if i > 0 && conn.None? then target else conn;
      if i == 0 {
        if |steps| > 1 && target.Some? {
          SetupVerdict(steps, s, settings, 1, target);
        } else if |steps| > 1 {
          SetupNoTarget(steps, s, settings, 1, None);
        }
      } else if !(!StepOutcome(steps[i], c, s) && steps[i].required) {
        SetupVerdict(steps, s, settings, i + 1, c);
      }
    }
  }

  lemma SetupNoTarget(steps: seq<Step>, s: Server, settings: Settings, i: nat, conn: Option<Conn>)
    requires 0 < i <= |steps| - 1 && conn.None?
    requires FirstReach(s.reach, TargetDatabase(None, false, settings), 1).None?
    ensures SetupFrom(steps, i, conn, s, settings) == (false, i, None)
  {
  }

  /** Whether the file at `path` runs through on a connected server. */
  predicate FileRuns(s: Server, path: string)
  {
    FileOutcome(s.files(path), true, path, s.execute).0
  }

  /** For the five steps of this setup, all required: the setup succeeds exactly when the
    * database can be created and reached and every file and the table check go through. */
  lemma FiveStepVerdict(s: Server, settings: Settings)
    ensures var target := FirstReach(s.reach, TargetDatabase(None, false, settings), 1);
      SetupFrom(SetupSteps, 0, None, s, settings).0
      <==> && CreateOutcome(s) && target.Some?
           && FileRuns(s, "sql/staging/create_facolos_enterprise_schemas.sql")
           && FileRuns(s, "sql/staging/create_misa_crm_tables.sql")
           && FileRuns(s, "sql/staging/create_tiktok_shop_orders_table.sql")
           && forall t :: t in StagingTables ==> t in s.tables
  {
    var target := FirstReach(s.reach, TargetDatabase(None, false, settings), 1);
    SetupVerdict(SetupSteps, s, settings, 0, None);
    var outcome := k requires 0 <= k < 5 => StepOutcome(SetupSteps[k], if k == 0 then None else target, s);
    assert outcome(0) == CreateOutcome(s);
    assert target.Some? ==> outcome(1) == FileRuns(s, "sql/staging/create_facolos_enterprise_schemas.sql");
    assert target.Some? ==> outcome(2) == FileRuns(s, "sql/staging/create_misa_crm_tables.sql");
    assert target.Some? ==> outcome(3) == FileRuns(s, "sql/staging/create_tiktok_shop_orders_table.sql");
    assert target.Some? ==> outcome(4) == forall t :: t in StagingTables ==> t in s.tables;
  }

  // ---------------------------------------------------------------------------------------------
  // The orchestrator
  // ---------------------------------------------------------------------------------------------

  class DatabaseSetupOrchestrator {
    const settings: Settings
    const setupSteps: seq<Step>
    var connection: Option<Conn>

    constructor(settings: Settings)
      ensures this.settings == settings && setupSteps == SetupSteps && connection == None
    {
      this.settings := settings;
      setupSteps := SetupSteps;
      connection := None;
    }

    /** `get_connection`: the configurations are tried in order and the first that answers is
      * returned. */
    method GetConnection(database: Option<string>, forCreateDb: bool, s: Server) returns (c: Option<Conn>)
      ensures c == FirstReach(s.reach, TargetDatabase(database, forCreateDb, settings), 1)
      ensures forCreateDb && c.Some? ==> c.value.database == "master"
    {
      var target := if database.Some? && database.value != "" then database.value else settings.sqlServerDatabase;
      if forCreateDb {
        target := "master";
      }
      var i := 1;
      while i <= ConnectionApproaches
        invariant 1 <= i <= ConnectionApproaches + 1
        invariant FirstReach(s.reach, target, i) == FirstReach(s.reach, target, 1)
      {
        if s.reach(target, i) {
          return Some(Conn(target, i));
        }
        i := i + 1;
      }
      return None;
    }

    /** `_create_database`. */
    method CreateDatabase(s: Server) returns (ok: bool)
      ensures ok == CreateOutcome(s)
    {
      var master := GetConnection(Some("master"), true, s);
      if master.None? {
        return false;
      }
      if s.stagingExists {
        return true;
      }
      if s.createRaises {
        return false;
      }
      return s.visibleAfterCreate;
    }

    /** `_execute_sql_file`: returns whether the file went through and the batches it sent. */
    method ExecuteSqlFile(path: string, s: Server) returns (ok: bool, sent: seq<string>)
      ensures (ok, sent) == FileOutcome(s.files(path), connection.Some?, path, s.execute)
    {
      var content := s.files(path);
      if content.None? {
        return false, [];
      }
      if Strip(content.value) == [] {
        return true, [];
      }
      var batches := Batches(SplitGo(content.value));
      if connection.None? {
        return false, [];
      }
      ok, sent := RunFileBatches(path, batches, s);
    }

    /** The batch loop of `_execute_sql_file`: each batch is sent in turn; a benign failure counts
      * as a success, any other failure stops the file. */
    method RunFileBatches(path: string, batches: seq<string>, s: Server) returns (ok: bool, sent: seq<string>)
      ensures var (done, count) := RunBatches(batches, path, s.execute, 0);
        ok == done && sent == batches[..count]
    {
      var successful := 0;
      sent := [];
      for i := 0 to |batches|
        invariant sent == batches[..i] && successful == i
        invariant RunBatches(batches, path, s.execute, i) == RunBatches(batches, path, s.execute, 0)
      {
        sent := sent + [batches[i]];
        var error := s.execute(path, i);
        if error.Some? {
          if Benign(error.value) {
            successful := successful + 1;
            continue;
          }
          return false, sent;
        }
        successful := successful + 1;
      }
      return true, sent;
    }

    /** `_verify_setup`: counts the expected tables that exist and compares with six. */
    method VerifySetup(s: Server) returns (ok: bool)
      ensures ok == VerifyOutcome(s, connection)
    {
      if connection.None? {
        return false;
      }
      var created := 0;
      for i := 0 to |StagingTables|
        invariant created == CountIn(StagingTables[..i], s.tables)
      {
        assert StagingTables[..i + 1][..i] == StagingTables[..i];
        if StagingTables[i] in s.tables {
          created := created + 1;
        }
      }
      assert StagingTables[..|StagingTables|] == StagingTables;
      CountInAll(StagingTables, s.tables);
      ok := created == |StagingTables|;
    }

    /** `execute_complete_setup`: returns the answer and how many step functions were called. */
    method ExecuteCompleteSetup(s: Server) returns (ok: bool, called: nat)
      modifies this
      ensures (ok, called, connection) == SetupFrom(setupSteps, 0, old(connection), s, settings)
    {
      var i := 0;
      while i < |setupSteps|
        invariant i <= |setupSteps|
        invariant SetupFrom(setupSteps, i, connection, s, settings) == SetupFrom(setupSteps, 0, old(connection), s, settings)
      {
        if i > 0 && connection.None? {
          connection := GetConnection(None, false, s);
          if connection.None? {
            return false, i;
          }
        }
        var success := RunStep(setupSteps[i], s);
        if !success && setupSteps[i].required {
          return false, i + 1;
        }
        i := i + 1;
      }
      return true, i;
    }

    /** Calls a step's function. */
    method RunStep(step: Step, s: Server) returns (ok: bool)
      ensures ok == StepOutcome(step, connection, s)
    {
      match step.kind {
        case CreateDatabaseStep => ok := CreateDatabase(s);
        case RunFile(path) =>
          var sent;
          ok, sent := ExecuteSqlFile(path, s);
        case VerifyStep => ok := VerifySetup(s);
      }
    }
  }

  function CountIn(ts: seq<string>, present: set<string>): nat
  {
    if ts == [] then 0 else CountIn(ts[..|ts| - 1], present) + (if ts[|ts| - 1] in present then 1 else 0)
  }

  /** The count reaches the number of tables exactly when every table is present. */
  lemma {:induction false} CountInAll(ts: seq<string>, present: set<string>)
    ensures CountIn(ts, present) <= |ts|
    ensures CountIn(ts, present) == |ts| <==> forall t :: t in ts ==> t in present
    decreases |ts|
  {
    if ts != [] {
      var init := ts[..|ts| - 1];
      CountInAll(init, present);
      assert ts == init + [ts[|ts| - 1]];
    }
  }
}
