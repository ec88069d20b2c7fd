/** The load itself: the statements each source file issues, their effect on
    the tables when run in order inside one transaction, the per-file
    processors that issue them, and the batch driver that commits after
    every file. */
module Etl {
  import opened Common
  import opened SqlQueries
  import opened Transform

  // ---------------------------------------------------------------------------
  // Statements and their effect
  // ---------------------------------------------------------------------------

  /** One database round trip issued by a file processor. SongplayLoad runs
      song_select for the event and then inserts its songplay. */
  datatype Statement =
    | SongInsert(song: SongParams)
    | ArtistInsert(artist: ArtistParams)
    | TimeInsert(time: TimeRow)
    | UserInsert(user: UserParams)
    | SongplayLoad(event: LogRecord)
    | Abort(error: LoadError)  // the processor raises here, before its next statement

  /** The row song_select fetches for event e in state t (cursor.fetchone()). */
  function Lookup(t: Tables, e: LogRecord): Option<(string, string)> {
    FetchOne(SongSelect(t, e.song, e.artist, e.length))
  }

  /** The lookup finds nothing exactly when the query returns nothing;
      otherwise it is a stored song whose song_id is the event's track title,
      with a stored artist. */
  lemma LookupFound(t: Tables, e: LogRecord)
    ensures Lookup(t, e).None? <==> SongSelect(t, e.song, e.artist, e.length) == []
    ensures Lookup(t, e).Some? ==>
      var (songId, artistId) := Lookup(t, e).value;
      e.song == Some(songId) && songId in t.songs && artistId in t.artists
  {
  }

  /** One statement's effect. */
  function Step(t: Tables, s: Statement): Result<Tables> {
    match s
    case SongInsert(p) => InsertSong(t, p)
    case ArtistInsert(p) => InsertArtist(t, p)
    case TimeInsert(row) => Ok(InsertTime(t, row))
    case UserInsert(p) => InsertUser(t, p)
    case SongplayLoad(e) => InsertSongplay(t, SongplayParamsOf(e, Lookup(t, e)))
    case Abort(e) => Err(e)
  }

  /** Only a songplay load touches the fact table, and it appends exactly one
      row; a time insert cannot fail; an abort always does. */
  lemma StepEffect(t: Tables, s: Statement)
    ensures s.Abort? ==> Step(t, s) == Err(s.error)
    ensures s.TimeInsert? ==> Step(t, s).Ok?
    ensures Step(t, s).Ok? ==> t.songplays <= Step(t, s).value.songplays
    ensures Step(t, s).Ok? ==>
      |Step(t, s).value.songplays| == |t.songplays| + (if s.SongplayLoad? then 1 else 0)
  {
  }

  /** The number of songplay loads in plan. */
  function Loads(plan: seq<Statement>): nat
    decreases |plan|
  {
    if plan == [] then 0 else (if plan[0].SongplayLoad? then 1 else 0) + Loads(plan[1..])
  }

  /** The statements of plan executed in order; the first failure aborts the rest. */
  function Run(t: Tables, plan: seq<Statement>): Result<Tables>
    decreases |plan|
  {
    if plan == [] then Ok(t)
    else
      match Step(t, plan[0])
      case Err(e) => Err(e)
      case Ok(t') =>
        Run(t', plan[1..])
  }

  /** A plan that succeeds keeps the fact table's rows and appends one row per songplay load. */
  lemma {:induction false} RunAppendsFacts(t: Tables, plan: seq<Statement>)
    ensures Run(t, plan).Ok? ==> t.songplays <= Run(t, plan).value.songplays
    ensures Run(t, plan).Ok? ==> |Run(t, plan).value.songplays| == |t.songplays| + Loads(plan)
    decreases |plan|
  {
    if plan != [] {
      StepEffect(t, plan[0]);
      if Step(t, plan[0]).Ok? {
        RunAppendsFacts(Step(t, plan[0]).value, plan[1..]);
      }
    }
  }

  /** Continue with plan after outcome r. */
  function Then(r: Result<Tables>, plan: seq<Statement>): Result<Tables> {
    match r
    case Err(e) => Err(e)
    case Ok(t) => Run(t, plan)
  }

  lemma {:induction false} RunAppend(t: Tables, a: seq<Statement>, b: seq<Statement>)
    ensures Run(t, a + b) == Then(Run(t, a), b)
    decreases |a|
  {
    if a == [] {
      assert a + b == b;
    } else {
      assert (a + b)[0] == a[0];
      assert (a + b)[1..] == a[1..] + b;
      match Step(t, a[0]) {
        case Err(e) =>
        case Ok(t') => RunAppend(t', a[1..], b);
      }
    }
  }

  lemma RunSingle(t: Tables, s: Statement)
    ensures Run(t, [s]) == Step(t, s)
  {
    match Step(t, s) {
      case Err(e) =>
      case Ok(t') => assert [s][1..] == [];
    }
  }

  /** A failure in a prefix of plan is the failure of plan. */
  lemma RunPrefixFails(t: Tables, plan: seq<Statement>, k: nat)
    requires k <= |plan| && Run(t, plan[..k]).Err?
    ensures Run(t, plan) == Run(t, plan[..k])
  {
    assert plan == plan[..k] + plan[k..];
    RunAppend(t, plan[..k], plan[k..]);
  }

  // ---------------------------------------------------------------------------
  // What each kind of file issues
  // ---------------------------------------------------------------------------

  /** The columns process_song_file reads before its song insert: df.year,
      then song_data. */
  const SongColumns: set<string> := {"song_id", "artist_id", "title", "year", "duration"}

  /** The columns artist_data reads, after the song insert. */
  const ArtistColumns: set<string> :=
    {"artist_id", "artist_name", "artist_location", "artist_latitude", "artist_longitude"}

  /** process_song_file on a file with the given columns: a song insert, then
      an artist insert, both from the cleaned first record; the other records
      are never used. A missing column raises KeyError (or AttributeError for
      df.year), before the song insert or between the two. */
  function SongFilePlan(records: seq<SongRecord>, columns: set<string>): Result<seq<Statement>> {
    if !(SongColumns <= columns) then Err(MissingColumn)
    else if records == [] then Err(EmptyFile)
    else
      var first := CleanSong(records[0]);
      Ok([SongInsert(SongParamsOf(first)),
          if ArtistColumns <= columns then ArtistInsert(ArtistParamsOf(first)) else Abort(MissingColumn)])
  }

  /** The song plan fails before any statement exactly when a song column is
      absent or the file has no record; otherwise it is the song insert and
      then the artist insert (or the error an absent artist column raises),
      both built from the cleaned first record alone. */
  lemma SongFilePlanShape(records: seq<SongRecord>, columns: set<string>)
    ensures var r := SongFilePlan(records, columns);
      && (r.Err? <==> !(SongColumns <= columns) || records == [])
      && (r.Err? ==> r.error == (if SongColumns <= columns then EmptyFile else MissingColumn))
      && (r.Ok? ==> |r.value| == 2 && r.value[0] == SongInsert(SongParamsOf(CleanSong(records[0]))))
      && (r.Ok? && ArtistColumns <= columns ==> r.value[1] == ArtistInsert(ArtistParamsOf(CleanSong(records[0]))))
      && (r.Ok? && !(ArtistColumns <= columns) ==> r.value[1] == Abort(MissingColumn))
  {
  }

  /** The first loop of process_log_file: one dim_time insert per play event. */
  function TimeStatements(plays: seq<LogRecord>): (plan: seq<Statement>)
    ensures |plan| == |plays|
    ensures forall i :: 0 <= i < |plays| ==> plan[i] == TimeInsert(TimeRowOf(plays[i].ts))
  {
    seq(|plays|, i requires 0 <= i < |plays| => TimeInsert(TimeRowOf(plays[i].ts)))
  }

  /** The second loop: one dim_users upsert per play event. */
  function UserStatements(plays: seq<LogRecord>): (plan: seq<Statement>)
    ensures |plan| == |plays|
    ensures forall i :: 0 <= i < |plays| ==> plan[i] == UserInsert(UserParamsOf(plays[i]))
  {
    seq(|plays|, i requires 0 <= i < |plays| => UserInsert(UserParamsOf(plays[i])))
  }

  /** The third loop: a lookup and a songplay insert per play event. */
  function LoadStatements(plays: seq<LogRecord>): (plan: seq<Statement>)
    ensures |plan| == |plays|
    ensures forall i :: 0 <= i < |plays| ==> plan[i] == SongplayLoad(plays[i])
  {
    seq(|plays|, i requires 0 <= i < |plays| => SongplayLoad(plays[i]))
  }

  /** process_log_file's three loops over n play events: n time inserts, then
      n user upserts, then n songplay loads, each phase in event order. */
  function LogStatements(plays: seq<LogRecord>): seq<Statement> {
    TimeStatements(plays) + UserStatements(plays) + LoadStatements(plays)
  }

  /** The log plan over n play events: n time inserts, then n user upserts,
      then n songplay loads, each phase in event order. */
  lemma LogPlanShape(plays: seq<LogRecord>)
    ensures |LogStatements(plays)| == 3 * |plays|
    ensures forall i :: 0 <= i < |plays| ==> LogStatements(plays)[i] == TimeInsert(TimeRowOf(plays[i].ts))
    ensures forall i :: |plays| <= i < 2 * |plays| ==>
      LogStatements(plays)[i] == UserInsert(UserParamsOf(plays[i - |plays|]))
    ensures forall i :: 2 * |plays| <= i < 3 * |plays| ==>
      LogStatements(plays)[i] == SongplayLoad(plays[i - 2 * |plays|])
  {
  }

  /** The columns user_df selects. */
  const UserColumns: set<string> := {"userId", "firstName", "lastName", "gender", "level"}

  /** The columns each iteration of the songplay loop reads from its row. */
  const SongplayColumns: set<string> :=
    {"song", "artist", "length", "ts", "userId", "level", "sessionId", "location", "userAgent"}

  /** Every column process_log_file reads. */
  const LogColumns: set<string> := {"page", "ts"} + UserColumns + SongplayColumns

  /** The user loop, or the KeyError user_df raises before it when a user column is absent. */
  function UserPhase(plays: seq<LogRecord>, columns: set<string>): seq<Statement> {
    if UserColumns <= columns then UserStatements(plays) else [Abort(MissingColumn)]
  }

  /** The songplay loop, or the AttributeError its first iteration raises when
      a column it reads is absent (no iteration, no error, without play events). */
  function LoadPhase(plays: seq<LogRecord>, columns: set<string>): seq<Statement> {
    if plays == [] || SongplayColumns <= columns then LoadStatements(plays) else [Abort(MissingColumn)]
  }

  /** process_log_file on a file with the given columns. df.page and df.ts
      raise before any statement when absent, and pd.to_datetime raises when a
      play's ts is out of range; otherwise the three loops run, a missing user
      or songplay column raising where that loop begins. */
  function LogFilePlan(records: seq<LogRecord>, columns: set<string>): Result<seq<Statement>> {
    if "page" !in columns then Err(MissingColumn)
    else
      var plays := NextSongs(records);
      if "ts" !in columns then Err(MissingColumn)
      else if !TimestampsInRange(plays) then Err(TimestampOutOfBounds)
      else Ok(TimeStatements(plays) + UserPhase(plays, columns) + LoadPhase(plays, columns))
  }

  /** The log plan fails before any statement exactly when page or ts is
      absent or a play's ts is out of range; otherwise it opens with the time
      inserts, and with every column present it is the three loops in full. */
  lemma LogFilePlanShape(records: seq<LogRecord>, columns: set<string>)
    ensures var r, plays := LogFilePlan(records, columns), NextSongs(records);
      && (r.Err? <==> "page" !in columns || "ts" !in columns || !TimestampsInRange(plays))
      && (r.Err? ==> r.error == (if "page" in columns && "ts" in columns then TimestampOutOfBounds else MissingColumn))
      && (r.Ok? ==> |plays| <= |r.value| && r.value[..|plays|] == TimeStatements(plays))
      && (r.Ok? && LogColumns <= columns ==> r.value == LogStatements(plays))
  {
    var plays := NextSongs(records);
    if LogFilePlan(records, columns).Ok? {
      var plan := LogFilePlan(records, columns).value;
      assert plan[..|plays|] == TimeStatements(plays);
    }
  }

  /** A source file as pd.read_json(filepath, lines=True) leaves it: its
      records, where a key a record lacks reads as NULL, and its columns, the
      keys found in any record. A song record has no page, an event no year.
      The column set is not tied to the records' keys: a real file without
      records has no columns and fails with MissingColumn before EmptyFile. */
  datatype JsonFile =
    | SongFile(songs: seq<SongRecord>, columns: set<string>)
    | LogFile(events: seq<LogRecord>, columns: set<string>)
    | Unparseable

  /** The func argument of process_data. */
  datatype Processor = SongProcessor | LogProcessor

  function FilePlan(func: Processor, file: JsonFile): Result<seq<Statement>> {
    match file
    case Unparseable => Err(ParseError)
    case SongFile(records, columns) => if func == SongProcessor then SongFilePlan(records, columns) else Err(MissingColumn)
    case LogFile(records, columns) => if func == LogProcessor then LogFilePlan(records, columns) else Err(MissingColumn)
  }

  function Execute(t: Tables, plan: Result<seq<Statement>>): Result<Tables> {
    match plan
    case Err(e) => Err(e)
    case Ok(p) => Run(t, p)
  }

  /** The state one file's transaction leaves, or the error that aborts it. */
  function FileEffect(t: Tables, func: Processor, file: JsonFile): Result<Tables> {
    Execute(t, FilePlan(func, file))
  }

  /** What a file processor left: on success exactly the state r predicts; on
      failure r's error (the uncommitted state it leaves is not described). */
  predicate Reached(r: Result<Tables>, after: Tables, err: Option<LoadError>) {
    match r
    case Ok(t) => err == None && after == t
    case Err(e) => err == Some(e)
  }

  // ---------------------------------------------------------------------------
  // The file processors
  // ---------------------------------------------------------------------------

  method ProcessSongFile(db: Database, records: seq<SongRecord>, columns: set<string>) returns (err: Option<LoadError>)
    modifies db
    ensures db.committed == old(db.committed)
    ensures Reached(Execute(old(db.Live()), SongFilePlan(records, columns)), db.Live(), err)
  {
    if !(SongColumns <= columns) {
      return Some(MissingColumn);
    }
    if records == [] {
      return Some(EmptyFile);
    }
    var first := CleanSong(records[0]);
    ghost var plan := SongFilePlan(records, columns).value;
    ghost var t0 := db.Live();
    err := db.ExecuteSongInsert(SongParamsOf(first));
    if err.Some? {
      return;
    }
    ghost var t1 := db.Live();
    assert Run(t0, plan) == Run(t1, plan[1..]);
    assert Run(t1, plan[1..]) == Step(t1, plan[1]);
    if !(ArtistColumns <= columns) {
      return Some(MissingColumn);
    }
    err := db.ExecuteArtistInsert(ArtistParamsOf(first));
  }

  /** The time_table_insert loop: never fails (ON CONFLICT DO NOTHING, no NOT NULL column left null). */
  method InsertTimeRows(db: Database, plays: seq<LogRecord>)
    modifies db
    ensures db.committed == old(db.committed)
    ensures Run(old(db.Live()), TimeStatements(plays)) == Ok(db.Live())
  {
    ghost var plan := TimeStatements(plays);
    ghost var outcome := Run(db.Live(), plan);
    var i := 0;
    while i < |plays|
      invariant 0 <= i <= |plays|
      invariant db.committed == old(db.committed)
      invariant Run(db.Live(), plan[i..]) == outcome
    {
      assert plan[i..][0] == TimeInsert(TimeRowOf(plays[i].ts)) && plan[i..][1..] == plan[i + 1..];
      db.ExecuteTimeInsert(TimeRowOf(plays[i].ts));
      i := i + 1;
    }
    assert plan[|plays|..] == [];
  }

  /** The user_table_insert loop; a rejected row aborts it. */
  method InsertUserRows(db: Database, plays: seq<LogRecord>) returns (err: Option<LoadError>)
    modifies db
    ensures db.committed == old(db.committed)
    ensures Reached(Run(old(db.Live()), UserStatements(plays)), db.Live(), err)
  {
    ghost var plan := UserStatements(plays);
    ghost var outcome := Run(db.Live(), plan);
    var i := 0;
    while i < |plays|
      invariant 0 <= i <= |plays|
      invariant db.committed == old(db.committed)
      invariant Run(db.Live(), plan[i..]) == outcome
    {
      assert plan[i..][0] == UserInsert(UserParamsOf(plays[i])) && plan[i..][1..] == plan[i + 1..];
      err := db.ExecuteUserInsert(UserParamsOf(plays[i]));
      if err.Some? {
        return;
      }
      i := i + 1;
    }
    assert plan[|plays|..] == [];
    err := None;
  }

  /** The songplay loop: song_select, fetchone, then songplay_table_insert,
      event by event; a rejected row aborts it. */
  method LoadSongplays(db: Database, plays: seq<LogRecord>) returns (err: Option<LoadError>)
    modifies db
    ensures db.committed == old(db.committed)
    ensures Reached(Run(old(db.Live()), LoadStatements(plays)), db.Live(), err)
  {
    ghost var plan := LoadStatements(plays);
    ghost var outcome := Run(db.Live(), plan);
    var i := 0;
    while i < |plays|
      invariant 0 <= i <= |plays|
      invariant db.committed == old(db.committed)
      invariant Run(db.Live(), plan[i..]) == outcome
    {
      var e := plays[i];
      assert plan[i..][0] == SongplayLoad(e) && plan[i..][1..] == plan[i + 1..];
      var hit := FetchOne(SongSelect(db.Live(), e.song, e.artist, e.length));
      err := db.ExecuteSongplayInsert(SongplayParamsOf(e, hit));
      if err.Some? {
        return;
      }
      i := i + 1;
    }
    assert plan[|plays|..] == [];
    err := None;
  }

  /** The user loop and the songplay loop of process_log_file, each raising
      where it begins when a column it reads is absent. */
  method UserAndSongplayPhases(db: Database, plays: seq<LogRecord>, columns: set<string>)
    returns (err: Option<LoadError>)
    modifies db
    ensures db.committed == old(db.committed)
    ensures Reached(Run(old(db.Live()), UserPhase(plays, columns) + LoadPhase(plays, columns)), db.Live(), err)
  {
    RunAppend(db.Live(), UserPhase(plays, columns), LoadPhase(plays, columns));
    if !(UserColumns <= columns) {
      return Some(MissingColumn);
    }
    err := InsertUserRows(db, plays);
    if err.Some? {
      return;
    }
    if plays != [] && !(SongplayColumns <= columns) {
      return Some(MissingColumn);
    }
    err := LoadSongplays(db, plays);
  }

  /** process_log_file: the play events, their time rows, their users, then their songplays. */
  method ProcessLogFile(db: Database, records: seq<LogRecord>, columns: set<string>) returns (err: Option<LoadError>)
    modifies db
    ensures db.committed == old(db.committed)
    ensures Reached(Execute(old(db.Live()), LogFilePlan(records, columns)), db.Live(), err)
  {
    if "page" !in columns {
      return Some(MissingColumn);
    }
    var plays := NextSongs(records);
    if "ts" !in columns {
      return Some(MissingColumn);
    }
    if !TimestampsInRange(plays) {
      return Some(TimestampOutOfBounds);
    }
    ghost var times, rest := TimeStatements(plays), UserPhase(plays, columns) + LoadPhase(plays, columns);
    assert LogFilePlan(records, columns) == Ok(times + UserPhase(plays, columns) + LoadPhase(plays, columns));
    assert times + UserPhase(plays, columns) + LoadPhase(plays, columns) == times + rest;
    RunAppend(db.Live(), times, rest);
    InsertTimeRows(db, plays);
    err := UserAndSongplayPhases(db, plays, columns);
  }

  /** func(cur, filepath) on one parsed file: the columns it reads must be present. */
  method ProcessFile(db: Database, func: Processor, file: JsonFile) returns (err: Option<LoadError>)
    modifies db
    ensures db.committed == old(db.committed)
    ensures Reached(FileEffect(old(db.Live()), func, file), db.Live(), err)
  {
    match file {
      case Unparseable =>
        err := Some(ParseError);
      case SongFile(records, columns) =>
        if func == SongProcessor {
          err := ProcessSongFile(db, records, columns);
        } else {
          err := Some(MissingColumn);
        }
      case LogFile(records, columns) =>
        if func == LogProcessor {
          err := ProcessLogFile(db, records, columns);
        } else {
          err := Some(MissingColumn);
        }
    }
  }

  // ---------------------------------------------------------------------------
  // The batch driver
  // ---------------------------------------------------------------------------

  /** How a batch ends: every file committed, or halted at file `at` with files
      0 .. at-1 committed (state `committed`) and file `at` failing. */
  datatype BatchOutcome =
    | Completed(final: Tables)
    | Halted(at: nat, committed: Tables, error: LoadError)

  function Shift(b: BatchOutcome, k: nat): BatchOutcome {
    match b
    case Completed(f) => Completed(f)
    case Halted(at, c, e) => Halted(at + k, c, e)
  }

  /** The files processed in order from state t, one transaction each, stopping at the first failure. */
  function RunBatch(t: Tables, func: Processor, files: seq<JsonFile>): (b: BatchOutcome)
    ensures b.Halted? ==> b.at < |files|
    decreases |files|
  {
    if files == [] then Completed(t)
    else
      match FileEffect(t, func, files[0])
      case Err(e) => Halted(0, t, e)
      case Ok(t') => Shift(RunBatch(t', func, files[1..]), 1)
  }

  lemma {:induction false} RunBatchAppend(t: Tables, func: Processor, a: seq<JsonFile>, b: seq<JsonFile>)
    ensures RunBatch(t, func, a + b) ==
      match RunBatch(t, func, a)
      case Completed(c) => Shift(RunBatch(c, func, b), |a|)
      case Halted(at, c, e) => Halted(at, c, e)
    decreases |a|
  {
    if a == [] {
      assert a + b == b;
      match RunBatch(t, func, b)
      case Completed(_) =>
      case Halted(_, _, _) =>
    } else {
      assert (a + b)[0] == a[0];
      assert (a + b)[1..] == a[1..] + b;
      match FileEffect(t, func, a[0]) {
        case Err(e) =>
        case Ok(t') =>
          RunBatchAppend(t', func, a[1..], b);
          match RunBatch(t', func, a[1..]) {
            case Completed(c) =>
              match RunBatch(c, func, b) {
                case Completed(_) =>
                case Halted(_, _, _) =>
              }
            case Halted(_, _, _) =>
          }
      }
    }
  }

  /** A batch of one file is that file's transaction. */
  lemma RunBatchOne(t: Tables, func: Processor, file: JsonFile)
    ensures RunBatch(t, func, [file]) ==
      match FileEffect(t, func, file)
      case Err(e) => Halted(0, t, e)
      case Ok(t') => Completed(t')
  {
    assert [file][1..] == [];
  }

  /** A batch whose first i files committed, and whose file i succeeds, commits i + 1 files. */
  lemma BatchExtends(t0: Tables, func: Processor, files: seq<JsonFile>, i: nat, t: Tables)
    requires i < |files| && RunBatch(t0, func, files[..i]) == Completed(t)
    requires FileEffect(t, func, files[i]).Ok?
    ensures RunBatch(t0, func, files[..i + 1]) == Completed(FileEffect(t, func, files[i]).value)
  {
    assert files[..i + 1] == files[..i] + [files[i]];
    RunBatchAppend(t0, func, files[..i], [files[i]]);
    RunBatchOne(t, func, files[i]);
  }

  /** Files after the one a batch halts at change nothing. */
  lemma HaltedIgnoresRest(t0: Tables, func: Processor, a: seq<JsonFile>, b: seq<JsonFile>)
    requires RunBatch(t0, func, a).Halted?
    ensures RunBatch(t0, func, a + b) == RunBatch(t0, func, a)
  {
    RunBatchAppend(t0, func, a, b);
  }

  /** A batch whose first i files committed, and whose file i fails, halts
      within its first i + 1 files. */
  lemma PrefixHaltsAt(t0: Tables, func: Processor, files: seq<JsonFile>, i: nat, t: Tables)
    requires i < |files| && RunBatch(t0, func, files[..i]) == Completed(t)
    requires FileEffect(t, func, files[i]).Err?
    ensures RunBatch(t0, func, files[..i + 1]) == Halted(i, t, FileEffect(t, func, files[i]).error)
  {
    assert files[..i + 1] == files[..i] + [files[i]];
    RunBatchAppend(t0, func, files[..i], [files[i]]);
    RunBatchOne(t, func, files[i]);
  }

  /** A batch whose first i files committed, and whose file i fails, halts there. */
  lemma BatchHaltsAt(t0: Tables, func: Processor, files: seq<JsonFile>, i: nat, t: Tables)
    requires i < |files| && RunBatch(t0, func, files[..i]) == Completed(t)
    requires FileEffect(t, func, files[i]).Err?
    ensures RunBatch(t0, func, files) == Halted(i, t, FileEffect(t, func, files[i]).error)
  {
    PrefixHaltsAt(t0, func, files, i, t);
    assert files == files[..i + 1] + files[i + 1..];
    HaltedIgnoresRest(t0, func, files[..i + 1], files[i + 1..]);
  }

  /** A batch all of whose files committed completes. */
  lemma BatchCompletes(t0: Tables, func: Processor, files: seq<JsonFile>, t: Tables)
    requires RunBatch(t0, func, files[..|files|]) == Completed(t)
    ensures RunBatch(t0, func, files) == Completed(t)
  {
    assert files[..|files|] == files;
  }

  /** The progress lines printed after each commit: "i/num_files", i from 1. */
  function Progress(k: nat, numFiles: nat): (r: seq<(nat, nat)>)
    ensures |r| == k
    ensures forall i :: 0 <= i < k ==> r[i] == (i + 1, numFiles)
  {
    if k == 0 then [] else Progress(k - 1, numFiles) + [(k, numFiles)]
  }

  /** What process_data leaves after batch outcome b: the state committed, the
      progress lines printed, and the error that escaped (if any). */
  predicate Reported(b: BatchOutcome, numFiles: nat, committed: Tables, reports: seq<(nat, nat)>, err: Option<LoadError>) {
    match b
    case Completed(f) => err == None && committed == f && reports == Progress(numFiles, numFiles)
    case Halted(at, c, e) => err == Some(e) && committed == c && reports == Progress(at, numFiles)
  }

  /** One iteration of process_data: the file's statements, then conn.commit()
      when they all succeeded; on failure nothing new is committed. */
  method ProcessAndCommit(db: Database, func: Processor, file: JsonFile) returns (err: Option<LoadError>)
    modifies db
    ensures match FileEffect(old(db.Live()), func, file)
      case Ok(t) => err == None && db.committed == t && db.Live() == t
      case Err(e) => err == Some(e) && db.committed == old(db.committed)
  {
    err := ProcessFile(db, func, file);
    if err.None? {
      db.Commit();
    }
  }

  /** Iteration i of process_data's loop, seen from the batch: after files
      0 .. i-1 committed, file i either extends the committed prefix (nothing
      left pending) or halts the batch at i with its error. */
  method ProcessNext(db: Database, func: Processor, files: seq<JsonFile>, i: nat, ghost t0: Tables)
    returns (err: Option<LoadError>)
    requires i < |files| && RunBatch(t0, func, files[..i]) == Completed(db.Live())
    requires db.committed == db.Live()
    modifies db
    ensures err.None? ==> RunBatch(t0, func, files[..i + 1]) == Completed(db.Live()) && db.committed == db.Live()
    ensures err.Some? ==> RunBatch(t0, func, files) == Halted(i, db.committed, err.value)
  {
    ghost var before := db.Live();
    err := ProcessAndCommit(db, func, files[i]);
    if err.Some? {
      BatchHaltsAt(t0, func, files, i, before);
    } else {
      BatchExtends(t0, func, files, i, before);
    }
  }

  /** process_data over files already found and parsed: each file through func,
      then a commit and a progress report; the first failure ends the batch. */
  method ProcessData(db: Database, files: seq<JsonFile>, func: Processor)
    returns (reports: seq<(nat, nat)>, err: Option<LoadError>)
    requires db.Live() == db.committed
    modifies db
    ensures Reported(RunBatch(old(db.Live()), func, files), |files|, db.committed, reports, err)
    ensures RunBatch(old(db.Live()), func, files).Completed? ==> db.Live() == db.committed
  {
    ghost var t0 := db.Live();
    var numFiles := |files|;
    reports := [];
    var i := 0;
    while i < numFiles
      invariant 0 <= i <= numFiles
      invariant RunBatch(t0, func, files[..i]) == Completed(db.Live())
      invariant db.committed == db.Live()
      invariant reports == Progress(i, numFiles)
    {
      err := ProcessNext(db, func, files, i, t0);
      if err.Some? {
        return;
      }
      reports := reports + [(i + 1, numFiles)];
      i := i + 1;
    }
    BatchCompletes(t0, func, files, db.Live());
    err := None;
  }
}
