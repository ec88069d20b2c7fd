/** What the load guarantees across statements, files and batches: the table
    invariants hold throughout, each log file issues its three phases in order,
    only play events count, users end with their last row, time rows are
    idempotent, a song file writes only its first record, a failing file halts
    the batch behind a committed prefix, and song_select as written never
    resolves a play when the fact table starts empty. */
module LoadProperties {
  import opened Common
  import opened SqlQueries
  import opened Transform
  import opened Etl
  import opened UpsertProperties

  // ---------------------------------------------------------------------------
  // The table invariants hold after every statement, file and batch
  // ---------------------------------------------------------------------------

  lemma StepConsistent(t: Tables, s: Statement)
    requires Consistent(t)
    ensures Step(t, s).Ok? ==> Consistent(Step(t, s).value)
  {
    match s
    case SongInsert(p) => SongInsertConsistent(t, p);
    case ArtistInsert(p) => ArtistInsertConsistent(t, p);
    case TimeInsert(row) => TimeInsertConsistent(t, row);
    case UserInsert(p) => UserInsertConsistent(t, p);
    case SongplayLoad(e) => SongplayInsertConsistent(t, SongplayParamsOf(e, Lookup(t, e)));
    case Abort(_) =>
  }

  lemma {:induction false} RunConsistent(t: Tables, plan: seq<Statement>)
    requires Consistent(t)
    ensures Run(t, plan).Ok? ==> Consistent(Run(t, plan).value)
    decreases |plan|
  {
    if plan != [] {
      StepConsistent(t, plan[0]);
      if Step(t, plan[0]).Ok? {
        RunConsistent(Step(t, plan[0]).value, plan[1..]);
      }
    }
  }

  lemma FileConsistent(t: Tables, func: Processor, file: JsonFile)
    requires Consistent(t)
    ensures FileEffect(t, func, file).Ok? ==> Consistent(FileEffect(t, func, file).value)
  {
    if FilePlan(func, file).Ok? {
      RunConsistent(t, FilePlan(func, file).value);
    }
  }

  /** Every state a batch commits is consistent. */
  lemma {:induction false} BatchConsistent(t: Tables, func: Processor, files: seq<JsonFile>)
    requires Consistent(t)
    ensures match RunBatch(t, func, files)
      case Completed(f) => Consistent(f)
      case Halted(_, c, _) => Consistent(c)
    decreases |files|
  {
    if files != [] {
      FileConsistent(t, func, files[0]);
      if FileEffect(t, func, files[0]).Ok? {
        BatchConsistent(FileEffect(t, func, files[0]).value, func, files[1..]);
      }
    }
  }

  // ---------------------------------------------------------------------------
  // song_select as written never resolves a play
  // ---------------------------------------------------------------------------

  /** A statement run on a state without resolved plays adds none. */
  lemma StepKeepsUnresolved(t: Tables, s: Statement)
    requires AllUnresolved(t)
    ensures Step(t, s).Ok? ==> AllUnresolved(Step(t, s).value)
  {
    if s.SongplayLoad? {
      var e := s.event;
      UnresolvedSelectsNothing(t, e.song, e.artist, e.length);
      var p := SongplayParamsOf(e, Lookup(t, e));
      if InsertSongplay(t, p).Ok? {
        var t' := InsertSongplay(t, p).value;
        assert forall i :: 0 <= i < |t.songplays| ==> t'.songplays[i] == t.songplays[i];
      }
    }
  }

  lemma {:induction false} RunKeepsUnresolved(t: Tables, plan: seq<Statement>)
    requires AllUnresolved(t)
    ensures Run(t, plan).Ok? ==> AllUnresolved(Run(t, plan).value)
    decreases |plan|
  {
    if plan != [] {
      StepKeepsUnresolved(t, plan[0]);
      if Step(t, plan[0]).Ok? {
        RunKeepsUnresolved(Step(t, plan[0]).value, plan[1..]);
      }
    }
  }

  /** Starting from a fact table whose rows all have NULL song_id and artist_id
      (an empty one in particular), every state a batch commits is the same:
      no play is ever linked to a song or an artist. */
  lemma {:induction false} BatchNeverResolves(t: Tables, func: Processor, files: seq<JsonFile>)
    requires AllUnresolved(t)
    ensures match RunBatch(t, func, files)
      case Completed(f) => AllUnresolved(f)
      case Halted(_, c, _) => AllUnresolved(c)
    decreases |files|
  {
    if files != [] {
      var file := files[0];
      if FilePlan(func, file).Ok? {
        RunKeepsUnresolved(t, FilePlan(func, file).value);
      }
      if FileEffect(t, func, file).Ok? {
        BatchNeverResolves(FileEffect(t, func, file).value, func, files[1..]);
      }
    }
  }

  /** The event names a stored song by its title, its artist's name and its
      duration, yet the lookup finds nothing and the play stores NULL ids. */
  lemma LoadedSongNotFound(t: Tables, e: LogRecord, songId: string)
    requires AllUnresolved(t)
    requires songId in t.songs && t.songs[songId].artistId in t.artists
    requires e.song == Some(t.songs[songId].title)
    requires e.artist == Some(t.artists[t.songs[songId].artistId].name)
    requires e.length == Some(t.songs[songId].duration)
    ensures Lookup(t, e) == None
    ensures Step(t, SongplayLoad(e)).Ok? ==>
      var t' := Step(t, SongplayLoad(e)).value;
      t'.songplays[|t.songplays|].songId == None && t'.songplays[|t.songplays|].artistId == None
  {
    UnresolvedSelectsNothing(t, e.song, e.artist, e.length);
  }

  // ---------------------------------------------------------------------------
  // Log files
  // ---------------------------------------------------------------------------

  lemma {:induction false} NextSongsAppend(a: seq<LogRecord>, b: seq<LogRecord>)
    ensures NextSongs(a + b) == NextSongs(a) + NextSongs(b)
    decreases |a|
  {
    if a == [] {
      assert a + b == b;
    } else {
      assert (a + b)[1..] == a[1..] + b;
      NextSongsAppend(a[1..], b);
    }
  }

  /** An event whose page is not 'NextSong' (or is missing) is dropped by the filter. */
  lemma SkippedEventDropped(pre: seq<LogRecord>, e: LogRecord, post: seq<LogRecord>)
    requires !IsNextSong(e)
    ensures NextSongs(pre + [e] + post) == NextSongs(pre + post)
  {
    assert [e][1..] == [];
    NextSongsAppend(pre + [e], post);
    NextSongsAppend(pre, [e]);
    NextSongsAppend(pre, post);
    calc {
      NextSongs(pre + [e] + post);
      NextSongs(pre + [e]) + NextSongs(post);
      NextSongs(pre) + NextSongs([e]) + NextSongs(post);
      { assert NextSongs([e]) == []; assert NextSongs(pre) + [] == NextSongs(pre); }
      NextSongs(pre) + NextSongs(post);
    }
  }

  /** Such an event changes nothing a log file issues. */
  lemma SkippedEventIgnored(pre: seq<LogRecord>, e: LogRecord, post: seq<LogRecord>)
    requires !IsNextSong(e)
    ensures LogStatements(NextSongs(pre + [e] + post)) == LogStatements(NextSongs(pre + post))
  {
    SkippedEventDropped(pre, e, post);
  }

  /** The time phase is its first insert followed by the time phase of the remaining events. */
  lemma TimePhaseCons(t: Tables, plays: seq<LogRecord>)
    requires plays != []
    ensures Run(t, TimeStatements(plays)) ==
            Run(InsertTime(t, TimeRowOf(plays[0].ts)), TimeStatements(plays[1..]))
  {
    assert TimeStatements(plays)[1..] == TimeStatements(plays[1..]);
  }

  /** The user phase is the user phase of all but the last event, then the last event's upsert. */
  lemma UserPhaseSnoc(t: Tables, init: seq<LogRecord>, x: LogRecord)
    ensures Run(t, UserStatements(init + [x])) ==
            Then(Run(t, UserStatements(init)), [UserInsert(UserParamsOf(x))])
    ensures Run(t, UserStatements(init)).Ok? ==>
            Run(t, UserStatements(init + [x])) == InsertUser(Run(t, UserStatements(init)).value, UserParamsOf(x))
  {
    var s := UserInsert(UserParamsOf(x));
    assert UserStatements(init + [x]) == UserStatements(init) + [s];
    RunAppend(t, UserStatements(init), [s]);
    if Run(t, UserStatements(init)).Ok? {
      RunSingle(Run(t, UserStatements(init)).value, s);
    }
  }

  /** The time phase never fails. Afterwards every event's start_time is in
      dim_time (TimePhaseKeys: and no other new key); a start_time that was
      new holds that event's derived row, one that was present keeps its row;
      no other table changes. */
  lemma {:induction false} TimePhase(t: Tables, plays: seq<LogRecord>)
    ensures Run(t, TimeStatements(plays)).Ok?
    ensures var t' := Run(t, TimeStatements(plays)).value;
      && t'.(times := t.times) == t
      && (forall k :: k in t.times ==> k in t'.times && t'.times[k] == t.times[k])
      && (forall i :: 0 <= i < |plays| ==> plays[i].ts in t'.times)
      && (forall i :: 0 <= i < |plays| && plays[i].ts !in t.times ==>
            t'.times[plays[i].ts] == TimeRowOf(plays[i].ts))
    decreases |plays|
  {
    if plays != [] {
      var t1 := InsertTime(t, TimeRowOf(plays[0].ts));
      TimePhaseCons(t, plays);
      TimePhase(t1, plays[1..]);
      var t' := Run(t1, TimeStatements(plays[1..])).value;
      forall i | 0 <= i < |plays| && plays[i].ts !in t.times
        ensures t'.times[plays[i].ts] == TimeRowOf(plays[i].ts)
      {
        if i > 0 && plays[i].ts != plays[0].ts {
          assert plays[i] == plays[1..][i - 1];
        }
      }
      forall i | 0 <= i < |plays|
        ensures plays[i].ts in t'.times
      {
        if i > 0 {
          assert plays[i] == plays[1..][i - 1];
        }
      }
    }
  }

  /** The start_times of the play events. */
  function Stamps(plays: seq<LogRecord>): set<int> {
    set i | 0 <= i < |plays| :: plays[i].ts
  }

  /** The first event's start_time, then those of the rest. */
  lemma StampsCons(plays: seq<LogRecord>)
    requires plays != []
    ensures Stamps(plays) == {plays[0].ts} + Stamps(plays[1..])
  {
    forall x | x in Stamps(plays) ensures x in {plays[0].ts} + Stamps(plays[1..]) {
      var i :| 0 <= i < |plays| && plays[i].ts == x;
      if i > 0 {
        assert plays[1..][i - 1] == plays[i];
      }
    }
    forall x | x in Stamps(plays[1..]) ensures x in Stamps(plays) {
      var i :| 0 <= i < |plays[1..]| && plays[1..][i].ts == x;
      assert plays[i + 1] == plays[1..][i];
    }
  }

  /** The time phase adds exactly the events' start_times to dim_time's keys. */
  lemma {:induction false} TimePhaseKeys(t: Tables, plays: seq<LogRecord>)
    ensures Run(t, TimeStatements(plays)).Ok? ==>
      Run(t, TimeStatements(plays)).value.times.Keys == t.times.Keys + Stamps(plays)
    decreases |plays|
  {
    if plays == [] {
      assert Stamps(plays) == {};
    } else {
      var t1 := InsertTime(t, TimeRowOf(plays[0].ts));
      TimePhaseCons(t, plays);
      TimeInsertEffect(t, TimeRowOf(plays[0].ts));
      TimePhaseKeys(t1, plays[1..]);
      StampsCons(plays);
    }
  }

  /** Re-running the time phase on a state that already holds every start_time changes nothing. */
  lemma {:induction false} TimePhaseNoop(t: Tables, plays: seq<LogRecord>)
    requires forall i :: 0 <= i < |plays| ==> plays[i].ts in t.times
    ensures Run(t, TimeStatements(plays)) == Ok(t)
    decreases |plays|
  {
    if plays != [] {
      assert InsertTime(t, TimeRowOf(plays[0].ts)) == t;
      TimePhaseCons(t, plays);
      TimePhaseNoop(t, plays[1..]);
    }
  }

  /** The time phase is idempotent: running it twice equals running it once. */
  lemma TimePhaseIdempotent(t: Tables, plays: seq<LogRecord>)
    ensures Run(t, TimeStatements(plays)).Ok?
    ensures var t' := Run(t, TimeStatements(plays)).value;
      Run(t', TimeStatements(plays)) == Ok(t')
  {
    TimePhase(t, plays);
    TimePhaseNoop(Run(t, TimeStatements(plays)).value, plays);
  }

  /** The user phase fails exactly when some event's user row has a NULL in a
      NOT NULL column. */
  lemma {:induction false} UserPhaseFails(t: Tables, plays: seq<LogRecord>)
    ensures Run(t, UserStatements(plays)).Err? <==>
      exists i :: 0 <= i < |plays| && CheckUser(UserParamsOf(plays[i])).Err?
    decreases |plays|
  {
    if plays != [] {
      var init, x := plays[..|plays| - 1], plays[|plays| - 1];
      assert plays == init + [x];
      UserPhaseSnoc(t, init, x);
      UserPhaseFails(t, init);
      if Run(t, UserStatements(init)).Err? {
        var i :| 0 <= i < |init| && CheckUser(UserParamsOf(init[i])).Err?;
        assert plays[i] == init[i];
      } else if CheckUser(UserParamsOf(x)).Ok? {
        assert forall i :: 0 <= i < |init| ==> plays[i] == init[i];
      }
    }
  }

  /** A user whose last event in the file is event i. */
  predicate LastOfUser(plays: seq<LogRecord>, i: int) {
    0 <= i < |plays| && forall j :: i < j < |plays| ==> plays[j].userId != plays[i].userId
  }

  /** No play event belongs to user k. */
  predicate NoPlayOf(plays: seq<LogRecord>, k: int) {
    forall i :: 0 <= i < |plays| ==> plays[i].userId != Some(k)
  }

  /** The user phase leaves a user without play events as it was: present
      with the same row, or absent. */
  lemma {:induction false} UserPhaseKeepsOthers(t: Tables, plays: seq<LogRecord>)
    ensures Run(t, UserStatements(plays)).Ok? ==>
      var t' := Run(t, UserStatements(plays)).value;
      forall k :: NoPlayOf(plays, k) ==>
        (k in t'.users <==> k in t.users) && (k in t.users ==> t'.users[k] == t.users[k])
    decreases |plays|
  {
    if plays != [] && Run(t, UserStatements(plays)).Ok? {
      var init, x := plays[..|plays| - 1], plays[|plays| - 1];
      assert plays == init + [x];
      UserPhaseSnoc(t, init, x);
      UserPhaseKeepsOthers(t, init);
      var t1 := Run(t, UserStatements(init)).value;
      UserInsertEffect(t1, UserParamsOf(x));
      forall k | NoPlayOf(plays, k) ensures NoPlayOf(init, k) && x.userId != Some(k) {
        forall i | 0 <= i < |init| ensures init[i].userId != Some(k) {
          assert init[i] == plays[i];
        }
        assert x == plays[|plays| - 1];
      }
    }
  }

  /** When the user phase succeeds, the stored row of every user is the one of
      that user's last event (UserPhaseKeepsOthers: other users keep theirs),
      and no other table changes. */
  lemma {:induction false} UserPhaseLastWins(t: Tables, plays: seq<LogRecord>)
    ensures Run(t, UserStatements(plays)).Ok? ==>
      var t' := Run(t, UserStatements(plays)).value;
      && t'.(users := t.users) == t
      && forall i :: LastOfUser(plays, i) ==>
           plays[i].userId.Some? && plays[i].userId.value in t'.users
           && CheckUser(UserParamsOf(plays[i])) == Ok(t'.users[plays[i].userId.value])
    decreases |plays|
  {
    if plays != [] && Run(t, UserStatements(plays)).Ok? {
      var init, x := plays[..|plays| - 1], plays[|plays| - 1];
      assert plays == init + [x];
      UserPhaseSnoc(t, init, x);
      UserPhaseLastWins(t, init);
      var t1 := Run(t, UserStatements(init)).value;
      var t' := Run(t, UserStatements(plays)).value;
      UserInsertEffect(t1, UserParamsOf(x));
      var key := x.userId.value;
      forall i | LastOfUser(plays, i)
        ensures plays[i].userId.Some? && plays[i].userId.value in t'.users
        ensures CheckUser(UserParamsOf(plays[i])) == Ok(t'.users[plays[i].userId.value])
      {
        if i < |init| {
          assert plays[i] == init[i];
          assert LastOfUser(init, i);
          var k := plays[i].userId.value;
          assert k != key;
          assert k in t1.users - {key};
        }
      }
    }
  }

  /** Once a log file's plan exists, its effect is the time phase (which
      succeeds), then the user loop, then the songplay loop. */
  lemma LogFilePhases(t: Tables, records: seq<LogRecord>, columns: set<string>)
    requires LogFilePlan(records, columns).Ok?
    ensures var plays := NextSongs(records);
      && Run(t, TimeStatements(plays)).Ok?
      && FileEffect(t, LogProcessor, LogFile(records, columns)) ==
         Then(Run(Run(t, TimeStatements(plays)).value, UserPhase(plays, columns)), LoadPhase(plays, columns))
  {
    var plays := NextSongs(records);
    var times, users, loads := TimeStatements(plays), UserPhase(plays, columns), LoadPhase(plays, columns);
    assert LogFilePlan(records, columns).value == times + users + loads;
    assert times + users + loads == times + (users + loads);
    RunAppend(t, times, users + loads);
    TimePhase(t, plays);
    RunAppend(Run(t, times).value, users, loads);
  }

  /** The user loop (or the KeyError before it) fails when some event's user
      row has a NULL in a NOT NULL column. */
  lemma UserPhaseRejectsNullUser(t: Tables, plays: seq<LogRecord>, columns: set<string>, i: nat)
    requires i < |plays| && CheckUser(UserParamsOf(plays[i])).Err?
    ensures Run(t, UserPhase(plays, columns)).Err?
  {
    if UserColumns <= columns {
      UserPhaseFails(t, plays);
    } else {
      RunSingle(t, Abort(MissingColumn));
    }
  }

  /** A play event with a NULL user_id, first_name, last_name or level makes the
      whole log file fail, whatever its columns: none of its statements is committed. */
  lemma LogFileRejectsNullUser(t: Tables, records: seq<LogRecord>, columns: set<string>, i: nat)
    requires i < |NextSongs(records)| && CheckUser(UserParamsOf(NextSongs(records)[i])).Err?
    ensures FileEffect(t, LogProcessor, LogFile(records, columns)).Err?
  {
    var plays := NextSongs(records);
    if LogFilePlan(records, columns).Ok? {
      LogFilePhases(t, records, columns);
      UserPhaseRejectsNullUser(Run(t, TimeStatements(plays)).value, plays, columns, i);
    }
  }

  /** Without a user column the user phase is the KeyError alone. */
  lemma UserPhaseMissingColumn(t: Tables, plays: seq<LogRecord>, columns: set<string>)
    requires !(UserColumns <= columns)
    ensures Run(t, UserPhase(plays, columns)) == Err(MissingColumn)
  {
    RunSingle(t, Abort(MissingColumn));
  }

  /** Without a column the songplay loop reads, the loop fails on its first event. */
  lemma LoadPhaseMissingColumn(t: Tables, plays: seq<LogRecord>, columns: set<string>)
    requires plays != [] && !(SongplayColumns <= columns)
    ensures Run(t, LoadPhase(plays, columns)) == Err(MissingColumn)
  {
    RunSingle(t, Abort(MissingColumn));
  }

  /** A log file without a page, ts or user column fails with MissingColumn
      whatever its records (once its timestamps convert); one without a column
      the songplay loop reads fails as soon as it has a play event. */
  lemma LogFileMissingColumn(t: Tables, records: seq<LogRecord>, columns: set<string>)
    ensures "page" !in columns || "ts" !in columns ==>
      FileEffect(t, LogProcessor, LogFile(records, columns)) == Err(MissingColumn)
    ensures TimestampsInRange(NextSongs(records)) && !(UserColumns <= columns) ==>
      FileEffect(t, LogProcessor, LogFile(records, columns)) == Err(MissingColumn)
    ensures NextSongs(records) != [] && !(SongplayColumns <= columns) ==>
      FileEffect(t, LogProcessor, LogFile(records, columns)).Err?
  {
    LogFilePlanShape(records, columns);
    if LogFilePlan(records, columns).Ok? {
      LogFilePhases(t, records, columns);
      var plays := NextSongs(records);
      var t1 := Run(t, TimeStatements(plays)).value;
      if !(UserColumns <= columns) {
        UserPhaseMissingColumn(t1, plays, columns);
      } else if plays != [] && !(SongplayColumns <= columns) {
        var users := Run(t1, UserPhase(plays, columns));
        if users.Ok? {
          LoadPhaseMissingColumn(users.value, plays, columns);
        }
      }
    }
  }

  /** The time and user loops hold no songplay load; the songplay loop holds one per play event. */
  lemma {:induction false} LoadsOfPhases(plays: seq<LogRecord>)
    ensures Loads(TimeStatements(plays)) == 0
    ensures Loads(UserStatements(plays)) == 0
    ensures Loads(LoadStatements(plays)) == |plays|
    decreases |plays|
  {
    if plays != [] {
      assert TimeStatements(plays)[1..] == TimeStatements(plays[1..]);
      assert UserStatements(plays)[1..] == UserStatements(plays[1..]);
      assert LoadStatements(plays)[1..] == LoadStatements(plays[1..]);
      LoadsOfPhases(plays[1..]);
    }
  }

  /** The songplay loop writes only the fact table and its sequence. */
  lemma {:induction false} LoadPhaseKeepsDimensions(t: Tables, plays: seq<LogRecord>)
    ensures Run(t, LoadStatements(plays)).Ok? ==>
      Run(t, LoadStatements(plays)).value.(songplays := t.songplays, serial := t.serial) == t
    decreases |plays|
  {
    if plays != [] {
      var plan := LoadStatements(plays);
      assert plan[0] == SongplayLoad(plays[0]);
      assert plan[1..] == LoadStatements(plays[1..]);
      match Step(t, plan[0]) {
        case Err(_) =>
        case Ok(t1) => LoadPhaseKeepsDimensions(t1, plays[1..]);
      }
    }
  }

  /** Fact row `row`, numbered id, records play event e: its start_time,
      user, level, session, location and agent are the event's, and a
      resolved song_id is the event's track title (the lookup as written). */
  predicate RecordsPlay(row: SongplayRow, id: int, e: LogRecord) {
    && row.songplayId == id && row.startTime == e.ts
    && e.userId == Some(row.userId) && e.level == Some(row.level)
    && e.sessionId == Some(row.sessionId) && e.location == Some(row.location)
    && e.userAgent == Some(row.userAgent)
    && (row.songId.Some? ==> row.songId == e.song)
  }

  /** State t' holds t's fact rows followed by one row per play event, in
      event order, numbered by the sequence from where t left it. */
  predicate AppendsPlays(t: Tables, t': Tables, plays: seq<LogRecord>) {
    && |t'.songplays| == |t.songplays| + |plays|
    && t'.songplays[..|t.songplays|] == t.songplays
    && t'.serial == t.serial + |plays|
    && forall j :: 0 <= j < |plays| ==>
         RecordsPlay(t'.songplays[|t.songplays| + j], t.serial + j + 1, plays[j])
  }

  /** The songplay loop is the first event's load, then the loop over the rest. */
  lemma LoadPhaseCons(t: Tables, plays: seq<LogRecord>)
    requires plays != []
    ensures Run(t, LoadStatements(plays)) ==
            Then(InsertSongplay(t, SongplayParamsOf(plays[0], Lookup(t, plays[0]))), LoadStatements(plays[1..]))
  {
    assert LoadStatements(plays)[1..] == LoadStatements(plays[1..]);
  }

  /** One successful load appends the row recording its event. */
  lemma LoadStepRow(t: Tables, e: LogRecord)
    ensures InsertSongplay(t, SongplayParamsOf(e, Lookup(t, e))).Ok? ==>
      AppendsPlays(t, InsertSongplay(t, SongplayParamsOf(e, Lookup(t, e))).value, [e])
  {
    SongplayInsertEffect(t, SongplayParamsOf(e, Lookup(t, e)));
    LookupFound(t, e);
  }

  /** Appending the rows of a then those of b appends the rows of a + b. */
  lemma AppendsPlaysCompose(t0: Tables, t1: Tables, t2: Tables, a: seq<LogRecord>, b: seq<LogRecord>)
    requires AppendsPlays(t0, t1, a) && AppendsPlays(t1, t2, b)
    ensures AppendsPlays(t0, t2, a + b)
  {
    var n0, n1 := |t0.songplays|, |t1.songplays|;
    assert t2.songplays[..n0] == t2.songplays[..n1][..n0];
    forall j | 0 <= j < |a + b|
      ensures RecordsPlay(t2.songplays[n0 + j], t0.serial + j + 1, (a + b)[j])
    {
      if j < |a| {
        assert t2.songplays[n0 + j] == t2.songplays[..n1][n0 + j];
      } else {
        assert (a + b)[j] == b[j - |a|];
      }
    }
  }

  /** The songplay loop, when it succeeds, appends one fact row per play
      event, resolved or not, carrying that event's values. */
  lemma {:induction false} LoadPhaseRows(t: Tables, plays: seq<LogRecord>)
    ensures Run(t, LoadStatements(plays)).Ok? ==> AppendsPlays(t, Run(t, LoadStatements(plays)).value, plays)
    decreases |plays|
  {
    if plays == [] {
      assert t.songplays[..|t.songplays|] == t.songplays;
    } else if Run(t, LoadStatements(plays)).Ok? {
      var r1 := InsertSongplay(t, SongplayParamsOf(plays[0], Lookup(t, plays[0])));
      LoadPhaseCons(t, plays);
      LoadStepRow(t, plays[0]);
      LoadPhaseRows(r1.value, plays[1..]);
      assert plays == [plays[0]] + plays[1..];
      AppendsPlaysCompose(t, r1.value, Run(t, LoadStatements(plays)).value, [plays[0]], plays[1..]);
    }
  }

  /** Users of t' after a file's play events over t: each event user's row is
      the one from that user's last event; a user without events keeps their
      row, or stays absent. */
  ghost predicate UsersAfter(t: Tables, t': Tables, plays: seq<LogRecord>) {
    && (forall i :: LastOfUser(plays, i) ==>
          plays[i].userId.Some? && plays[i].userId.value in t'.users
          && CheckUser(UserParamsOf(plays[i])) == Ok(t'.users[plays[i].userId.value]))
    && (forall k :: NoPlayOf(plays, k) ==>
          (k in t'.users <==> k in t.users) && (k in t.users ==> t'.users[k] == t.users[k]))
  }

  /** The user loop followed by the songplay loop, when both succeed: one new
      fact row per play event after the old ones, each user's row from that
      user's last play, and dim_songs, dim_artists and dim_time untouched. */
  lemma UserAndLoadEffect(t: Tables, plays: seq<LogRecord>)
    ensures var r := Then(Run(t, UserStatements(plays)), LoadStatements(plays));
      r.Ok? ==>
        && AppendsPlays(t, r.value, plays)
        && r.value.songs == t.songs && r.value.artists == t.artists && r.value.times == t.times
        && UsersAfter(t, r.value, plays)
  {
    var u := Run(t, UserStatements(plays));
    if u.Ok? && Run(u.value, LoadStatements(plays)).Ok? {
      var t1 := u.value;
      var t2 := Run(t1, LoadStatements(plays)).value;
      UserPhaseUsers(t, plays);
      LoadPhaseKeepsDimensions(t1, plays);
      LoadPhaseRows(t1, plays);
      AppendsPlaysFrom(t, t1, t2, plays);
    }
  }

  /** The user phase's effect on dim_users, and nothing else changes. */
  lemma UserPhaseUsers(t: Tables, plays: seq<LogRecord>)
    ensures Run(t, UserStatements(plays)).Ok? ==>
      var t' := Run(t, UserStatements(plays)).value;
      t'.(users := t.users) == t && UsersAfter(t, t', plays)
  {
    UserPhaseLastWins(t, plays);
    UserPhaseKeepsOthers(t, plays);
  }

  /** Appending after a state with the same fact table and sequence as t is
      appending after t. */
  lemma AppendsPlaysFrom(t: Tables, t1: Tables, t2: Tables, plays: seq<LogRecord>)
    requires t1.songplays == t.songplays && t1.serial == t.serial
    requires AppendsPlays(t1, t2, plays)
    ensures AppendsPlays(t, t2, plays)
  {
  }

  /** A user table equal to t's has the same users as t. */
  lemma UsersAfterFrom(t: Tables, t1: Tables, t2: Tables, plays: seq<LogRecord>)
    requires t1.users == t.users && UsersAfter(t1, t2, plays)
    ensures UsersAfter(t, t2, plays)
  {
  }

  /** A log file that succeeds: the fact table keeps its rows and gains exactly
      one row per play event, resolved or not, in event order, numbered on from
      the sequence and carrying that event's values; every user's row is the
      one from that user's last play (a user who went from free to paid ends
      paid) and other users are untouched; dim_time is what the time loop
      left, its keys grown by exactly the events' start_times; dim_songs and
      dim_artists are unchanged. */
  lemma LogFileEffect(t: Tables, records: seq<LogRecord>, columns: set<string>)
    ensures var r, plays := FileEffect(t, LogProcessor, LogFile(records, columns)), NextSongs(records);
      r.Ok? ==>
        && AppendsPlays(t, r.value, plays)
        && r.value.songs == t.songs && r.value.artists == t.artists
        && Run(t, TimeStatements(plays)).Ok? && r.value.times == Run(t, TimeStatements(plays)).value.times
        && r.value.times.Keys == t.times.Keys + Stamps(plays)
        && UsersAfter(t, r.value, plays)
  {
    LogFilePlanShape(records, columns);
    if LogFilePlan(records, columns).Ok? {
      var plays := NextSongs(records);
      LogFilePhases(t, records, columns);
      TimePhase(t, plays);
      var t1 := Run(t, TimeStatements(plays)).value;
      if !(UserColumns <= columns) {
        UserPhaseMissingColumn(t1, plays, columns);
      } else if plays != [] && !(SongplayColumns <= columns) {
        var users := Run(t1, UserPhase(plays, columns));
        if users.Ok? {
          LoadPhaseMissingColumn(users.value, plays, columns);
        }
      } else {
        assert UserPhase(plays, columns) == UserStatements(plays);
        assert LoadPhase(plays, columns) == LoadStatements(plays);
        UserAndLoadEffect(t1, plays);
        TimePhaseKeys(t, plays);
        var r := Then(Run(t1, UserStatements(plays)), LoadStatements(plays));
        if r.Ok? {
          AppendsPlaysFrom(t, t1, r.value, plays);
          UsersAfterFrom(t, t1, r.value, plays);
        }
      }
    }
  }

  // ---------------------------------------------------------------------------
  // Song files
  // ---------------------------------------------------------------------------

  /** A song file writes its cleaned first record and nothing else: the song
      row keeps an earlier row with that song_id, otherwise it is the record's
      with its year clamped; the artist row is the record's; the other tables
      are unchanged. The file fails exactly when a column it reads is absent,
      it has no record, or one of the two rows has a NULL in a NOT NULL column
      (a blank cell counting as NULL); a NULL in the song row is reported even
      when an artist column is absent, since the song insert runs first. */
  lemma SongFileEffect(t: Tables, records: seq<SongRecord>, columns: set<string>)
    ensures FileEffect(t, SongProcessor, SongFile(records, columns)).Err? <==>
      || !(SongColumns <= columns) || !(ArtistColumns <= columns) || records == []
      || (var c := CleanSong(records[0]);
          c.songId.None? || c.artistId.None? || c.title.None? || c.duration.None? || c.artistName.None?)
    ensures SongColumns <= columns && records != [] && CheckSong(SongParamsOf(CleanSong(records[0]))).Err? ==>
      FileEffect(t, SongProcessor, SongFile(records, columns)) == Err(CheckSong(SongParamsOf(CleanSong(records[0]))).error)
    ensures records != [] ==>
      var c, r := CleanSong(records[0]), FileEffect(t, SongProcessor, SongFile(records, columns));
      r.Ok? ==>
        var t', sid, aid := r.value, c.songId.value, c.artistId.value;
        && t'.(songs := t.songs, artists := t.artists) == t
        && t'.songs - {sid} == t.songs - {sid} && t'.artists - {aid} == t.artists - {aid}
        && sid in t'.songs
        && t'.songs[sid] == (if sid in t.songs then t.songs[sid]
                             else SongRow(sid, aid, c.title.value, ClampYear(records[0].year), records[0].duration.value))
        && aid in t'.artists
        && t'.artists[aid] == ArtistRow(aid, c.artistName.value, c.artistLocation,
                                        records[0].artistLatitude, records[0].artistLongitude)
  {
    if SongColumns <= columns && records != [] {
      var c := CleanSong(records[0]);
      var plan := SongFilePlan(records, columns).value;
      assert plan[1..] == [plan[1]];
      SongInsertEffect(t, SongParamsOf(c));
      if InsertSong(t, SongParamsOf(c)).Ok? {
        var t1 := InsertSong(t, SongParamsOf(c)).value;
        RunSingle(t1, plan[1]);
        if ArtistColumns <= columns {
          ArtistInsertEffect(t1, ArtistParamsOf(c));
        }
      }
    }
  }

  /** For the same columns, records after the first never influence a song
      file (they matter only through the columns they contribute). */
  lemma SongFileIgnoresLaterRecords(t: Tables, first: SongRecord, rest1: seq<SongRecord>, rest2: seq<SongRecord>,
                                    columns: set<string>)
    ensures FileEffect(t, SongProcessor, SongFile([first] + rest1, columns)) ==
            FileEffect(t, SongProcessor, SongFile([first] + rest2, columns))
  {
  }

  /** A song file whose only record has year 0: the new song is stored with
      year -1 and the other values as given, and its artist is stored. */
  lemma YearZeroSong(t: Tables)
    requires "SOSVHSS12AC468F92B" !in t.songs
    ensures var rec := SongRecord(Some("SOSVHSS12AC468F92B"), Some("ARH6W4X1187B99274F"), Some("Smooth"),
                                  Some(0), Some(Float(297)), Some("X"), None, None, None);
      var r := FileEffect(t, SongProcessor, SongFile([rec], SongColumns + ArtistColumns));
      && r.Ok?
      && "SOSVHSS12AC468F92B" in r.value.songs
      && r.value.songs["SOSVHSS12AC468F92B"] ==
         SongRow("SOSVHSS12AC468F92B", "ARH6W4X1187B99274F", "Smooth", Some(-1), Float(297))
      && "ARH6W4X1187B99274F" in r.value.artists
  {
    var rec := SongRecord(Some("SOSVHSS12AC468F92B"), Some("ARH6W4X1187B99274F"), Some("Smooth"),
                          Some(0), Some(Float(297)), Some("X"), None, None, None);
    assert !IsBlank("SOSVHSS12AC468F92B") by { assert !IsWhitespace("SOSVHSS12AC468F92B"[0]); }
    assert !IsBlank("ARH6W4X1187B99274F") by { assert !IsWhitespace("ARH6W4X1187B99274F"[0]); }
    assert !IsBlank("Smooth") by { assert !IsWhitespace("Smooth"[0]); }
    assert !IsBlank("X") by { assert !IsWhitespace("X"[0]); }
    SongFileEffect(t, [rec], SongColumns + ArtistColumns);
  }

  // ---------------------------------------------------------------------------
  // The batch
  // ---------------------------------------------------------------------------

  /** A batch halted at file k has committed exactly files 0 .. k-1, and file k
      failed from that state. */
  lemma {:induction false} HaltedCommitsPrefix(t: Tables, func: Processor, files: seq<JsonFile>,
                                               k: nat, c: Tables, e: LoadError)
    requires RunBatch(t, func, files) == Halted(k, c, e)
    ensures k < |files|
    ensures RunBatch(t, func, files[..k]) == Completed(c)
    ensures FileEffect(c, func, files[k]) == Err(e)
    decreases |files|
  {
    var r := FileEffect(t, func, files[0]);
    if r.Err? {
      assert files[..0] == [];
    } else {
      var rest := files[1..];
      assert RunBatch(r.value, func, rest) == Halted(k - 1, c, e);
      HaltedCommitsPrefix(r.value, func, rest, k - 1, c, e);
      assert files[..k][1..] == rest[..k - 1];
      assert files[k] == rest[k - 1];
    }
  }

  /** Three files, the second unparseable: the first file's effect is committed,
      the batch halts at the second with ParseError, and the third is never run. */
  lemma BatchHaltsAtMalformedFile(t: Tables, func: Processor, first: JsonFile, third: JsonFile)
    requires FileEffect(t, func, first).Ok?
    ensures RunBatch(t, func, [first, Unparseable, third]) ==
            Halted(1, FileEffect(t, func, first).value, ParseError)
  {
    var files := [first, Unparseable, third];
    assert files[1..] == [Unparseable, third];
  }
}
