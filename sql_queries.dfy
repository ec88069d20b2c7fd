/** The five tables of the star schema, the insert statements with their
    ON CONFLICT policies, and the song/artist lookup query.

    A table with a primary key is a map from key to row; the fact table is a
    sequence with its SERIAL counter. The row types carry the nullability of
    the CREATE TABLE statements: a NOT NULL column has a plain type, a nullable
    one an Option. The parameter types are what the statements receive, where
    any value may be NULL. */
module SqlQueries {
  import opened Common

  // ---------------------------------------------------------------------------
  // Rows as stored
  // ---------------------------------------------------------------------------

  datatype SongplayRow = SongplayRow(
    songplayId: nat, startTime: int, userId: int, level: string,
    songId: Option<string>, artistId: Option<string>,
    sessionId: int, location: string, userAgent: string)

  datatype UserRow = UserRow(
    userId: int, firstName: string, lastName: string, gender: Option<string>, level: string)

  datatype SongRow = SongRow(
    songId: string, artistId: string, title: string, year: Option<int>, duration: Float)

  datatype ArtistRow = ArtistRow(
    artistId: string, name: string, location: Option<string>,
    latitude: Option<Float>, longitude: Option<Float>)

  /** Every column of dim_time is NOT NULL, and every value is derived from start_time. */
  datatype TimeRow = TimeRow(
    startTime: int, hour: int, day: int, week: int, month: int, year: int, weekday: int)

  // ---------------------------------------------------------------------------
  // Statement parameters (the %s placeholders)
  // ---------------------------------------------------------------------------

  datatype SongplayParams = SongplayParams(
    startTime: int, userId: Option<int>, level: Option<string>,
    songId: Option<string>, artistId: Option<string>,
    sessionId: Option<int>, location: Option<string>, userAgent: Option<string>)

  datatype UserParams = UserParams(
    userId: Option<int>, firstName: Option<string>, lastName: Option<string>,
    gender: Option<string>, level: Option<string>)

  datatype SongParams = SongParams(
    songId: Option<string>, artistId: Option<string>, title: Option<string>,
    year: Option<int>, duration: Option<Float>)

  datatype ArtistParams = ArtistParams(
    artistId: Option<string>, name: Option<string>, location: Option<string>,
    latitude: Option<Float>, longitude: Option<Float>)

  // ---------------------------------------------------------------------------
  // NOT NULL constraints: a parameter set becomes a row, or the insert fails
  // naming the first NULL column in column order
  // ---------------------------------------------------------------------------

  function CheckSongplay(p: SongplayParams, id: nat): (r: Result<SongplayRow>)
    ensures r.Ok? <==>
      p.userId.Some? && p.level.Some? && p.sessionId.Some? && p.location.Some? && p.userAgent.Some?
    ensures r.Err? ==> r.error.NotNullViolation? && r.error.table == "fact_songplays"
    ensures r.Ok? ==>
      r.value == SongplayRow(id, p.startTime, p.userId.value, p.level.value, p.songId, p.artistId,
                             p.sessionId.value, p.location.value, p.userAgent.value)
  {
    if p.userId.None? then Err(NotNullViolation("fact_songplays", "user_id"))
    else if p.level.None? then Err(NotNullViolation("fact_songplays", "level"))
    else if p.sessionId.None? then Err(NotNullViolation("fact_songplays", "session_id"))
    else if p.location.None? then Err(NotNullViolation("fact_songplays", "location"))
    else if p.userAgent.None? then Err(NotNullViolation("fact_songplays", "user_agent"))
    else Ok(SongplayRow(id, p.startTime, p.userId.value, p.level.value, p.songId, p.artistId,
                        p.sessionId.value, p.location.value, p.userAgent.value))
  }

  function CheckUser(p: UserParams): (r: Result<UserRow>)
    ensures r.Ok? <==> p.userId.Some? && p.firstName.Some? && p.lastName.Some? && p.level.Some?
    ensures r.Err? ==> r.error.NotNullViolation? && r.error.table == "dim_users"
    ensures r.Ok? ==>
      r.value == UserRow(p.userId.value, p.firstName.value, p.lastName.value, p.gender, p.level.value)
  {
    if p.userId.None? then Err(NotNullViolation("dim_users", "user_id"))
    else if p.firstName.None? then Err(NotNullViolation("dim_users", "first_name"))
    else if p.lastName.None? then Err(NotNullViolation("dim_users", "last_name"))
    else if p.level.None? then Err(NotNullViolation("dim_users", "level"))
    else Ok(UserRow(p.userId.value, p.firstName.value, p.lastName.value, p.gender, p.level.value))
  }

  function CheckSong(p: SongParams): (r: Result<SongRow>)
    ensures r.Ok? <==> p.songId.Some? && p.artistId.Some? && p.title.Some? && p.duration.Some?
    ensures r.Err? ==> r.error.NotNullViolation? && r.error.table == "dim_songs"
    ensures r.Ok? ==>
      r.value == SongRow(p.songId.value, p.artistId.value, p.title.value, p.year, p.duration.value)
  {
    if p.songId.None? then Err(NotNullViolation("dim_songs", "song_id"))
    else if p.artistId.None? then Err(NotNullViolation("dim_songs", "artist_id"))
    else if p.title.None? then Err(NotNullViolation("dim_songs", "title"))
    else if p.duration.None? then Err(NotNullViolation("dim_songs", "duration"))
    else Ok(SongRow(p.songId.value, p.artistId.value, p.title.value, p.year, p.duration.value))
  }

  function CheckArtist(p: ArtistParams): (r: Result<ArtistRow>)
    ensures r.Ok? <==> p.artistId.Some? && p.name.Some?
    ensures r.Err? ==> r.error.NotNullViolation? && r.error.table == "dim_artists"
    ensures r.Ok? ==>
      r.value == ArtistRow(p.artistId.value, p.name.value, p.location, p.latitude, p.longitude)
  {
    if p.artistId.None? then Err(NotNullViolation("dim_artists", "artist_id"))
    else if p.name.None? then Err(NotNullViolation("dim_artists", "name"))
    else Ok(ArtistRow(p.artistId.value, p.name.value, p.location, p.latitude, p.longitude))
  }

  // ---------------------------------------------------------------------------
  // The database state
  // ---------------------------------------------------------------------------

  /** The contents of the five tables; serial is the last value the
      songplay_id sequence handed out (0 before the first insert). */
  datatype Tables = Tables(
    songplays: seq<SongplayRow>,
    serial: nat,
    users: map<int, UserRow>,
    songs: map<string, SongRow>,
    artists: map<string, ArtistRow>,
    times: map<int, TimeRow>)

  /** What the table definitions guarantee of any state: each row sits under its
      own primary key, and songplay ids are issued by the sequence in increasing order. */
  predicate Consistent(t: Tables) {
    && (forall k :: k in t.users ==> t.users[k].userId == k)
    && (forall k :: k in t.songs ==> t.songs[k].songId == k)
    && (forall k :: k in t.artists ==> t.artists[k].artistId == k)
    && (forall k :: k in t.times ==> t.times[k].startTime == k)
    && (forall i :: 0 <= i < |t.songplays| ==> 0 < t.songplays[i].songplayId <= t.serial)
    && (forall i, j :: 0 <= i < j < |t.songplays| ==>
          t.songplays[i].songplayId < t.songplays[j].songplayId)
  }

  /** ON CONFLICT (key) DO NOTHING: the first writer wins. */
  function InsertOrIgnore<K, V>(m: map<K, V>, k: K, v: V): map<K, V> {
    if k in m then m else m[k := v]
  }

  /** ON CONFLICT (key) DO UPDATE SET c = EXCLUDED.c for every non-key column:
      since the key is the same, the stored row becomes the new row. */
  function InsertOrUpdate<K, V>(m: map<K, V>, k: K, v: V): map<K, V> {
    m[k := v]
  }

  // ---------------------------------------------------------------------------
  // The insert statements, as functions of the state
  // ---------------------------------------------------------------------------

  /** songplay_table_insert: no conflict clause; the SERIAL column takes the next id. */
  function InsertSongplay(t: Tables, p: SongplayParams): (r: Result<Tables>)
    ensures r.Err? <==> CheckSongplay(p, t.serial + 1).Err?
    ensures r.Ok? ==> r.value.(songplays := t.songplays, serial := t.serial) == t
    ensures r.Ok? ==> t.songplays < r.value.songplays && |r.value.songplays| == |t.songplays| + 1
    ensures r.Ok? ==> r.value.serial == t.serial + 1
  {
    match CheckSongplay(p, t.serial + 1)
    case Err(e) => Err(e)
    case Ok(row) => Ok(t.(songplays := t.songplays + [row], serial := t.serial + 1))
  }

  /** user_table_insert: ON CONFLICT (user_id) DO UPDATE. */
  function InsertUser(t: Tables, p: UserParams): (r: Result<Tables>)
    ensures r.Err? <==> CheckUser(p).Err?
    ensures r.Ok? ==> r.value.(users := t.users) == t
    ensures r.Ok? ==> r.value.users.Keys == t.users.Keys + {p.userId.value}
  {
    match CheckUser(p)
    case Err(e) => Err(e)
    case Ok(row) => Ok(t.(users := InsertOrUpdate(t.users, row.userId, row)))
  }

  /** song_table_insert: ON CONFLICT (song_id) DO NOTHING. */
  function InsertSong(t: Tables, p: SongParams): (r: Result<Tables>)
    ensures r.Err? <==> CheckSong(p).Err?
    ensures r.Ok? ==> r.value.(songs := t.songs) == t
    ensures r.Ok? ==> r.value.songs.Keys == t.songs.Keys + {p.songId.value}
  {
    match CheckSong(p)
    case Err(e) => Err(e)
    case Ok(row) => Ok(t.(songs := InsertOrIgnore(t.songs, row.songId, row)))
  }

  /** artist_table_insert: ON CONFLICT (artist_id) DO UPDATE. */
  function InsertArtist(t: Tables, p: ArtistParams): (r: Result<Tables>)
    ensures r.Err? <==> CheckArtist(p).Err?
    ensures r.Ok? ==> r.value.(artists := t.artists) == t
    ensures r.Ok? ==> r.value.artists.Keys == t.artists.Keys + {p.artistId.value}
  {
    match CheckArtist(p)
    case Err(e) => Err(e)
    case Ok(row) => Ok(t.(artists := InsertOrUpdate(t.artists, row.artistId, row)))
  }

  /** time_table_insert: ON CONFLICT (start_time) DO NOTHING; no column can be NULL. */
  function InsertTime(t: Tables, row: TimeRow): (r: Tables)
    ensures r.(times := t.times) == t
    ensures r.times.Keys == t.times.Keys + {row.startTime}
  {
    t.(times := InsertOrIgnore(t.times, row.startTime, row))
  }

  // ---------------------------------------------------------------------------
  // song_select, exactly as written: it reads the FACT table, joins it to
  // dim_songs and dim_artists, and compares sp.song_id with its first argument
  // ---------------------------------------------------------------------------

  /** Whether fact row sp survives the joins and the WHERE clause for the
      arguments (song, artist, length). A NULL on either side of `=` is never true. */
  predicate SelectMatch(t: Tables, sp: SongplayRow, song: Option<string>, artist: Option<string>,
                        length: Option<Float>)
  {
    && sp.songId.Some? && sp.artistId.Some?
    && sp.songId.value in t.songs
    && sp.artistId.value in t.artists
    && song == sp.songId
    && artist == Some(t.artists[sp.artistId.value].name)
    && length == Some(t.songs[sp.songId.value].duration)
  }

  /** The result rows (sp.song_id, sp.artist_id) contributed by the fact rows in plays. */
  function SelectFrom(t: Tables, plays: seq<SongplayRow>, song: Option<string>,
                      artist: Option<string>, length: Option<Float>): (rows: seq<(string, string)>)
    ensures |rows| <= |plays|
    ensures forall sid, aid :: (sid, aid) in rows <==>
      exists i :: 0 <= i < |plays| && SelectMatch(t, plays[i], song, artist, length)
                  && plays[i].songId == Some(sid) && plays[i].artistId == Some(aid)
  {
    if plays == [] then []
    else
      var rest := SelectFrom(t, plays[1..], song, artist, length);
      var sp := plays[0];
      if SelectMatch(t, sp, song, artist, length) then
        [(sp.songId.value, sp.artistId.value)] + rest
      else
        rest
  }

  /** song_select(song, artist, length): every row it returns has the track
      title as its song_id, and names a stored song and a stored artist. */
  function SongSelect(t: Tables, song: Option<string>, artist: Option<string>,
                      length: Option<Float>): (rows: seq<(string, string)>)
    ensures |rows| <= |t.songplays|
    ensures forall row :: row in rows ==> song == Some(row.0) && row.0 in t.songs && row.1 in t.artists
  {
    SelectFrom(t, t.songplays, song, artist, length)
  }

  /** cur.fetchone(): the first result row, if any (in fact-table order). */
  function FetchOne(rows: seq<(string, string)>): (r: Option<(string, string)>)
    ensures r.None? <==> rows == []
    ensures r.Some? ==> r.value in rows
  {
    if rows == [] then None else Some(rows[0])
  }

  // ---------------------------------------------------------------------------
  // The connection: live tables the statements update in place, and the
  // snapshot made durable by the last commit
  // ---------------------------------------------------------------------------

  /** The effect a statement with outcome r had: on success the new state and no
      error; on failure the error, and the statement changed nothing. */
  predicate Applied(r: Result<Tables>, before: Tables, after: Tables, err: Option<LoadError>) {
    match r
    case Ok(t) => err == None && after == t
    case Err(e) => err == Some(e) && after == before
  }

  class Database {
    var songplays: seq<SongplayRow>
    var serial: nat
    var users: map<int, UserRow>
    var songs: map<string, SongRow>
    var artists: map<string, ArtistRow>
    var times: map<int, TimeRow>
    /** The state as of the last conn.commit(). */
    var committed: Tables

    /** The tables as the current transaction sees them. */
    function Live(): Tables
      reads this
    {
      Tables(songplays, serial, users, songs, artists, times)
    }

    /** A connection to a database holding db, with nothing pending. */
    constructor Connect(db: Tables)
      ensures Live() == db && committed == db
    {
      songplays, serial := db.songplays, db.serial;
      users, songs, artists, times := db.users, db.songs, db.artists, db.times;
      committed := db;
    }

    method ExecuteSongplayInsert(p: SongplayParams) returns (err: Option<LoadError>)
      modifies this
      ensures Applied(InsertSongplay(old(Live()), p), old(Live()), Live(), err)
      ensures committed == old(committed)
    {
      var checked := CheckSongplay(p, serial + 1);
      if checked.Err? {
        return Some(checked.error);
      }
      serial := serial + 1;
      songplays := songplays + [checked.value];
      err := None;
    }

    method ExecuteUserInsert(p: UserParams) returns (err: Option<LoadError>)
      modifies this
      ensures Applied(InsertUser(old(Live()), p), old(Live()), Live(), err)
      ensures committed == old(committed)
    {
      var checked := CheckUser(p);
      if checked.Err? {
        return Some(checked.error);
      }
      var row := checked.value;
      // ON CONFLICT (user_id) DO UPDATE: insert, or overwrite every non-key column
      users := users[row.userId := row];
      err := None;
    }

    method ExecuteSongInsert(p: SongParams) returns (err: Option<LoadError>)
      modifies this
      ensures Applied(InsertSong(old(Live()), p), old(Live()), Live(), err)
      ensures committed == old(committed)
    {
      var checked := CheckSong(p);
      if checked.Err? {
        return Some(checked.error);
      }
      var row := checked.value;
      // ON CONFLICT (song_id) DO NOTHING
      if row.songId !in songs {
        songs := songs[row.songId := row];
      }
      err := None;
    }

    method ExecuteArtistInsert(p: ArtistParams) returns (err: Option<LoadError>)
      modifies this
      ensures Applied(InsertArtist(old(Live()), p), old(Live()), Live(), err)
      ensures committed == old(committed)
    {
      var checked := CheckArtist(p);
      if checked.Err? {
        return Some(checked.error);
      }
      var row := checked.value;
      // ON CONFLICT (artist_id) DO UPDATE
      artists := artists[row.artistId := row];
      err := None;
    }

    method ExecuteTimeInsert(row: TimeRow)
      modifies this
      ensures Live() == InsertTime(old(Live()), row)
      ensures committed == old(committed)
    {
      // ON CONFLICT (start_time) DO NOTHING
      if row.startTime !in times {
        times := times[row.startTime := row];
      }
    }

    /** conn.commit(): the live state becomes durable. */
    method Commit()
      modifies this
      ensures committed == Live() && Live() == old(Live())
    {
      committed := Live();
    }
  }
}
