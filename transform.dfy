/** The column-wise transformations of the load: cleaning a song record,
    keeping the play events of a log file, and deriving the time, user, song,
    artist and songplay values the insert statements receive. Records arrive
    already parsed; a cell absent from the JSON, or JSON null, is read as None. */
module Transform {
  import opened Common
  import opened SqlQueries
  import Calendar

  /** One line of a song-metadata file. */
  datatype SongRecord = SongRecord(
    songId: Option<string>, artistId: Option<string>, title: Option<string>,
    year: Option<int>, duration: Option<Float>,
    artistName: Option<string>, artistLocation: Option<string>,
    artistLatitude: Option<Float>, artistLongitude: Option<Float>)

  /** One line of an event-log file. */
  datatype LogRecord = LogRecord(
    ts: int, page: Option<string>, userId: Option<int>,
    firstName: Option<string>, lastName: Option<string>, gender: Option<string>,
    level: Option<string>, song: Option<string>, artist: Option<string>,
    length: Option<Float>, sessionId: Option<int>,
    location: Option<string>, userAgent: Option<string>)

  // ---------------------------------------------------------------------------
  // Song files: blank cells become NULL, years below 1000 become -1
  // ---------------------------------------------------------------------------

  /** The characters `\s` matches in a Python 3 str pattern. */
  predicate IsWhitespace(c: char) {
    || c == ' ' || '\t' <= c <= '\r' || '\U{1C}' <= c <= '\U{1F}'
    || c == '\U{85}' || c == '\U{A0}' || c == '\U{1680}'
    || '\U{2000}' <= c <= '\U{200A}' || c == '\U{2028}' || c == '\U{2029}'
    || c == '\U{202F}' || c == '\U{205F}' || c == '\U{3000}'
  }

  /** A string the pattern ^\s*$ matches: empty or whitespace only. */
  predicate IsBlank(s: string) {
    forall i :: 0 <= i < |s| ==> IsWhitespace(s[i])
  }

  /** A cell after df.replace(r'^\s*$', np.nan, regex=True). */
  function CleanCell(c: Option<string>): (r: Option<string>)
    ensures r.None? <==> c.None? || IsBlank(c.value)
    ensures r.Some? ==> r == c
  {
    if c.Some? && IsBlank(c.value) then None else c
  }

  /** The year after df.loc[df.year < 1000, 'year'] = -1 (NULL compares false, so it stays NULL). */
  function ClampYear(y: Option<int>): (r: Option<int>)
    ensures r.None? <==> y.None?
    ensures y.Some? && y.value < 1000 ==> r == Some(-1)
    ensures y.Some? && y.value >= 1000 ==> r == y
  {
    match y
    case None => None
    case Some(v) => if v < 1000 then Some(-1) else y
  }

  /** No string cell of rec is blank. */
  predicate NoBlankCell(rec: SongRecord) {
    && (rec.songId.Some? ==> !IsBlank(rec.songId.value))
    && (rec.artistId.Some? ==> !IsBlank(rec.artistId.value))
    && (rec.title.Some? ==> !IsBlank(rec.title.value))
    && (rec.artistName.Some? ==> !IsBlank(rec.artistName.value))
    && (rec.artistLocation.Some? ==> !IsBlank(rec.artistLocation.value))
  }

  /** The cleaned cell c' of cell c: either c itself, or NULL where c was blank. */
  predicate CleanedFrom(c': Option<string>, c: Option<string>) {
    c' == c || (c' == None && c.Some? && IsBlank(c.value))
  }

  /** The two cleaning steps of a song file, applied to one record. */
  function CleanSong(rec: SongRecord): (r: SongRecord)
    ensures NoBlankCell(r)
    ensures CleanedFrom(r.songId, rec.songId) && CleanedFrom(r.artistId, rec.artistId)
    ensures CleanedFrom(r.title, rec.title) && CleanedFrom(r.artistName, rec.artistName)
    ensures CleanedFrom(r.artistLocation, rec.artistLocation)
    ensures r.duration == rec.duration
    ensures r.artistLatitude == rec.artistLatitude && r.artistLongitude == rec.artistLongitude
    ensures r.year == ClampYear(rec.year)
  {
    rec.(songId := CleanCell(rec.songId), artistId := CleanCell(rec.artistId),
         title := CleanCell(rec.title), artistName := CleanCell(rec.artistName),
         artistLocation := CleanCell(rec.artistLocation), year := ClampYear(rec.year))
  }

  /** song_data: song_id, artist_id, title, year, duration, which dim_songs
      accepts as the row of the same values exactly when none of its NOT NULL
      columns is NULL. */
  function SongParamsOf(rec: SongRecord): (p: SongParams)
    ensures CheckSong(p).Ok? <==>
      rec.songId.Some? && rec.artistId.Some? && rec.title.Some? && rec.duration.Some?
    ensures CheckSong(p).Ok? ==>
      CheckSong(p).value == SongRow(rec.songId.value, rec.artistId.value, rec.title.value, rec.year, rec.duration.value)
  {
    SongParams(rec.songId, rec.artistId, rec.title, rec.year, rec.duration)
  }

  /** artist_data: artist_id, artist_name, artist_location, artist_latitude,
      artist_longitude, stored in dim_artists as id, name, location, latitude
      and longitude. */
  function ArtistParamsOf(rec: SongRecord): (p: ArtistParams)
    ensures CheckArtist(p).Ok? <==> rec.artistId.Some? && rec.artistName.Some?
    ensures CheckArtist(p).Ok? ==>
      CheckArtist(p).value == ArtistRow(rec.artistId.value, rec.artistName.value, rec.artistLocation,
                                        rec.artistLatitude, rec.artistLongitude)
  {
    ArtistParams(rec.artistId, rec.artistName, rec.artistLocation, rec.artistLatitude, rec.artistLongitude)
  }

  // ---------------------------------------------------------------------------
  // Log files: play events only, and the values derived from each
  // ---------------------------------------------------------------------------

  /** df.page == 'NextSong': a missing page is NULL and never equal. */
  predicate IsNextSong(e: LogRecord) {
    e.page == Some("NextSong")
  }

  /** The play events of a log, in file order. */
  function NextSongs(es: seq<LogRecord>): (r: seq<LogRecord>)
    ensures |r| <= |es|
    ensures forall i :: 0 <= i < |r| ==> IsNextSong(r[i])
    ensures forall e :: e in r <==> e in es && IsNextSong(e)
  {
    if es == [] then []
    else (if IsNextSong(es[0]) then [es[0]] else []) + NextSongs(es[1..])
  }

  /** The epoch milliseconds pd.to_datetime(ts, unit='ms') accepts: the
      instant in nanoseconds must fit pandas' signed 64-bit Timestamp. */
  const MIN_TIMESTAMP_MS: int := -9_223_372_036_854
  const MAX_TIMESTAMP_MS: int := 9_223_372_036_854

  predicate InTimestampRange(ts: int) {
    MIN_TIMESTAMP_MS <= ts <= MAX_TIMESTAMP_MS
  }

  /** The bounds are those of a signed 64-bit count of nanoseconds. */
  lemma TimestampRangeIsInt64Nanos(ts: int)
    ensures InTimestampRange(ts) <==> -0x8000_0000_0000_0000 < ts * 1_000_000 < 0x8000_0000_0000_0000
  {
  }

  /** Every play event's ts converts without OutOfBoundsDatetime. */
  predicate TimestampsInRange(plays: seq<LogRecord>) {
    forall i :: 0 <= i < |plays| ==> InTimestampRange(plays[i].ts)
  }

  /** The dim_time row of timestamp ts (epoch milliseconds, UTC). */
  function TimeRowOf(ts: int): (r: TimeRow)
    ensures r.startTime == ts
    ensures 0 <= r.hour < 24
    ensures r.hour * Calendar.MS_PER_HOUR <= ts % Calendar.MS_PER_DAY < (r.hour + 1) * Calendar.MS_PER_HOUR
    ensures 0 <= r.weekday < 7 && 1 <= r.week <= 53
    ensures var d := Calendar.Date(r.year, r.month, r.day);
      Calendar.ValidDate(d) && Calendar.DaysFromCivil(d) == ts / Calendar.MS_PER_DAY
  {
    var days := ts / Calendar.MS_PER_DAY;
    var date := Calendar.CivilFromDays(days);
    TimeRow(ts, (ts / Calendar.MS_PER_HOUR) % 24, date.day, Calendar.IsoWeek(days),
            date.month, date.year, Calendar.Weekday(days))
  }

  /** The same time of day one day later: same hour, next weekday. */
  lemma TimeRowNextDay(ts: int)
    ensures TimeRowOf(ts + Calendar.MS_PER_DAY).hour == TimeRowOf(ts).hour
    ensures TimeRowOf(ts + Calendar.MS_PER_DAY).weekday == (TimeRowOf(ts).weekday + 1) % 7
  {
    assert (ts + Calendar.MS_PER_DAY) / Calendar.MS_PER_DAY == ts / Calendar.MS_PER_DAY + 1;
    assert (ts + Calendar.MS_PER_DAY) / Calendar.MS_PER_HOUR == ts / Calendar.MS_PER_HOUR + 24;
    Calendar.WeekdaySteps(ts / Calendar.MS_PER_DAY);
  }

  /** Every instant of 1970-01-01 UTC is a Thursday in ISO week 1. */
  lemma TimeRowOnEpochDay(ts: int)
    requires 0 <= ts < Calendar.MS_PER_DAY
    ensures var r := TimeRowOf(ts);
      r.year == 1970 && r.month == 1 && r.day == 1 && r.weekday == 3 && r.week == 1
      && r.hour == ts / Calendar.MS_PER_HOUR
  {
    assert ts / Calendar.MS_PER_DAY == 0;
    Calendar.IsoWeeksOf1970();
    assert Calendar.Weekday(0) == 3;
  }

  /** userId, firstName, lastName, gender, level, stored in dim_users as
      user_id, first_name, last_name, gender, level. */
  function UserParamsOf(e: LogRecord): (p: UserParams)
    ensures CheckUser(p).Ok? <==> e.userId.Some? && e.firstName.Some? && e.lastName.Some? && e.level.Some?
    ensures CheckUser(p).Ok? ==>
      CheckUser(p).value == UserRow(e.userId.value, e.firstName.value, e.lastName.value, e.gender, e.level.value)
  {
    UserParams(e.userId, e.firstName, e.lastName, e.gender, e.level)
  }

  /** The songplay of event e, given the row song_select fetched for it (if any). */
  function SongplayParamsOf(e: LogRecord, hit: Option<(string, string)>): (p: SongplayParams)
    ensures hit.None? ==> p.songId.None? && p.artistId.None?
    ensures hit.Some? ==> p.songId == Some(hit.value.0) && p.artistId == Some(hit.value.1)
    ensures p.startTime == e.ts && p.userId == e.userId && p.level == e.level
    ensures p.sessionId == e.sessionId && p.location == e.location && p.userAgent == e.userAgent
  {
    match hit
    case None => SongplayParams(e.ts, e.userId, e.level, None, None, e.sessionId, e.location, e.userAgent)
    case Some((songId, artistId)) =>
      SongplayParams(e.ts, e.userId, e.level, Some(songId), Some(artistId), e.sessionId, e.location, e.userAgent)
  }
}
