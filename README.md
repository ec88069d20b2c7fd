# Sparkify ETL load, modelled in Dafny

The repository loads two kinds of line-delimited JSON files into a PostgreSQL
star schema:
- song-metadata files go into `dim_songs` and `dim_artists`;
- event-log files go into `dim_time`, `dim_users` and `fact_songplays`.

`process_data` walks a directory and runs a per-file function on every file.
It commits after each file and prints `i/num_files`.

This project models that load. The modules are:

- `Common` (`common.dfy`): nullable cells, results, opaque floats, and the errors that abort a file.
- `SqlQueries` (`sql_queries.dfy`): the schema of `sql_queries.py`.
  - Row types carry each column's nullability: a NOT NULL column is a plain type, a nullable one an `Option`.
  - The five insert statements have their NOT NULL checks and ON CONFLICT policies. Dimension tables are maps keyed by the primary key; the fact table is a sequence with its SERIAL counter.
  - `song_select` is modelled exactly as written.
  - A `Database` class holds the live tables, which the statements update in place, and the last committed snapshot.
- `Calendar` (`calendar.dfy`): the proleptic Gregorian calendar that `pd.to_datetime(ts, unit='ms')` uses. It splits an epoch-day count into year, month, day and weekday (Monday = 0), and computes the week number of section 4.1.4 of ISO 8601:2004.
- `Transform` (`transform.dfy`):
  - the column-wise steps of `etl.py`: blank cells to NULL (`^\s*$` with Python's `\s`), years below 1000 to -1, and the `page == 'NextSong'` filter;
  - the time row of a timestamp;
  - the parameters of each insert.
- `Etl` (`etl.dfy`):
  - `Statement`, the statements a file issues, and `Run`, their fail-stop execution inside one transaction;
  - the per-file processors, as methods with one loop per insertion loop of `process_log_file`;
  - `process_data`, as a method with a loop that commits after every file.

  `RunBatch` is the function of the file list that specifies the driver.
- `UpsertProperties` and `LoadProperties`: lemmas about the statements, files and batches.

The model follows the code as written, including where it departs from its own
docstrings or from what the schema suggests:
- years of 10000 and above are kept as given, because only `year < 1000` is replaced;
- a song file may hold several records, and all but the first are ignored; the later records matter only through the columns they bring;
- a file's columns are the keys found in any of its records. A key missing from some records is a NULL cell in the model (pandas fills it with NaN, which does not reach the database as NULL; see "Left out"), but a column the processor reads that no record has makes it raise (`MissingColumn`): before any statement, or, for the artist columns of a song file and the user and songplay columns of a log file, after the statements issued so far;
- `pd.to_datetime` raises for a play whose `ts` lies outside pandas' nanosecond range (roughly 1677-09-21 to 2262-04-11), which aborts the log file (`TimestampOutOfBounds`);
- the docstring at `etl.py:48-49` says the lookup queries `dim_songs` and `dim_artists` to obtain the song_id and artist_id. `song_select` joins those tables, but it takes the ids from `fact_songplays` and compares `sp.song_id` with the track title, so when the fact table starts empty no play is ever linked (`LoadProperties.BatchNeverResolves`).

## Model

| member | source | states |
|---|---|---|
| SqlQueries.CheckSongplay | sql_queries.py:11-23 | the fact row is accepted iff user_id, level, session_id, location and user_agent are non-NULL (the INT range of user_id, session_id and songplay_id is not checked; see Left out); otherwise it fails with a NOT NULL violation on fact_songplays; an accepted row carries the parameters and the given id, and only song_id/artist_id may be NULL |
| SqlQueries.CheckUser | sql_queries.py:26-35 | a user row is accepted iff user_id, first_name, last_name and level are non-NULL (gender may be NULL; the INT range of user_id is not checked; see Left out); a rejection names dim_users |
| SqlQueries.CheckSong | sql_queries.py:37-46 | a song row is accepted iff song_id, artist_id, title and duration are non-NULL (year may be NULL; its INT range is not checked; see Left out); a rejection names dim_songs |
| SqlQueries.CheckArtist | sql_queries.py:48-57 | an artist row is accepted iff artist_id and name are non-NULL (location, latitude, longitude may be NULL); a rejection names dim_artists |
| SqlQueries.SelectFrom | sql_queries.py:112-121 | a pair (s, a) is returned iff some fact row has song_id s and artist_id a, joins to dim_songs and dim_artists, has song_id equal to the first argument, and its artist's name and its song's duration equal the other two arguments; no more rows than fact rows |
| SqlQueries.InsertSongplay | sql_queries.py:73-76 | the insert fails iff the row has a NULL in a NOT NULL column (the INT range is not checked; see Left out); on success only the fact table and its sequence change: the old rows stay as a prefix, one row is added and the sequence advances by one |
| SqlQueries.InsertUser | sql_queries.py:78-86 | the upsert fails iff the row has a NULL in a NOT NULL column (the INT range is not checked; see Left out); on success only dim_users changes and its keys become the old keys plus the user_id |
| SqlQueries.InsertSong | sql_queries.py:88-92 | the insert fails iff the row has a NULL in a NOT NULL column (the INT range is not checked; see Left out); on success only dim_songs changes and its keys become the old keys plus the song_id |
| SqlQueries.InsertArtist | sql_queries.py:94-102 | the upsert fails iff the row has a NULL in a NOT NULL column; on success only dim_artists changes and its keys become the old keys plus the artist_id |
| SqlQueries.InsertTime | sql_queries.py:104-108 | only dim_time changes, and its keys become the old keys plus start_time |
| SqlQueries.SongSelect | sql_queries.py:112-121 | at most one row per fact row; every row returned has the track title as its song_id and names a stored song and a stored artist |
| SqlQueries.FetchOne | etl.py:95-100 | no row iff the result is empty; otherwise a row of the result |
| SqlQueries.Database.Connect | etl.py:162-163 | the connection starts with the given tables live and committed |
| SqlQueries.Database.ExecuteSongplayInsert | sql_queries.py:73-76 | the live state becomes the songplay insert's result, or on a NOT NULL violation stays as it was and the error is returned; nothing is committed |
| SqlQueries.Database.ExecuteUserInsert | sql_queries.py:78-86 | the live state becomes the user upsert's result, or stays and the error is returned |
| SqlQueries.Database.ExecuteSongInsert | sql_queries.py:88-92 | the live state becomes the song insert's result (DO NOTHING on a known song_id), or stays and the error is returned |
| SqlQueries.Database.ExecuteArtistInsert | sql_queries.py:94-102 | the live state becomes the artist upsert's result, or stays and the error is returned |
| SqlQueries.Database.ExecuteTimeInsert | sql_queries.py:104-108 | the live state becomes the time insert's result; it cannot fail |
| SqlQueries.Database.Commit | etl.py:144 | the committed snapshot becomes the live state, which is unchanged |
| UpsertProperties.SongInsertEffect | sql_queries.py:88-92 | a song insert fails iff a NOT NULL parameter is NULL; on success the song_id is present, holding the earlier row if there was one and else the new row; no other song and no other table changes |
| UpsertProperties.SongInsertKeepsExisting | sql_queries.py:91 | first writer wins: inserting a known song_id leaves the whole state unchanged |
| UpsertProperties.ArtistInsertEffect | sql_queries.py:94-102 | an artist insert fails iff artist_id or name is NULL; on success name, location, latitude and longitude under the artist_id are the new values, present before or not; no other artist or table changes |
| UpsertProperties.UserInsertEffect | sql_queries.py:78-86 | a user insert fails iff a NOT NULL parameter is NULL; on success the row under user_id is exactly the new row (first_name, last_name, gender, level overwritten); no other user or table changes |
| UpsertProperties.TimeInsertEffect | sql_queries.py:104-108 | a time insert keeps an existing start_time's row and adds a new one otherwise; no other key or table changes |
| UpsertProperties.TimeInsertIdempotent | sql_queries.py:107 | inserting the same time row twice equals inserting it once |
| UpsertProperties.SongplayInsertEffect | sql_queries.py:73-76 | a songplay insert fails iff a NOT NULL parameter is NULL; on success exactly one row is appended, with id serial+1 and the given values, earlier rows and the other tables are unchanged, and the serial advances by one |
| UpsertProperties.SongplayIdFresh | sql_queries.py:13 | in a consistent state the new songplay_id exceeds every existing one |
| UpsertProperties.SongInsertConsistent | sql_queries.py:39 | a song insert keeps every song under its own primary key and the fact invariants |
| UpsertProperties.ArtistInsertConsistent | sql_queries.py:50 | an artist insert keeps the table invariants |
| UpsertProperties.UserInsertConsistent | sql_queries.py:28 | a user insert keeps the table invariants |
| UpsertProperties.TimeInsertConsistent | sql_queries.py:61 | a time insert keeps the table invariants |
| UpsertProperties.SongplayInsertConsistent | sql_queries.py:13 | a songplay insert keeps songplay ids positive, at most the serial and strictly increasing |
| UpsertProperties.SelectFromUnresolved | sql_queries.py:115-118 | fact rows with NULL song_id contribute no row to song_select |
| UpsertProperties.UnresolvedSelectsNothing | sql_queries.py:112-121 | when no fact row has a song_id, song_select returns nothing, whatever its arguments |
| UpsertProperties.SelectFindsMatch | sql_queries.py:112-121 | a fact row that joins and matches the three arguments is returned, and fetchone yields a row |
| Calendar.OrdinalDay | etl.py:67 | the day of the year lies in 1 .. days in that year |
| Calendar.Weekday | etl.py:70 | the weekday lies in 0 .. 6 |
| Calendar.SplitYears | etl.py:69 | a day offset splits into a year and a day of that year in range, counting the same number of days |
| Calendar.FindMonth | etl.py:68 | the month found contains the given day of the year |
| Calendar.CivilFromDays | etl.py:66-69 | the date of a day count is a valid date that lies exactly that many days after 1970-01-01 |
| Calendar.YearsOrdered | etl.py:69 | every day of a year precedes January 1st of each later year |
| Calendar.MonthsOrdered | etl.py:68 | every day of a month precedes the first day of each later month of the year |
| Calendar.DaysFromCivilInjective | etl.py:66-69 | distinct valid dates are distinct day counts |
| Calendar.CivilRoundTrip | etl.py:66-69 | converting a valid date to its day count and back gives the date |
| Calendar.WeeksInYear | etl.py:67 | an ISO year has 52 or 53 weeks |
| Calendar.IsoWeek | etl.py:67 | the ISO week number lies in 1 .. 53 |
| Calendar.WeekdaySteps | etl.py:70 | 1970-01-01 was a Thursday (3), and each day's weekday is the previous one's plus one, mod 7 |
| Calendar.IsoWeeksOf1970 | etl.py:67 | 1970-01-01 is in ISO week 1 and 1970-12-31 in week 53 |
| Calendar.IsoWeeksEndOf1970 | etl.py:67 | 1971-01-01 and 1971-01-03 still fall in week 53 (of 1970) |
| Calendar.IsoWeekOneOf1971 | etl.py:67 | Monday 1971-01-04 is in week 1 |
| Transform.CleanCell | etl.py:29 | a cell becomes NULL iff it is NULL or empty/whitespace-only; otherwise it is unchanged |
| Transform.ClampYear | etl.py:32 | a year below 1000 becomes -1, a year of 1000 or more (no upper bound) is kept, NULL stays NULL |
| Transform.CleanSong | etl.py:29-32 | after cleaning no string cell is blank; each string cell is either unchanged or a blank made NULL; floats are unchanged; the year is clamped |
| Transform.NextSongs | etl.py:61 | the events kept are exactly those whose page is 'NextSong' (a missing page is dropped), no more than the input |
| Transform.TimeRowOf | etl.py:64-73 | start_time is ts; hour in 0..23 is the hour of ts within its UTC day; weekday in 0..6; week in 1..53; (year, month, day) is the valid date exactly ts div 86400000 days after 1970-01-01 |
| Transform.TimeRowNextDay | etl.py:65-70 | one day later the hour is the same and the weekday is the next one |
| Transform.TimeRowOnEpochDay | etl.py:64-70 | every instant of 1970-01-01 gives year 1970, month 1, day 1, Thursday (3), ISO week 1 and hour ts div 3600000 |
| Transform.SongParamsOf | etl.py:35-36 | song_data lands in dim_songs' columns of the same names: the row is accepted iff song_id, artist_id, title and duration are non-NULL, and it carries the record's five values |
| Transform.ArtistParamsOf | etl.py:39-40 | artist_data lands in dim_artists as id, name, location, latitude, longitude: accepted iff artist_id and artist_name are non-NULL, carrying the record's values |
| Transform.UserParamsOf | etl.py:84-88 | a user row lands in dim_users: accepted iff userId, firstName, lastName and level are non-NULL, carrying the event's values |
| Transform.TimestampRangeIsInt64Nanos | etl.py:64 | a ts is in range iff ts milliseconds in nanoseconds fit a signed 64-bit integer |
| Transform.SongplayParamsOf | etl.py:97-112 | without a lookup row both song_id and artist_id are NULL, with one they come from it; ts, userId, level, sessionId, location and userAgent are copied |
| Etl.LookupFound | etl.py:94-100 | no row iff song_select returns nothing; a row found has the event's track title as its song_id and names a stored song and artist |
| Etl.StepEffect | etl.py:143 | an abort fails with its error; a time insert never fails; a successful statement keeps the fact rows as a prefix and adds one only for a songplay load |
| Etl.RunAppendsFacts | etl.py:143 | a plan that succeeds keeps the fact rows as a prefix and appends exactly one row per songplay load it holds |
| Etl.RunAppend | etl.py:143 | running two statement lists in a row is running the first and, if it succeeded, the second |
| Etl.RunPrefixFails | etl.py:143 | a failure in a prefix of a file's statements is the failure of the whole file |
| Etl.SongFilePlanShape | etl.py:26-40 | the plan fails before any statement iff a song column is absent (MissingColumn) or there is no record (EmptyFile); otherwise it is a song insert from the cleaned first record, then an artist insert from the same record, or an abort with MissingColumn when an artist column is absent |
| Etl.TimeStatements | etl.py:73-81 | one time insert per play event, in order, with that event's derived row |
| Etl.UserStatements | etl.py:84-88 | one user upsert per play event, in order |
| Etl.LoadStatements | etl.py:91-113 | one lookup-and-insert per play event, in order |
| Etl.LogPlanShape | etl.py:80-113 | n play events give 3n statements: n time inserts, then n user upserts, then n songplay loads, each phase in event order |
| Etl.LogFilePlanShape | etl.py:58-113 | the plan fails before any statement iff the page or ts column is absent (MissingColumn) or a play's ts is out of range (TimestampOutOfBounds); otherwise it starts with the time phase, and with every column present it is exactly the three loops over the play events |
| Etl.ProcessSongFile | etl.py:13-40 | the live state is what the song file's plan produces from the entry state, or its error is returned; nothing is committed |
| Etl.InsertTimeRows | etl.py:80-81 | the live state is the time phase run from the entry state, which succeeds |
| Etl.InsertUserRows | etl.py:87-88 | the live state is the user phase's result, or its first error is returned |
| Etl.LoadSongplays | etl.py:91-113 | the live state is the songplay phase's result (each event looked up in the state its predecessors left), or its first error is returned |
| Etl.UserAndSongplayPhases | etl.py:84-113 | the live state is the user loop then the songplay loop, each aborting where it begins when a column it reads is absent, or the first error is returned |
| Etl.ProcessLogFile | etl.py:43-113 | the live state is what the log file's plan produces from the entry state, or its error is returned; nothing is committed |
| Etl.ProcessFile | etl.py:143 | the live state is the file's effect for the chosen processor, or its error is returned |
| Etl.RunBatch | etl.py:142-145 | a halted batch stops at one of its files |
| Etl.RunBatchAppend | etl.py:142-145 | a batch over two lists is the first batch followed, if it completed, by the second, with positions shifted |
| Etl.BatchExtends | etl.py:142-144 | a committed prefix followed by a succeeding file is a committed longer prefix |
| Etl.RunBatchOne | etl.py:142-144 | a batch of one file commits that file's effect or halts at it with its error |
| Etl.PrefixHaltsAt | etl.py:142-143 | a committed prefix followed by a failing file halts within one more file, at that file, with the prefix's state committed |
| Etl.HaltedIgnoresRest | etl.py:142-143 | files after the one a batch halts at change nothing: they are never run |
| Etl.BatchHaltsAt | etl.py:142-143 | a committed prefix followed by a failing file halts the batch there |
| Etl.BatchCompletes | etl.py:142-145 | a batch whose every file committed completes in the state committed last |
| Etl.Progress | etl.py:145 | k progress lines, the i-th being (i+1, num_files) |
| Etl.ProcessAndCommit | etl.py:143-144 | on success the file's effect is live and committed; on failure its error is returned and nothing new is committed |
| Etl.ProcessNext | etl.py:142-145 | one iteration of the loop: after files 0..i-1 committed with nothing pending, either file i is committed too (nothing pending) or the whole batch halts at file i with the committed state and its error |
| Etl.ProcessData | etl.py:116-145 | if the batch completes, the final state is committed, no error escapes and num_files progress lines are printed; if it halts at file k, the state after files 0..k-1 is committed, file k's error escapes, and k lines were printed; after a completed batch nothing is pending, so a second call may follow |
| LoadProperties.StepConsistent | sql_queries.py:11-69 | every statement keeps the table invariants |
| LoadProperties.RunConsistent | etl.py:143 | a file's statements keep the table invariants |
| LoadProperties.FileConsistent | etl.py:143 | a file's effect keeps the table invariants |
| LoadProperties.BatchConsistent | etl.py:142-145 | every state a batch commits satisfies the table invariants |
| LoadProperties.StepKeepsUnresolved | etl.py:94-113 | with no resolved fact row, no statement adds one |
| LoadProperties.RunKeepsUnresolved | etl.py:91-113 | with no resolved fact row, a file's statements add none |
| LoadProperties.BatchNeverResolves | etl.py:142-145 | from a fact table with no resolved row (an empty one in particular), every committed state has NULL song_id and artist_id in every fact row |
| LoadProperties.LoadedSongNotFound | etl.py:94-100 | an event naming a stored song by its title, artist name and duration still gets no lookup row, and its songplay stores NULL ids |
| LoadProperties.NextSongsAppend | etl.py:61 | filtering a concatenation is concatenating the filtered parts |
| LoadProperties.SkippedEventDropped | etl.py:61 | an event whose page is not 'NextSong' is dropped wherever it sits |
| LoadProperties.SkippedEventIgnored | etl.py:61 | such an event changes nothing the log file issues |
| LoadProperties.TimePhaseCons | etl.py:80-81 | the time phase is the first insert followed by the phase of the remaining events |
| LoadProperties.UserPhaseSnoc | etl.py:87-88 | the user phase is the phase of all but the last event followed by the last upsert |
| LoadProperties.TimePhase | etl.py:80-81 | the time phase succeeds; afterwards every event's start_time is stored, new ones with that event's derived row, existing rows unchanged; no other table changes |
| LoadProperties.StampsCons | etl.py:80-81 | the events' start_times are the first event's plus those of the rest |
| LoadProperties.TimePhaseKeys | etl.py:80-81 | after the time phase dim_time's keys are exactly the old keys plus the events' start_times |
| LoadProperties.TimePhaseNoop | sql_queries.py:104-108 | when every start_time is already stored, the time phase changes nothing |
| LoadProperties.TimePhaseIdempotent | sql_queries.py:104-108 | running the time phase twice equals running it once |
| LoadProperties.UserPhaseFails | etl.py:87-88 | the user phase fails iff some event's user row has a NULL in a NOT NULL column |
| LoadProperties.UserPhaseLastWins | sql_queries.py:78-86 | after the user phase each user's stored row is the row of that user's last event; no other table changes |
| LoadProperties.UserPhaseKeepsOthers | etl.py:87-88 | after the user phase a user with no play event in the file is present with the same row iff they were present before |
| LoadProperties.UserPhaseUsers | etl.py:87-88 | the user phase changes only dim_users: last event's row for each event user, other users untouched |
| LoadProperties.LoadPhaseCons | etl.py:91-113 | the songplay loop is the first event's load followed by the loop over the remaining events |
| LoadProperties.LoadStepRow | etl.py:91-113 | one successful load appends a row numbered by the next sequence value that carries the event's start_time, user_id, level, session_id, location and user_agent, with a song_id that is NULL or the event's track title |
| LoadProperties.AppendsPlaysCompose | etl.py:91-113 | appending the rows of one batch of events and then of another appends the rows of both, in order |
| LoadProperties.LoadPhaseRows | etl.py:91-113 | when the songplay loop succeeds, row n+j is the row of event j: numbered serial+j+1, with that event's start_time, user_id, level, session_id, location and user_agent; the old rows stay as a prefix and the sequence advances by the number of events |
| LoadProperties.LogFilePhases | etl.py:80-113 | a log file's effect is the time phase, which succeeds, then the user loop, then the songplay loop |
| LoadProperties.UserPhaseRejectsNullUser | etl.py:84-88 | an event whose user row has a NULL in a NOT NULL column makes the user loop fail, and so does the KeyError raised without a user column |
| LoadProperties.UserPhaseMissingColumn | etl.py:84 | without a user column the user loop is the KeyError alone |
| LoadProperties.LoadPhaseMissingColumn | etl.py:91-94 | without a column the songplay loop reads, the loop fails with MissingColumn on its first event |
| LoadProperties.LoadsOfPhases | etl.py:80-113 | the time and user loops hold no songplay insert, the songplay loop exactly one per play event |
| LoadProperties.LoadPhaseKeepsDimensions | etl.py:91-113 | the songplay loop writes only fact_songplays and its sequence: dim_songs, dim_artists, dim_time and dim_users are unchanged |
| LoadProperties.UserAndLoadEffect | etl.py:84-113 | when the user and songplay loops succeed, the fact table keeps its rows and gains one per play event, in order, each carrying that event's values and the next sequence number; each user's row is the one from that user's last play and users without plays are untouched; the other dimensions are unchanged |
| LoadProperties.LogFileEffect | etl.py:58-113 | a log file that succeeds, whatever its columns, keeps the old fact rows and appends exactly one per play event, resolved or not, in event order, numbered on from the sequence and carrying the event's start_time, user_id, level, session_id, location and user_agent; each user's row is the one from that user's last play (free then paid ends paid) and users without plays are untouched; dim_time is the time loop's result and its keys grow by exactly the events' start_times; dim_songs and dim_artists are unchanged |
| LoadProperties.LogFileRejectsNullUser | etl.py:87-88 | a play event with a NULL user_id, first_name, last_name or level makes the whole log file fail, whatever its columns |
| LoadProperties.LogFileMissingColumn | etl.py:61-94 | without a page, ts or user column a log file fails with MissingColumn whatever its records (once its timestamps convert); without a column the songplay loop reads it fails as soon as it has a play event |
| LoadProperties.SongFileEffect | etl.py:29-40 | a song file fails iff a column it reads is absent, it has no record, or the cleaned first record lacks song_id, artist_id, title, duration or artist name; a NULL in the song row is reported even when an artist column is absent; otherwise the song row is the earlier one or the first record's with its year clamped, the artist row is the first record's, no other song or artist row changes, and the other tables are unchanged |
| LoadProperties.YearZeroSong | etl.py:32 | a new song with year 0 is stored with year -1 and its other values, and its artist is stored |
| LoadProperties.SongFileIgnoresLaterRecords | etl.py:35-39 | for the same columns, records after the first never influence a song file's effect |
| LoadProperties.HaltedCommitsPrefix | etl.py:142-145 | a batch halted at file k has committed exactly files 0..k-1, and file k failed from that state |
| LoadProperties.BatchHaltsAtMalformedFile | etl.py:142-145 | with an unparseable second file of three, the first file is committed, the batch halts at the second with a parse error, and the third is never run |

## Left out

- The psycopg2 connection, cursor, `conn.close`, `main` and the numpy int64 adapter registration are driver glue. The database is the in-memory `Database` object; `Database.Connect` stands for the connect call.
- File discovery through `os.walk` and `glob` is left out. `ProcessData` receives the files in the order found.
- `pd.read_json` is not modelled: a file arrives already parsed, or as `Unparseable`, which aborts it with `ParseError`.
- Type coercion errors are not modelled: a cell whose JSON type does not fit its column, and `int(NaN)` conversions.
- `print` output other than the `i/num_files` counter pairs is left out.
- Floating-point values are opaque and compared by equality only. The one float comparison is `s.duration = %s` in the song lookup (sql_queries.py:120), and PostgreSQL's float equality treats NaN as equal to NaN, which equality on opaque values matches.
- Common.Option: the model reads every JSON null and every key absent from a record as SQL NULL. pandas holds such a cell as NaN when the key is missing from some of the file's records, or when the column is numeric or null throughout, and psycopg2 sends NaN as `'NaN'::float`, never as NULL. PostgreSQL then stores NaN in a float column (an unknown `artist_latitude` or `artist_longitude`), stores the text `'NaN'` in a VARCHAR column (a missing `artist_location`; a NOT NULL text column raises no violation), rejects it in the VARCHAR(1) `gender` column as too long, and rejects it in an INT or BIGINT column (`year`, `session_id`, `user_id`) as out of range rather than as a NOT NULL violation. The model's NULL outcomes, a stored NULL or a NOT NULL violation, are those of a cell that reaches the database as Python `None`.
- Transform.CleanCell: a blank cell becomes NULL, as the comment at `etl.py:28` intends. As written, the cell holds `np.nan` and goes the way of every NaN cell above: a blank text cell, NOT NULL ones such as song_id included, is stored as the text `'NaN'` and raises no NOT NULL violation.
- LoadProperties.SongFileEffect: counts a blank or NaN cell as NULL, following `Transform.CleanCell` and `Common.Option`, so a blank or partly missing song_id, artist_id, title or artist name fails the file here but is stored as `'NaN'` by the code as written, and a NaN year fails it there as out of range.
- LoadProperties.LogFileRejectsNullUser: counts a NaN user cell as NULL; as written a NaN userId is rejected as out of range and a NaN first_name, last_name or level is stored as `'NaN'`.
- Etl.LogFilePlanShape: a play event whose `ts` is null while the column exists is not represented, since `ts` is an integer. In the code it becomes NaT, and the time insert sends NaN to the BIGINT start_time, which PostgreSQL rejects.
- VARCHAR length limits are not checked, and the DROP and CREATE query lists are not modelled.
- The INT range -2^31..2^31-1 of user_id, session_id and year, and of the SERIAL songplay_id, is not checked (sql_queries.py:13,15,20,28,43). PostgreSQL rejects a value outside it with "integer out of range", and an exhausted SERIAL sequence fails the insert, which in either case aborts the file. The model's integers are unbounded, so such a row is accepted here.
- SqlQueries.CheckSongplay: rejects only NULLs; a user_id or session_id outside the INT range, or a songplay_id past the SERIAL maximum, is accepted (see the INT range line above).
- SqlQueries.CheckUser: rejects only NULLs; a user_id outside the INT range is accepted (for example 3000000000 from a log record).
- SqlQueries.CheckSong: rejects only NULLs; a year outside the INT range is accepted.
- SqlQueries.InsertSongplay: fails only as CheckSongplay does, so not on an out-of-range INT.
- SqlQueries.InsertUser: fails only as CheckUser does, so not on an out-of-range user_id.
- SqlQueries.InsertSong: fails only as CheckSong does, so not on an out-of-range year.
- SqlQueries.FetchOne: SQL leaves the order of `song_select`'s rows open; the model returns the first match in fact-table order.
- The SERIAL sequence is not transactional in PostgreSQL: a rolled-back insert still consumes a value. The model advances it only on committed inserts.
- Etl.ProcessSongFile, Etl.ProcessLogFile: after a failure the live state is not described. Nothing rolls it back: the exception leaves `process_data` and `main`, and the open transaction is discarded, uncommitted, when the process ends.
- Etl.ProcessData requires the live state to equal the committed state on entry (no uncommitted writes pending), as it is for a fresh connection.
- Calendar.IsoWeek: the week number is the ISO 8601 formula with the year-boundary adjustments. Beyond its bounds it is checked against concrete dates only, with no general proof that the weeks advance Monday to Monday.
- Concurrency and crashes mid-file are outside the model; the load is single-threaded.
