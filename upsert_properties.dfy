/** What the insert statements guarantee, one statement at a time: which row
    each one writes, which policy decides a key conflict, which NULLs reject
    the row, and that nothing outside its own key and table changes. */
module UpsertProperties {
  import opened Common
  import opened SqlQueries

  // ---------------------------------------------------------------------------
  // dim_songs: ON CONFLICT DO NOTHING
  // ---------------------------------------------------------------------------

  /** A song insert fails exactly when a NOT NULL column is NULL; otherwise the
      song_id is present afterwards, holding the earlier row if there was one and
      the new row if not, and no other song and no other table changes. */
  lemma SongInsertEffect(t: Tables, p: SongParams)
    ensures InsertSong(t, p).Err? <==> p.songId.None? || p.artistId.None? || p.title.None? || p.duration.None?
    ensures InsertSong(t, p).Err? ==> InsertSong(t, p).error == CheckSong(p).error
    ensures InsertSong(t, p).Ok? ==>
      var t', key := InsertSong(t, p).value, p.songId.value;
      && t'.(songs := t.songs) == t
      && key in t'.songs
      && t'.songs[key] == (if key in t.songs then t.songs[key]
                           else SongRow(key, p.artistId.value, p.title.value, p.year, p.duration.value))
      && t'.songs - {key} == t.songs - {key}
  {
  }

  /** First writer wins: re-inserting a known song_id leaves the state as it was. */
  lemma SongInsertKeepsExisting(t: Tables, p: SongParams)
    requires p.songId.Some? && p.songId.value in t.songs
    ensures InsertSong(t, p).Ok? ==> InsertSong(t, p).value == t
  {
  }

  // ---------------------------------------------------------------------------
  // dim_artists and dim_users: ON CONFLICT DO UPDATE of every non-key column
  // ---------------------------------------------------------------------------

  /** An artist insert stores the new name, location, latitude and longitude
      under its artist_id whether or not the id was present; nothing else changes. */
  lemma ArtistInsertEffect(t: Tables, p: ArtistParams)
    ensures InsertArtist(t, p).Err? <==> p.artistId.None? || p.name.None?
    ensures InsertArtist(t, p).Err? ==> InsertArtist(t, p).error == CheckArtist(p).error
    ensures InsertArtist(t, p).Ok? ==>
      var t', key := InsertArtist(t, p).value, p.artistId.value;
      && t'.(artists := t.artists) == t
      && key in t'.artists
      && t'.artists[key].name == p.name.value
      && t'.artists[key].location == p.location
      && t'.artists[key].latitude == p.latitude
      && t'.artists[key].longitude == p.longitude
      && t'.artists - {key} == t.artists - {key}
  {
  }

  /** A user insert stores the new first_name, last_name, gender and level under
      its user_id whether or not the id was present; nothing else changes. */
  lemma UserInsertEffect(t: Tables, p: UserParams)
    ensures InsertUser(t, p).Err? <==> p.userId.None? || p.firstName.None? || p.lastName.None? || p.level.None?
    ensures InsertUser(t, p).Err? ==> InsertUser(t, p).error == CheckUser(p).error
    ensures InsertUser(t, p).Ok? ==>
      var t', key := InsertUser(t, p).value, p.userId.value;
      && t'.(users := t.users) == t
      && key in t'.users
      && t'.users[key] == UserRow(key, p.firstName.value, p.lastName.value, p.gender, p.level.value)
      && t'.users - {key} == t.users - {key}
  {
  }

  // ---------------------------------------------------------------------------
  // dim_time: ON CONFLICT DO NOTHING, nothing nullable
  // ---------------------------------------------------------------------------

  /** A time insert never fails; the start_time is present afterwards with the
      earlier row if there was one; nothing else changes. */
  lemma TimeInsertEffect(t: Tables, row: TimeRow)
    ensures var t' := InsertTime(t, row);
      && t'.(times := t.times) == t
      && row.startTime in t'.times
      && t'.times[row.startTime] == (if row.startTime in t.times then t.times[row.startTime] else row)
      && t'.times - {row.startTime} == t.times - {row.startTime}
  {
  }

  /** Inserting the same time row again is a no-op. */
  lemma TimeInsertIdempotent(t: Tables, row: TimeRow)
    ensures InsertTime(InsertTime(t, row), row) == InsertTime(t, row)
  {
  }

  // ---------------------------------------------------------------------------
  // fact_songplays: a plain append with the next SERIAL value
  // ---------------------------------------------------------------------------

  /** A songplay insert appends exactly one row, numbered with the next sequence
      value and carrying the parameters; earlier rows and the other tables stay. */
  lemma SongplayInsertEffect(t: Tables, p: SongplayParams)
    ensures InsertSongplay(t, p).Err? <==>
      p.userId.None? || p.level.None? || p.sessionId.None? || p.location.None? || p.userAgent.None?
    ensures InsertSongplay(t, p).Err? ==> InsertSongplay(t, p).error == CheckSongplay(p, t.serial + 1).error
    ensures InsertSongplay(t, p).Ok? ==>
      var t' := InsertSongplay(t, p).value;
      && t'.(songplays := t.songplays, serial := t.serial) == t
      && |t'.songplays| == |t.songplays| + 1
      && t'.songplays[..|t.songplays|] == t.songplays
      && t'.serial == t.serial + 1
      && t'.songplays[|t.songplays|] ==
         SongplayRow(t.serial + 1, p.startTime, p.userId.value, p.level.value, p.songId, p.artistId,
                     p.sessionId.value, p.location.value, p.userAgent.value)
  {
    if InsertSongplay(t, p).Ok? {
      var t' := InsertSongplay(t, p).value;
      assert t'.songplays[..|t.songplays|] == t.songplays;
    }
  }

  /** The new songplay_id is larger than every id already in a consistent fact table. */
  lemma SongplayIdFresh(t: Tables, p: SongplayParams)
    requires Consistent(t)
    ensures InsertSongplay(t, p).Ok? ==>
      var t' := InsertSongplay(t, p).value;
      forall i :: 0 <= i < |t.songplays| ==>
        t.songplays[i].songplayId < t'.songplays[|t.songplays|].songplayId
  {
  }

  // ---------------------------------------------------------------------------
  // The table invariants
  // ---------------------------------------------------------------------------

  lemma SongInsertConsistent(t: Tables, p: SongParams)
    requires Consistent(t)
    ensures InsertSong(t, p).Ok? ==> Consistent(InsertSong(t, p).value)
  {
  }

  lemma ArtistInsertConsistent(t: Tables, p: ArtistParams)
    requires Consistent(t)
    ensures InsertArtist(t, p).Ok? ==> Consistent(InsertArtist(t, p).value)
  {
  }

  lemma UserInsertConsistent(t: Tables, p: UserParams)
    requires Consistent(t)
    ensures InsertUser(t, p).Ok? ==> Consistent(InsertUser(t, p).value)
  {
  }

  lemma TimeInsertConsistent(t: Tables, row: TimeRow)
    requires Consistent(t)
    ensures Consistent(InsertTime(t, row))
  {
  }

  lemma SongplayInsertConsistent(t: Tables, p: SongplayParams)
    requires Consistent(t)
    ensures InsertSongplay(t, p).Ok? ==> Consistent(InsertSongplay(t, p).value)
  {
    if InsertSongplay(t, p).Ok? {
      var t' := InsertSongplay(t, p).value;
      var n := |t.songplays|;
      assert forall i :: 0 <= i < n ==> t'.songplays[i] == t.songplays[i];
      assert t'.songplays[n].songplayId == t.serial + 1;
    }
  }

  // ---------------------------------------------------------------------------
  // song_select
  // ---------------------------------------------------------------------------

  /** Every fact row has NULL song_id and artist_id. */
  predicate AllUnresolved(t: Tables) {
    forall i :: 0 <= i < |t.songplays| ==> t.songplays[i].songId.None? && t.songplays[i].artistId.None?
  }

  /** Fact rows without a song_id contribute no result row. */
  lemma {:induction false} SelectFromUnresolved(t: Tables, plays: seq<SongplayRow>, song: Option<string>,
                                                artist: Option<string>, length: Option<Float>)
    requires forall i :: 0 <= i < |plays| ==> plays[i].songId.None?
    ensures SelectFrom(t, plays, song, artist, length) == []
    decreases |plays|
  {
    if plays != [] {
      SelectFromUnresolved(t, plays[1..], song, artist, length);
    }
  }

  /** song_select returns rows only from fact rows whose song_id is set. */
  lemma UnresolvedSelectsNothing(t: Tables, song: Option<string>, artist: Option<string>, length: Option<Float>)
    requires AllUnresolved(t)
    ensures SongSelect(t, song, artist, length) == []
  {
    SelectFromUnresolved(t, t.songplays, song, artist, length);
  }

  /** A fact row that joins to its song and artist, whose song_id is the first
      argument and whose song's duration and artist's name are the other two,
      is returned by song_select. */
  lemma SelectFindsMatch(t: Tables, i: nat, song: Option<string>, artist: Option<string>, length: Option<Float>)
    requires i < |t.songplays| && SelectMatch(t, t.songplays[i], song, artist, length)
    ensures (t.songplays[i].songId.value, t.songplays[i].artistId.value) in SongSelect(t, song, artist, length)
    ensures FetchOne(SongSelect(t, song, artist, length)).Some?
  {
  }
}
