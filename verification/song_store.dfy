/** The structured local store of the songbook (src/lib/db.ts): one
    IndexedDB database, `songbook-poc` at schema version 1, holding two
    object stores keyed by `id` — `songs` (metadata) and `songData`
    (payloads). A module-level handle is opened lazily by `initDB` on first
    use and reused afterwards; every operation opens it first.

    The browser's persisted database (its version, object stores and
    records) is state of the class below; the clock is a parameter. */
module SongStore {
  import opened Wrappers

  /** The version `initDB` asks `openDB` for. */
  const SchemaVersion: nat := 1

  /** The object stores the upgrade callback creates, each with its key path. */
  const Schema: map<string, string> := map["songs" := "id", "songData" := "id"]

  /** A record of the `songs` store; `lastUpdated` in milliseconds since the epoch. */
  datatype Song = Song(id: int, name: string, artist: string, lastUpdated: int)

  /** A record of the `songData` store; `data` is an opaque payload owned by
      the remote side (its serialised form here). */
  datatype SongData = SongData(id: int, data: string, lastUpdated: int)

  /** `openDB` rejects when the persisted database has a newer version. */
  datatype DbError = VersionError

  /** The settled promise of an operation that yields nothing. */
  datatype Outcome = Done | Failed(error: DbError)

  /** The settled promise of an operation that yields a value. */
  datatype Result<T> = Ok(value: T) | Err(error: DbError)

  /** Key path `id`: every record sits under its own id. */
  ghost predicate SongsKeyedById(songs: map<int, Song>) {
    forall k :: k in songs ==> songs[k].id == k
  }

  ghost predicate DataKeyedById(songData: map<int, SongData>) {
    forall k :: k in songData ==> songData[k].id == k
  }

  /** `IDBObjectStore.get`: the record, or `undefined` when the key is absent. */
  function Lookup<R>(store: map<int, R>, id: int): (r: Option<R>)
    ensures r.Some? <==> id in store
    ensures r.Some? ==> r.value == store[id]
  {
    if id in store then Some(store[id]) else None
  }

  /** `IDBObjectStore.put` of a song: insert, or replace the record at its id. */
  function Upsert(songs: map<int, Song>, song: Song): (m: map<int, Song>)
    ensures Lookup(m, song.id) == Some(song)
    ensures forall k :: k != song.id ==> Lookup(m, k) == Lookup(songs, k)
    ensures SongsKeyedById(songs) ==> SongsKeyedById(m)
  {
    songs[song.id := song]
  }

  /** A sequence of `saveSong` calls, in order. */
  function SaveSongs(songs: map<int, Song>, batch: seq<Song>): map<int, Song>
    decreases |batch|
  {
    if batch == [] then songs else SaveSongs(Upsert(songs, batch[0]), batch[1..])
  }

  /** Last write wins: after a sequence of saves, an id holds the song of the
      last save with that id, whatever the timestamps say. */
  lemma {:induction false} LastWriteWins(songs: map<int, Song>, batch: seq<Song>, i: int)
    requires 0 <= i < |batch|
    requires forall j :: i < j < |batch| ==> batch[j].id != batch[i].id
    ensures Lookup(SaveSongs(songs, batch), batch[i].id) == Some(batch[i])
    decreases |batch|
  {
    if i == 0 {
      SaveSongsKeepsOthers(Upsert(songs, batch[0]), batch[1..], batch[0].id);
    } else {
      LastWriteWins(Upsert(songs, batch[0]), batch[1..], i - 1);
    }
  }

  /** Saves of other ids leave a record alone. */
  lemma {:induction false} SaveSongsKeepsOthers(songs: map<int, Song>, batch: seq<Song>, id: int)
    requires forall j :: 0 <= j < |batch| ==> batch[j].id != id
    ensures Lookup(SaveSongs(songs, batch), id) == Lookup(songs, id)
    decreases |batch|
  {
    if batch != [] {
      SaveSongsKeepsOthers(Upsert(songs, batch[0]), batch[1..], id);
    }
  }

  /** No freshness check: a save replaces a stored song even when the
      stored one was updated later. */
  lemma StaleSaveOverwrites(songs: map<int, Song>, song: Song)
    requires song.id in songs && song.lastUpdated < songs[song.id].lastUpdated
    ensures Lookup(Upsert(songs, song), song.id) == Some(song)
    ensures Upsert(songs, song)[song.id].lastUpdated < songs[song.id].lastUpdated
  {
  }

  /** Every non-empty set of keys has a least element. */
  lemma {:induction false} LeastKeyExists(keys: set<int>)
    requires keys != {}
    ensures exists k :: k in keys && forall j :: j in keys ==> k <= j
    decreases keys
  {
    // a non-empty set has an element
    if forall y :: y !in keys {
      assert false;
    }
    var x :| x in keys;
    if keys != {x} {
      var rest := keys - {x};
      LeastKeyExists(rest);
      var m :| m in rest && forall j :: j in rest ==> m <= j;
      var least := if x < m then x else m;
      forall j | j in keys
        ensures least <= j
      {
        if j != x {
          assert j in rest;
        }
      }
    } else {
      assert forall j :: j in keys ==> x <= j;
    }
  }

  /** `IDBObjectStore.getAll` on `songs`: every stored song exactly once, no
      other value, in ascending key order. */
  method GetAll(songs: map<int, Song>) returns (all: seq<Song>)
    requires SongsKeyedById(songs)
    ensures forall i :: 0 <= i < |all| ==> all[i].id in songs && songs[all[i].id] == all[i]
    ensures forall k :: k in songs ==> songs[k] in all
    ensures forall i, j :: 0 <= i < j < |all| ==> all[i].id < all[j].id
  {
    all := [];
    var rest := songs.Keys;
    while rest != {}
      invariant rest <= songs.Keys
      invariant forall i :: 0 <= i < |all| ==> all[i].id in songs && songs[all[i].id] == all[i] && all[i].id !in rest
      invariant forall k :: k in songs && k !in rest ==> songs[k] in all
      invariant forall i, k :: 0 <= i < |all| && k in rest ==> all[i].id < k
      invariant forall i, j :: 0 <= i < j < |all| ==> all[i].id < all[j].id
      decreases rest
    {
      LeastKeyExists(rest);
      var k :| k in rest && forall j :: j in rest ==> k <= j;
      all := all + [songs[k]];
      rest := rest - {k};
    }
  }

  /** The database as the running page sees it. */
  class Database {
    /** The module-level `db` handle (src/lib/db.ts:23) has been set. */
    var initialized: bool
    /** The version the browser has persisted; 0 while the database does not exist. */
    var version: nat
    /** The persisted object stores, each with its key path. */
    var schema: map<string, string>
    var songs: map<int, Song>
    var songData: map<int, SongData>

    ghost predicate Valid()
      reads this
    {
      && SongsKeyedById(songs)
      && DataKeyedById(songData)
      && (version == 0 ==> schema == map[] && songs == map[] && songData == map[])
      && (version == SchemaVersion ==> schema == Schema)
      && (initialized ==> version == SchemaVersion)
    }

    /** `initDB` yields a handle: it is already set, or `openDB` succeeds
        because the persisted version is not newer than the one asked for. */
    predicate CanOpen()
      reads this
    {
      initialized || version <= SchemaVersion
    }

    /** A new page load over what the browser has persisted; the handle is unset. */
    constructor (version: nat, schema: map<string, string>, songs: map<int, Song>, songData: map<int, SongData>)
      requires SongsKeyedById(songs) && DataKeyedById(songData)
      requires version == 0 ==> schema == map[] && songs == map[] && songData == map[]
      requires version == SchemaVersion ==> schema == Schema
      ensures Valid() && !initialized
      ensures this.version == version && this.schema == schema
      ensures this.songs == songs && this.songData == songData
    {
      this.initialized := false;
      this.version := version;
      this.schema := schema;
      this.songs := songs;
      this.songData := songData;
    }

    /** `initDB` (src/lib/db.ts:25-36): once the handle is set, nothing
        happens; otherwise the database is opened at version 1, running the
        upgrade callback only when it did not exist. */
    method InitDB() returns (r: Outcome)
      requires Valid()
      modifies this
      ensures Valid()
      ensures r.Done? <==> old(CanOpen())
      ensures r.Done? ==> initialized
      ensures old(initialized) ==> unchanged(this)
      ensures r.Failed? ==> r.error == VersionError && unchanged(this)
      ensures !old(initialized) && old(version) == 0 ==> version == SchemaVersion && schema == Schema
      ensures songs == old(songs) && songData == old(songData)
    {
      if initialized {
        return Done;
      }
      if version > SchemaVersion {
        return Failed(VersionError);
      }
      if version < SchemaVersion {
        // upgrade(database): createObjectStore('songs'), createObjectStore('songData')
        schema := map[];
        schema := schema["songs" := "id"];
        schema := schema["songData" := "id"];
        version := SchemaVersion;
      }
      initialized := true;
      r := Done;
    }

    /** `saveSong` (src/lib/db.ts:38-41): upsert of the whole record. */
    method SaveSong(song: Song) returns (r: Outcome)
      requires Valid()
      modifies this
      ensures Valid()
      ensures r.Done? <==> old(CanOpen())
      ensures r.Done? ==> initialized && songs == Upsert(old(songs), song) && songData == old(songData)
      ensures r.Failed? ==> unchanged(this)
    {
      r := InitDB();
      if r.Done? {
        songs := Upsert(songs, song);
      }
    }

    /** `saveSongData` (src/lib/db.ts:43-50): upsert stamped with the clock. */
    method SaveSongData(id: int, data: string, now: int) returns (r: Outcome)
      requires Valid()
      modifies this
      ensures Valid()
      ensures r.Done? <==> old(CanOpen())
      ensures r.Done? ==> initialized && songs == old(songs)
      ensures r.Done? ==> Lookup(songData, id) == Some(SongData(id, data, now))
      ensures r.Done? ==> forall k :: k != id ==> Lookup(songData, k) == Lookup(old(songData), k)
      ensures r.Failed? ==> unchanged(this)
    {
      r := InitDB();
      if r.Done? {
        songData := songData[id := SongData(id, data, now)];
      }
    }

    /** `getSong` (src/lib/db.ts:52-55). */
    method GetSong(id: int) returns (r: Result<Option<Song>>)
      requires Valid()
      modifies this
      ensures Valid()
      ensures r == if old(CanOpen()) then Ok(Lookup(songs, id)) else Err(VersionError)
      ensures r.Ok? ==> initialized
      ensures songs == old(songs) && songData == old(songData)
      ensures r.Err? ==> unchanged(this)
    {
      var handle := InitDB();
      if handle.Failed? {
        return Err(handle.error);
      }
      r := Ok(Lookup(songs, id));
    }

    /** `getSongData` (src/lib/db.ts:57-60). */
    method GetSongData(id: int) returns (r: Result<Option<SongData>>)
      requires Valid()
      modifies this
      ensures Valid()
      ensures r == if old(CanOpen()) then Ok(Lookup(songData, id)) else Err(VersionError)
      ensures r.Ok? ==> initialized
      ensures songs == old(songs) && songData == old(songData)
      ensures r.Err? ==> unchanged(this)
    {
      var handle := InitDB();
      if handle.Failed? {
        return Err(handle.error);
      }
      r := Ok(Lookup(songData, id));
    }

    /** `getAllSongs` (src/lib/db.ts:62-65). */
    method GetAllSongs() returns (r: Result<seq<Song>>)
      requires Valid()
      modifies this
      ensures Valid()
      ensures r.Ok? <==> old(CanOpen())
      ensures r.Ok? ==> initialized
      ensures r.Ok? ==> forall i :: 0 <= i < |r.value| ==> Lookup(songs, r.value[i].id) == Some(r.value[i])
      ensures r.Ok? ==> forall k :: k in songs ==> songs[k] in r.value
      ensures r.Ok? ==> forall i, j :: 0 <= i < j < |r.value| ==> r.value[i].id < r.value[j].id
      ensures songs == old(songs) && songData == old(songData)
      ensures r.Err? ==> unchanged(this)
    {
      var handle := InitDB();
      if handle.Failed? {
        return Err(handle.error);
      }
      var all := GetAll(songs);
      r := Ok(all);
    }

    /** `deleteAllData` (src/lib/db.ts:67-71): the two stores are cleared
        one after the other. */
    method DeleteAllData() returns (r: Outcome)
      requires Valid()
      modifies this
      ensures Valid()
      ensures r.Done? <==> old(CanOpen())
      ensures r.Done? ==> initialized && songs == map[] && songData == map[]
      ensures r.Failed? ==> unchanged(this)
    {
      r := InitDB();
      if r.Done? {
        songs := map[];
        songData := map[];
      }
    }
  }
}
