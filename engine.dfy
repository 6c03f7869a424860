/**
 * The transcription engine's registry (crates/transcription/src/engine.rs): running workers by
 * key, the model chosen per room, the rooms with a broadcast task, and the playbacks each
 * WebSocket connection started. Room ids are their 24-digit hex strings; a worker is its task
 * number and the backend it was given; aborting a task adds its number to `aborted`.
 */
module Engine {
  import opened Wrappers
  import opened Text

  /** A room id as `to_hex` renders it: 24 lower-case hex digits. */
  predicate IsHexId(s: string)
  {
    |s| == 24 && forall i :: 0 <= i < |s| ==> IsAsciiDigit(s[i]) || 'a' <= s[i] <= 'f'
  }

  /** The key of a live pipeline: "{room_hex}:{producer_id}". */
  function LiveKey(roomHex: string, producerId: string): string
  {
    roomHex + ([':'] + producerId)
  }

  /** The key, and playback id, of a file playback: "file:{room_hex}:{uuid}". */
  function FileKey(roomHex: string, uuid: string): string
  {
    "file:" + (roomHex + ([':'] + uuid))
  }

  /** The keys `disable_room` stops: those starting with the room's hex or with "file:" and the hex. */
  predicate RoomKey(key: string, roomHex: string)
  {
    StartsWith(key, roomHex) || StartsWith(key, "file:" + roomHex)
  }

  /**
   * A live or file key belongs to exactly one room: `disable_room` of one room never stops
   * another room's workers, and always stops its own.
   */
  lemma RoomKeysExactly(roomHex: string, other: string, producerId: string, uuid: string)
    requires IsHexId(roomHex) && IsHexId(other)
    ensures RoomKey(LiveKey(other, producerId), roomHex) <==> other == roomHex
    ensures RoomKey(FileKey(other, uuid), roomHex) <==> other == roomHex
  {
    var live, file := LiveKey(other, producerId), FileKey(other, uuid);
    assert live[..24] == other;
    assert file[..29] == "file:" + other;
    // 'i' is not a hex digit, so no live key starts with "file:" and no file key with a room id
    assert ("file:" + roomHex)[1] == 'i' && live[1] == other[1] && file[1] == 'i';
    assert IsAsciiDigit(other[1]) || 'a' <= other[1] <= 'f';
    assert IsAsciiDigit(roomHex[1]) || 'a' <= roomHex[1] <= 'f';
    if StartsWith(file, "file:" + roomHex) {
      assert ("file:" + other)[5..] == other && ("file:" + roomHex)[5..] == roomHex;
    }
  }

  /** Distinct producers of rooms get distinct keys, and no live key is a file key. */
  lemma KeysDistinct(r1: string, p1: string, r2: string, p2: string, uuid: string)
    requires IsHexId(r1) && IsHexId(r2)
    ensures LiveKey(r1, p1) == LiveKey(r2, p2) <==> r1 == r2 && p1 == p2
    ensures LiveKey(r1, p1) != FileKey(r2, uuid)
  {
    var k1, k2 := LiveKey(r1, p1), LiveKey(r2, p2);
    if k1 == k2 {
      assert k1[..24] == r1 && k2[..24] == r2;
      assert k1[25..] == p1 && k2[25..] == p2;
    }
    assert LiveKey(r1, p1)[1] == r1[1];
    assert FileKey(r2, uuid)[1] == 'i';
  }

  /**
   * `get_backend`: the room's model if it names a backend, else the default backend, else the
   * first backend in the table's iteration order, else none.
   */
  function ResolveBackend(backends: seq<string>, defaultBackend: string, models: map<string, string>, roomHex: string): (r: Option<string>)
    ensures r.Some? <==> |backends| > 0
    ensures r.Some? ==> r.value in backends
    ensures roomHex in models && models[roomHex] in backends ==> r == Some(models[roomHex])
    ensures (roomHex !in models || models[roomHex] !in backends) && defaultBackend in backends ==> r == Some(defaultBackend)
    ensures r.Some? && r.value != defaultBackend && (roomHex !in models || r.value != models[roomHex]) ==>
      defaultBackend !in backends && r.value == backends[0]
  {
    var wanted := if roomHex in models then models[roomHex] else defaultBackend;
    if wanted in backends then Some(wanted)
    else if defaultBackend in backends then Some(defaultBackend)
    else if |backends| > 0 then Some(backends[0])
    else None
  }

  /** A running worker: its task and the backend it transcribes with. */
  datatype Handle = Handle(task: nat, backend: string)

  /** The workers left after the keys in `gone` are stopped. */
  function Remaining(workers: map<string, Handle>, gone: set<string>): (r: map<string, Handle>)
    ensures forall k :: k in r <==> k in workers && k !in gone
  {
    map k | k in workers && k !in gone :: workers[k]
  }

  /** The tasks aborted when the keys in `gone` are stopped. */
  function TasksOf(workers: map<string, Handle>, gone: set<string>): set<nat>
  {
    set k | k in workers && k in gone :: workers[k].task
  }

  function SetOf(keys: seq<string>): set<string>
  {
    set k | k in keys
  }

  /** Stopping one more key after a set of them is stopping the larger set. */
  lemma StopOneMore(workers: map<string, Handle>, gone: set<string>, key: string)
    ensures Remaining(Remaining(workers, gone), {key}) == Remaining(workers, gone + {key})
    ensures TasksOf(workers, gone) + TasksOf(Remaining(workers, gone), {key}) == TasksOf(workers, gone + {key})
  {
    assert Remaining(Remaining(workers, gone), {key}) == Remaining(workers, gone + {key});
  }

  /** The playback ids a connection has started, none when it is not tracked. */
  function PlaybacksOf(playbacks: map<string, seq<string>>, connectionId: string): seq<string>
  {
    if connectionId in playbacks then playbacks[connectionId] else []
  }

  class TranscriptionEngine {
    /** The backend names, in the table's iteration order. */
    const backends: seq<string>
    const defaultBackend: string
    var workers: map<string, Handle>
    var roomModels: map<string, string>
    var broadcastActive: set<string>
    var connectionPlaybacks: map<string, seq<string>>
    /** Tasks aborted so far. */
    var aborted: set<nat>
    /** Tasks spawned so far; the next one gets this number. */
    var nextTask: nat

    /** Every worker's task was spawned, is not aborted, and belongs to no other key. */
    ghost predicate Valid()
      reads this
    {
      (forall k :: k in workers ==> workers[k].task < nextTask && workers[k].task !in aborted)
      && (forall t :: t in aborted ==> t < nextTask)
      && (forall k1, k2 :: k1 in workers && k2 in workers && k1 != k2 ==> workers[k1].task != workers[k2].task)
    }

    /** `new`: no workers, no room models, no broadcasts, no playbacks. */
    constructor (backends: seq<string>, defaultBackend: string)
      ensures Valid()
      ensures this.backends == backends && this.defaultBackend == defaultBackend
      ensures workers == map[] && roomModels == map[] && broadcastActive == {} && connectionPlaybacks == map[]
      ensures aborted == {} && nextTask == 0
    {
      this.backends := backends;
      this.defaultBackend := defaultBackend;
      workers, roomModels, broadcastActive, connectionPlaybacks := map[], map[], {}, map[];
      aborted, nextTask := {}, 0;
    }

    /** `try_start_broadcast`: true iff the room was not flagged; it is flagged afterwards. */
    method TryStartBroadcast(roomHex: string) returns (started: bool)
      modifies this`broadcastActive
      ensures started <==> roomHex !in old(broadcastActive)
      ensures broadcastActive == old(broadcastActive) + {roomHex}
    {
      started := roomHex !in broadcastActive;
      broadcastActive := broadcastActive + {roomHex};
    }

    /** `clear_broadcast`: the room is no longer flagged; other rooms keep theirs. */
    method ClearBroadcast(roomHex: string)
      modifies this`broadcastActive
      ensures broadcastActive == old(broadcastActive) - {roomHex}
    {
      broadcastActive := broadcastActive - {roomHex};
    }

    predicate IsEnabled(roomHex: string)
      reads this
    {
      roomHex in roomModels
    }

    /** `enable_room`: the room is enabled with this model, replacing the one it had. */
    method EnableRoom(roomHex: string, modelName: string)
      modifies this`roomModels
      ensures roomModels == old(roomModels)[roomHex := modelName]
      ensures IsEnabled(roomHex)
    {
      roomModels := roomModels[roomHex := modelName];
    }

    /** `stop_pipeline`: the key's worker, if any, is aborted and forgotten; an absent key changes nothing. */
    method StopPipeline(key: string)
      requires Valid()
      modifies this`workers, this`aborted
      ensures Valid()
      ensures workers == Remaining(old(workers), {key})
      ensures aborted == old(aborted) + TasksOf(old(workers), {key})
      ensures key !in old(workers) ==> workers == old(workers) && aborted == old(aborted)
    {
      if key in workers {
        aborted := aborted + {workers[key].task};
        workers := Remaining(workers, {key});
      }
      assert TasksOf(old(workers), {key}) == if key in old(workers) then {old(workers)[key].task} else {};
    }

    /** Stops the keys one after another, as the loops of `disable_room` and `stop_connection_playbacks` do. */
    method StopEach(keys: seq<string>)
      requires Valid()
      modifies this`workers, this`aborted
      ensures Valid()
      ensures workers == Remaining(old(workers), SetOf(keys))
      ensures aborted == old(aborted) + TasksOf(old(workers), SetOf(keys))
    {
      for i := 0 to |keys|
        invariant Valid()
        invariant workers == Remaining(old(workers), SetOf(keys[..i]))
        invariant aborted == old(aborted) + TasksOf(old(workers), SetOf(keys[..i]))
      {
        assert SetOf(keys[..i + 1]) == SetOf(keys[..i]) + {keys[i]} by {
          assert keys[..i + 1] == keys[..i] + [keys[i]];
        }
        StopOneMore(old(workers), SetOf(keys[..i]), keys[i]);
        StopPipeline(keys[i]);
      }
      assert keys[..|keys|] == keys;
    }

    /** The keys `disable_room` collects: every worker key of the room, in some order. */
    method CollectRoomKeys(roomHex: string) returns (toRemove: seq<string>)
      ensures SetOf(toRemove) == set k | k in workers && RoomKey(k, roomHex)
    {
      var rest := set k | k in workers && RoomKey(k, roomHex);
      toRemove := [];
      while rest != {}
        invariant SetOf(toRemove) + rest == set k | k in workers && RoomKey(k, roomHex)
        decreases |rest|
      {
        var k :| k in rest;
        assert SetOf(toRemove + [k]) == SetOf(toRemove) + {k};
        toRemove := toRemove + [k];
        rest := rest - {k};
      }
    }

    /**
     * `disable_room`: the room is no longer enabled, every worker whose key is the room's is
     * aborted, every other worker keeps running, and the broadcast flag is cleared.
     */
    method DisableRoom(roomHex: string)
      requires Valid()
      modifies this`roomModels, this`workers, this`aborted, this`broadcastActive
      ensures Valid()
      ensures roomModels == old(roomModels) - {roomHex} && !IsEnabled(roomHex)
      ensures forall k :: k in workers <==> k in old(workers) && !RoomKey(k, roomHex)
      ensures forall k :: k in workers ==> workers[k] == old(workers)[k]
      ensures aborted == old(aborted) + TasksOf(old(workers), set k | k in old(workers) && RoomKey(k, roomHex))
      ensures broadcastActive == old(broadcastActive) - {roomHex}
    {
      roomModels := roomModels - {roomHex};
      var toRemove := CollectRoomKeys(roomHex);
      StopEach(toRemove);
      ClearBroadcast(roomHex);
    }

    /** `spawn_worker`: a new task with this backend runs under the key. */
    method Spawn(key: string, backend: string)
      requires Valid()
      modifies this`workers, this`nextTask
      ensures Valid()
      ensures workers == old(workers)[key := Handle(old(nextTask), backend)]
      ensures nextTask == old(nextTask) + 1
    {
      workers := workers[key := Handle(nextTask, backend)];
      nextTask := nextTask + 1;
    }

    /**
     * `start_pipeline` (the path that reads the room models): an existing worker under the key
     * is stopped first; then, if a backend resolves, a new worker runs there with it.
     */
    method StartPipeline(roomHex: string, producerId: string)
      requires Valid()
      modifies this`workers, this`aborted, this`nextTask
      ensures Valid()
      ensures var key := LiveKey(roomHex, producerId);
        aborted == old(aborted) + TasksOf(old(workers), {key})
      ensures var key, b := LiveKey(roomHex, producerId), ResolveBackend(backends, defaultBackend, roomModels, roomHex);
        if b.Some? then workers == old(workers)[key := Handle(old(nextTask), b.value)] && nextTask == old(nextTask) + 1
        else workers == Remaining(old(workers), {key}) && nextTask == old(nextTask)
    {
      var key := LiveKey(roomHex, producerId);
      if key in workers {
        StopPipeline(key);
      }
      assert workers == Remaining(old(workers), {key});
      assert aborted == old(aborted) + TasksOf(old(workers), {key});
      var b := ResolveBackend(backends, defaultBackend, roomModels, roomHex);
      if b.None? {
        return;
      }
      Spawn(key, b.value);
      assert workers == old(workers)[key := Handle(old(nextTask), b.value)];
    }

    /** The end of a worker's task on its own: its key is removed, nothing is aborted. */
    method WorkerFinished(key: string)
      requires Valid()
      modifies this`workers
      ensures Valid()
      ensures workers == Remaining(old(workers), {key})
    {
      workers := Remaining(workers, {key});
    }

    /** `stop_producer`: stops exactly the producer's live key. */
    method StopProducer(roomHex: string, producerId: string)
      requires Valid()
      modifies this`workers, this`aborted
      ensures Valid()
      ensures workers == Remaining(old(workers), {LiveKey(roomHex, producerId)})
      ensures aborted == old(aborted) + TasksOf(old(workers), {LiveKey(roomHex, producerId)})
    {
      StopPipeline(LiveKey(roomHex, producerId));
    }

    /** `active_pipeline_count`: the number of keys with a running worker. */
    method ActivePipelineCount() returns (n: nat)
      ensures n == |workers.Keys|
    {
      n := |workers.Keys|;
    }

    /** `available_backends`: every backend name once, in table order. */
    method AvailableBackends() returns (names: seq<string>)
      ensures names == backends
    {
      names := backends;
    }

    /** `track_playback`: the id is appended to the connection's list, which is created if missing. */
    method TrackPlayback(connectionId: string, playbackId: string)
      modifies this`connectionPlaybacks
      ensures connectionPlaybacks == old(connectionPlaybacks)[connectionId := PlaybacksOf(old(connectionPlaybacks), connectionId) + [playbackId]]
    {
      connectionPlaybacks := connectionPlaybacks[connectionId := PlaybacksOf(connectionPlaybacks, connectionId) + [playbackId]];
    }

    /** `stop_connection_playbacks`: every id the connection tracked is stopped and the connection is forgotten. */
    method StopConnectionPlaybacks(connectionId: string)
      requires Valid()
      modifies this`connectionPlaybacks, this`workers, this`aborted
      ensures Valid()
      ensures connectionPlaybacks == old(connectionPlaybacks) - {connectionId}
      ensures workers == Remaining(old(workers), SetOf(PlaybacksOf(old(connectionPlaybacks), connectionId)))
      ensures aborted == old(aborted) + TasksOf(old(workers), SetOf(PlaybacksOf(old(connectionPlaybacks), connectionId)))
    {
      if connectionId in connectionPlaybacks {
        var playbackIds := connectionPlaybacks[connectionId];
        connectionPlaybacks := connectionPlaybacks - {connectionId};
        StopEach(playbackIds);
      } else {
        assert SetOf([]) == {};
        assert Remaining(workers, {}) == workers;
        assert TasksOf(workers, {}) == {};
      }
    }

    /**
     * `start_file_playback`: none, and nothing changes, when no backend resolves; otherwise a
     * worker with the resolved backend runs under the playback id "file:{room_hex}:{uuid}".
     */
    method StartFilePlayback(roomHex: string, uuid: string) returns (playbackId: Option<string>)
      requires Valid()
      modifies this`workers, this`nextTask
      ensures Valid()
      ensures var b := ResolveBackend(backends, defaultBackend, roomModels, roomHex);
        (b.None? ==> playbackId.None? && workers == old(workers) && nextTask == old(nextTask))
        && (b.Some? ==>
              playbackId == Some(FileKey(roomHex, uuid))
              && workers == old(workers)[FileKey(roomHex, uuid) := Handle(old(nextTask), b.value)]
              && nextTask == old(nextTask) + 1)
    {
      var b := ResolveBackend(backends, defaultBackend, roomModels, roomHex);
      if b.None? {
        return None;
      }
      var key := FileKey(roomHex, uuid);
      Spawn(key, b.value);
      playbackId := Some(key);
    }
  }
}
