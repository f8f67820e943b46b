/**
 * What the upload handlers act on, with the I/O abstracted: the record
 * store (`getVideo` / `updateVideo`), the local file system, the object
 * store and a log of every effect in the order it happened. Also the
 * handlers' shared inputs and outcomes: the configuration, the form
 * field, the error kinds, and the two gates both handlers apply (caller
 * identity and ownership).
 */
module World {
  import opened Wrappers

  /** A video record as the record store keeps it. */
  datatype VideoRecord = VideoRecord(
    id: string,
    userID: string,
    title: string,
    description: string,
    thumbnailURL: Option<string>,
    videoURL: Option<string>)

  /** An object in durable storage: its declared content type and the local file its bytes were read from. */
  datatype StoredObject = StoredObject(contentType: string, source: string)

  /** One externally visible step of a handler. */
  datatype Effect =
    | WriteFile(path: string)                     // Bun.write
    | RunProbe(path: string)                      // ffprobe on a local file
    | RunRemux(input: string, output: string)     // ffmpeg fast-start remux
    | PutObject(key: string, obj: StoredObject)   // object-store write
    | UpdateRecord(rec: VideoRecord)              // updateVideo
    | DeleteFile(path: string)                    // BunFile.delete

  /** The observable state: records by id, local files, stored objects by key. */
  datatype WorldState = WorldState(
    records: map<string, VideoRecord>,
    files: set<string>,
    objects: map<string, StoredObject>)

  /** What one effect does to the state. */
  function Step(s: WorldState, e: Effect): WorldState {
    match e
    case WriteFile(p) => s.(files := s.files + {p})
    case RunProbe(_) => s
    case RunRemux(_, out) => s.(files := s.files + {out})
    case PutObject(k, o) => s.(objects := s.objects[k := o])
    case UpdateRecord(r) => s.(records := s.records[r.id := r])
    case DeleteFile(p) => s.(files := s.files - {p})
  }

  /** The effects performed in order. */
  function Apply(s: WorldState, es: seq<Effect>): WorldState
    decreases |es|
  {
    if es == [] then s else Apply(Step(s, es[0]), es[1..])
  }

  /** Performing one more effect extends the run by one step. */
  lemma {:induction false} ApplySnoc(s: WorldState, es: seq<Effect>, e: Effect)
    ensures Apply(s, es + [e]) == Step(Apply(s, es), e)
    decreases |es|
  {
    if es != [] {
      assert (es + [e])[1..] == es[1..] + [e];
      ApplySnoc(Step(s, es[0]), es[1..], e);
    }
  }

  /** The first effect is performed first. */
  lemma ApplyCons(s: WorldState, e: Effect, es: seq<Effect>)
    ensures Apply(s, [e] + es) == Apply(Step(s, e), es)
  {
    assert ([e] + es)[1..] == es;
  }

  /** Performing two runs one after the other is performing their concatenation. */
  lemma {:induction false} ApplyAppend(s: WorldState, a: seq<Effect>, b: seq<Effect>)
    ensures Apply(s, a + b) == Apply(Apply(s, a), b)
    decreases |a|
  {
    if a != [] {
      assert (a + b)[1..] == a[1..] + b;
      ApplyAppend(Step(s, a[0]), a[1..], b);
    } else {
      assert a + b == b;
    }
  }

  /** Records are keyed by their own id. */
  predicate Keyed(records: map<string, VideoRecord>) {
    forall id :: id in records ==> records[id].id == id
  }

  /** `getVideo`: the record with that id, or `undefined`. */
  function Lookup(records: map<string, VideoRecord>, id: string): Option<VideoRecord> {
    if id in records then Some(records[id]) else None
  }

  /** Server configuration the handlers read. */
  datatype Config = Config(cloudfrontUrl: string, assetsRoot: string, port: string)

  /** What `formData.get(name)` yields: nothing, a text value, or a file with its size and declared type. */
  datatype FormValue = Missing | Text(value: string) | File(size: nat, mediaType: string)

  /** The error classes a handler throws. */
  datatype Failure =
    | BadRequest(message: string)
    | Unauthorized
    | Forbidden(message: string)
    | ServerError(message: string)

  datatype Response = Ok(record: VideoRecord) | Error(failure: Failure)

  /** The outcome of one validation gate. */
  datatype Verdict = Pass | Reject(failure: Failure)

  /**
   * What one write to a store does: it completes, or it throws with the
   * store's own message and changes nothing.
   */
  datatype WriteOutcome = Written | Thrown(message: string)

  /** A handler's reply together with the effects it performed, in order. */
  datatype Run = Run(response: Response, effects: seq<Effect>)

  /**
   * `getBearerToken` and `validateJWT`: the caller's user id, or `None`
   * when the header is missing or the token does not validate.
   */
  function CheckCaller(caller: Option<string>): (v: Verdict)
    ensures v.Pass? <==> caller.Some?
    ensures v.Reject? ==> v.failure == Unauthorized
  {
    if caller.None? then Reject(Unauthorized) else Pass
  }

  /** The ownership gate: an absent record and another user's record are both refused. */
  function CheckOwner(rec: Option<VideoRecord>, userID: string, message: string): (v: Verdict)
    ensures v.Pass? <==> rec.Some? && rec.value.userID == userID
    ensures v.Reject? ==> v.failure == Forbidden(message)
  {
    if rec.None? || rec.value.userID != userID then Reject(Forbidden(message)) else Pass
  }

  /**
   * The environment of a handler: the state it changes and the log of
   * what it did.
   */
  class Server {
    var records: map<string, VideoRecord>
    var files: set<string>
    var objects: map<string, StoredObject>
    var log: seq<Effect>

    function Current(): WorldState
      reads this
    {
      WorldState(records, files, objects)
    }

    constructor (records: map<string, VideoRecord>, files: set<string>, objects: map<string, StoredObject>)
      ensures Current() == WorldState(records, files, objects) && log == []
    {
      this.records := records;
      this.files := files;
      this.objects := objects;
      this.log := [];
    }

    method GetVideo(id: string) returns (r: Option<VideoRecord>)
      ensures r == Lookup(records, id)
    {
      r := if id in records then Some(records[id]) else None;
    }

    method Write(path: string, outcome: WriteOutcome)
      modifies this
      ensures outcome.Written? ==> Current() == Step(old(Current()), WriteFile(path)) && log == old(log) + [WriteFile(path)]
      ensures outcome.Thrown? ==> Current() == old(Current()) && log == old(log)
    {
      if outcome.Written? {
        files := files + {path};
        log := log + [WriteFile(path)];
      }
    }

    method Probe(path: string)
      modifies this
      ensures Current() == Step(old(Current()), RunProbe(path))
      ensures log == old(log) + [RunProbe(path)]
    {
      log := log + [RunProbe(path)];
    }

    method Remux(input: string, output: string)
      modifies this
      ensures Current() == Step(old(Current()), RunRemux(input, output))
      ensures log == old(log) + [RunRemux(input, output)]
    {
      files := files + {output};
      log := log + [RunRemux(input, output)];
    }

    method Put(key: string, obj: StoredObject, outcome: WriteOutcome)
      modifies this
      ensures outcome.Written? ==> Current() == Step(old(Current()), PutObject(key, obj)) && log == old(log) + [PutObject(key, obj)]
      ensures outcome.Thrown? ==> Current() == old(Current()) && log == old(log)
    {
      if outcome.Written? {
        objects := objects[key := obj];
        log := log + [PutObject(key, obj)];
      }
    }

    method UpdateVideo(rec: VideoRecord, outcome: WriteOutcome)
      modifies this
      ensures outcome.Written? ==> Current() == Step(old(Current()), UpdateRecord(rec)) && log == old(log) + [UpdateRecord(rec)]
      ensures outcome.Thrown? ==> Current() == old(Current()) && log == old(log)
    {
      if outcome.Written? {
        records := records[rec.id := rec];
        log := log + [UpdateRecord(rec)];
      }
    }

    method Delete(path: string)
      modifies this
      ensures Current() == Step(old(Current()), DeleteFile(path))
      ensures log == old(log) + [DeleteFile(path)]
    {
      files := files - {path};
      log := log + [DeleteFile(path)];
    }
  }
}
