/**
 * The video ingestion handler (`handlerUploadVideo`): validation gates,
 * staging, probing, fast-start remux, upload under an orientation-prefixed
 * key, record update and removal of the two local files.
 */
module Videos {
  import opened Wrappers
  import opened Encoding
  import opened Paths
  import opened Orientation
  import opened World

  /** `1 << 30`: one gibibyte. */
  const VideoSizeLimit: int := 0x4000_0000

  const InvalidIdMessage := "Invalid or Missing video ID"
  const NotOwnerMessage := "Provided user is not owner of video"
  const NotAFileMessage := "Video is not a file"
  const TooLargeMessage := "Video exceeds upload size limit"
  const NotMp4Message := "Invalid file type, not an mp4"
  const Mp4Type := "video/mp4"

  /** What the prober throws. */
  function ProbeMessage(e: ProbeError): string {
    match e
    case ProcessFailed => "Error while spawning new bun process"
    case NoStream => "undefined is not an object (evaluating 'stdout.streams[0].width')"
    case MissingDimensions => "Error extracting video dimensions, object missing fields"
  }

  /** The id gate: present and shaped like a UUID. */
  function CheckVideoId(videoId: Option<string>): (v: Verdict)
    ensures v.Pass? <==> videoId.Some? && IsUuid(videoId.value)
    ensures v.Reject? ==> v.failure == BadRequest(InvalidIdMessage)
  {
    if videoId.None? || !IsUuid(videoId.value) then Reject(BadRequest(InvalidIdMessage)) else Pass
  }

  /** The upload gate: a file, at most the limit, declared `video/mp4`; the size is checked before the type. */
  function CheckVideoFile(form: FormValue): (v: Verdict)
    ensures v.Pass? <==> form.File? && form.size <= VideoSizeLimit && form.mediaType == Mp4Type
    ensures !form.File? ==> v == Reject(BadRequest(NotAFileMessage))
    ensures form.File? && form.size > VideoSizeLimit ==> v == Reject(BadRequest(TooLargeMessage))
    ensures form.File? && form.size <= VideoSizeLimit && form.mediaType != Mp4Type ==>
      v == Reject(BadRequest(NotMp4Message))
  {
    if !form.File? then Reject(BadRequest(NotAFileMessage))
    else if form.size > VideoSizeLimit then Reject(BadRequest(TooLargeMessage))
    else if form.mediaType != Mp4Type then Reject(BadRequest(NotMp4Message))
    else Pass
  }

  /** All gates in the handler's order: id, caller, ownership, then the form. */
  function VideoGate(records: map<string, VideoRecord>, videoId: Option<string>,
                     caller: Option<string>, form: FormValue): Verdict
  {
    if CheckVideoId(videoId).Reject? then CheckVideoId(videoId)
    else if CheckCaller(caller).Reject? then CheckCaller(caller)
    else if CheckOwner(Lookup(records, videoId.value), caller.value, NotOwnerMessage).Reject? then
      CheckOwner(Lookup(records, videoId.value), caller.value, NotOwnerMessage)
    else CheckVideoFile(form)
  }

  /** The object name `<hex>.mp4`, which is also the staged file's name. */
  function ObjectName(token: seq<byte>): string {
    Hex(token) + ".mp4"
  }

  /** The storage key `<orientation>/<hex>.mp4`. */
  function StorageKey(o: Orientation, token: seq<byte>): string {
    Name(o) + "/" + ObjectName(token)
  }

  /** The public address of a stored key: the configured base URL followed by the key. */
  function VideoURL(cfg: Config, key: string): string {
    cfg.cloudfrontUrl + key
  }

  /**
   * How the three store writes of one upload turn out: staging the upload
   * locally, writing the processed file to the object store, and
   * persisting the record.
   */
  datatype VideoWrites = VideoWrites(stage: WriteOutcome, upload: WriteOutcome, record: WriteOutcome)

  /** Every store write completes. */
  const AllWritten := VideoWrites(Written, Written, Written)

  /**
   * The steps after a successful probe, for a staged file and its storage
   * key: remux, upload the processed file, record its URL, delete both
   * local files. A throwing upload or record write ends the request there,
   * with nothing cleaned up.
   */
  function PublishRun(rec: VideoRecord, cfg: Config, mediaType: string, staged: string, key: string,
                      writes: VideoWrites): Run
  {
    var processed := FastStartPath(staged);
    var obj := StoredObject(mediaType, processed);
    var updated := rec.(videoURL := Some(VideoURL(cfg, key)));
    if writes.upload.Thrown? then
      Run(Error(ServerError(writes.upload.message)), [RunRemux(staged, processed)])
    else if writes.record.Thrown? then
      Run(Error(ServerError(writes.record.message)), [RunRemux(staged, processed), PutObject(key, obj)])
    else
      Run(Ok(updated),
          [RunRemux(staged, processed), PutObject(key, obj),
           UpdateRecord(updated), DeleteFile(staged), DeleteFile(processed)])
  }

  /**
   * The pipeline once every gate has passed, for the caller's record and
   * the declared type of the uploaded file: stage and probe; a throwing
   * staging write ends the request before anything exists, and a probe
   * failure throws there, leaving the staged file in place.
   */
  function IngestRun(rec: VideoRecord, cfg: Config, mediaType: string, token: seq<byte>,
                     probe: ProbeOutput, writes: VideoWrites): Run
  {
    var staged := StagingPath(ObjectName(token));
    if writes.stage.Thrown? then Run(Error(ServerError(writes.stage.message)), [])
    else match AspectRatio(probe)
    case Failure(e) => Run(Error(ServerError(ProbeMessage(e))), [WriteFile(staged), RunProbe(staged)])
    case Success(o) =>
      var publish := PublishRun(rec, cfg, mediaType, staged, StorageKey(o, token), writes);
      Run(publish.response, [WriteFile(staged), RunProbe(staged)] + publish.effects)
  }

  /** The effects of one upload and its reply; a refused request does nothing. */
  function VideoRun(records: map<string, VideoRecord>, cfg: Config, videoId: Option<string>,
                    caller: Option<string>, form: FormValue, token: seq<byte>, probe: ProbeOutput,
                    writes: VideoWrites): Run
  {
    var gate := VideoGate(records, videoId, caller, form);
    if gate.Reject? then Run(Error(gate.failure), [])
    else IngestRun(records[videoId.value], cfg, form.mediaType, token, probe, writes)
  }

  /**
   * `handlerUploadVideo`. The caller's id is what token validation
   * yields, `token` the 32 random bytes, `probe` what the inspection
   * process reports for the staged file, `writes` how the store writes
   * turn out.
   */
  method UploadVideo(w: Server, cfg: Config, videoId: Option<string>, caller: Option<string>,
                     form: FormValue, token: seq<byte>, probe: ProbeOutput, writes: VideoWrites)
    returns (response: Response)
    modifies w
    ensures var run := VideoRun(old(w.records), cfg, videoId, caller, form, token, probe, writes);
      && response == run.response
      && w.log == old(w.log) + run.effects
      && w.Current() == Apply(old(w.Current()), run.effects)
  {
    var v := CheckVideoId(videoId);
    if v.Reject? {
      return Error(v.failure);
    }
    var id := videoId.value;
    v := CheckCaller(caller);
    if v.Reject? {
      return Error(v.failure);
    }
    var userID := caller.value;
    var record := w.GetVideo(id);
    v := CheckOwner(record, userID, NotOwnerMessage);
    if v.Reject? {
      return Error(v.failure);
    }
    v := CheckVideoFile(form);
    if v.Reject? {
      return Error(v.failure);
    }
    response := Ingest(w, record.value, cfg, form.mediaType, token, probe, writes);
  }

  /** The pipeline steps of `handlerUploadVideo` after validation. */
  method Ingest(w: Server, rec: VideoRecord, cfg: Config, mediaType: string, token: seq<byte>,
                probe: ProbeOutput, writes: VideoWrites) returns (response: Response)
    modifies w
    ensures var run := IngestRun(rec, cfg, mediaType, token, probe, writes);
      && response == run.response
      && w.log == old(w.log) + run.effects
      && w.Current() == Apply(old(w.Current()), run.effects)
  {
    ghost var s0 := w.Current();
    var s3Key := ObjectName(token);
    var staged := StagingPath(s3Key);
    w.Write(staged, writes.stage);
    if writes.stage.Thrown? {
      return Error(ServerError(writes.stage.message));
    }
    var ratio := GetVideoAspectRatio(w, staged, probe);
    ghost var prefix := [WriteFile(staged), RunProbe(staged)];
    ApplyCons(Step(s0, WriteFile(staged)), RunProbe(staged), []);
    ApplyCons(s0, WriteFile(staged), [RunProbe(staged)]);
    if ratio.Failure? {
      return Error(ServerError(ProbeMessage(ratio.error)));
    }
    var fullKey := Name(ratio.value) + "/" + s3Key;
    response := Publish(w, rec, cfg, mediaType, staged, fullKey, writes);
    ApplyAppend(s0, prefix, PublishRun(rec, cfg, mediaType, staged, fullKey, writes).effects);
  }

  /** `getVideoAspectRatio`: the prober runs on the file, and what it reports is classified. */
  method GetVideoAspectRatio(w: Server, filePath: string, probe: ProbeOutput)
    returns (ratio: Result<Orientation, ProbeError>)
    modifies w
    ensures ratio == AspectRatio(probe)
    ensures w.Current() == old(w.Current()) && w.log == old(w.log) + [RunProbe(filePath)]
  {
    w.Probe(filePath);
    ratio := AspectRatio(probe);
  }

  /** `processVideoForFastStart`: the remuxer writes the output beside its input. */
  method ProcessVideoForFastStart(w: Server, inputFilePath: string) returns (outPath: string)
    modifies w
    ensures outPath == FastStartPath(inputFilePath)
    ensures w.Current() == Step(old(w.Current()), RunRemux(inputFilePath, outPath))
    ensures w.log == old(w.log) + [RunRemux(inputFilePath, outPath)]
  {
    outPath := FastStartPath(inputFilePath);
    w.Remux(inputFilePath, outPath);
  }

  /** The steps of `handlerUploadVideo` from the remux to the removal of the local files. */
  method Publish(w: Server, rec: VideoRecord, cfg: Config, mediaType: string, staged: string, fullKey: string,
                 writes: VideoWrites) returns (response: Response)
    modifies w
    ensures var run := PublishRun(rec, cfg, mediaType, staged, fullKey, writes);
      && response == run.response
      && w.log == old(w.log) + run.effects
      && w.Current() == Apply(old(w.Current()), run.effects)
  {
    ghost var s0 := w.Current();
    var processed := ProcessVideoForFastStart(w, staged);
    ghost var s1 := w.Current();
    var obj := StoredObject(mediaType, processed);
    w.Put(fullKey, obj, writes.upload);
    if writes.upload.Thrown? {
      ApplyCons(s0, RunRemux(staged, processed), []);
      return Error(ServerError(writes.upload.message));
    }
    ghost var s2 := w.Current();
    var updated := rec.(videoURL := Some(cfg.cloudfrontUrl + fullKey));
    w.UpdateVideo(updated, writes.record);
    if writes.record.Thrown? {
      ApplyCons(s1, PutObject(fullKey, obj), []);
      ApplyCons(s0, RunRemux(staged, processed), [PutObject(fullKey, obj)]);
      return Error(ServerError(writes.record.message));
    }
    ghost var s3 := w.Current();
    w.Delete(staged);
    ghost var s4 := w.Current();
    w.Delete(processed);
    response := Ok(updated);
    ApplyCons(s4, DeleteFile(processed), []);
    ApplyCons(s3, DeleteFile(staged), [DeleteFile(processed)]);
    ApplyCons(s2, UpdateRecord(updated), [DeleteFile(staged), DeleteFile(processed)]);
    ApplyCons(s1, PutObject(fullKey, obj), [UpdateRecord(updated), DeleteFile(staged), DeleteFile(processed)]);
    ApplyCons(s0, RunRemux(staged, processed),
              [PutObject(fullKey, obj), UpdateRecord(updated), DeleteFile(staged), DeleteFile(processed)]);
  }

  // ---------------------------------------------------------------------
  // Gates
  // ---------------------------------------------------------------------

  /** A missing or non-UUID id is refused before anything else is looked at, and nothing happens. */
  lemma BadIdRefusedFirst(records: map<string, VideoRecord>, cfg: Config, videoId: Option<string>,
                          caller: Option<string>, form: FormValue, token: seq<byte>, probe: ProbeOutput,
                          writes: VideoWrites)
    requires videoId.None? || !IsUuid(videoId.value)
    ensures VideoRun(records, cfg, videoId, caller, form, token, probe, writes) == Run(Error(BadRequest(InvalidIdMessage)), [])
  {
  }

  /**
   * A well-formed id whose record is absent or belongs to someone else is
   * refused as forbidden whatever the form holds, and nothing happens.
   */
  lemma NonOwnerForbidden(records: map<string, VideoRecord>, cfg: Config, id: string, userID: string,
                          form: FormValue, token: seq<byte>, probe: ProbeOutput, writes: VideoWrites)
    requires IsUuid(id)
    requires id !in records || records[id].userID != userID
    ensures VideoRun(records, cfg, Some(id), Some(userID), form, token, probe, writes)
      == Run(Error(Forbidden(NotOwnerMessage)), [])
  {
  }

  /** Exactly 2^30 bytes is accepted; one byte more is refused, whatever the declared type, before any write. */
  lemma SizeLimitBoundary(size: nat, mediaType: string)
    ensures CheckVideoFile(File(VideoSizeLimit, Mp4Type)) == Pass
    ensures size > VideoSizeLimit ==> CheckVideoFile(File(size, mediaType)) == Reject(BadRequest(TooLargeMessage))
    ensures VideoSizeLimit == 1073741824
  {
  }

  /**
   * The gates and the outcomes agree: the request is refused with a client
   * error exactly when a gate rejects it; nothing happens exactly when a
   * gate rejects it or the staging write throws; every other outcome is
   * the pipeline's, and begins by staging the upload.
   */
  lemma RefusedExactlyWhenGateRejects(records: map<string, VideoRecord>, cfg: Config,
                                      videoId: Option<string>, caller: Option<string>, form: FormValue,
                                      token: seq<byte>, probe: ProbeOutput, writes: VideoWrites)
    ensures var run := VideoRun(records, cfg, videoId, caller, form, token, probe, writes);
      VideoGate(records, videoId, caller, form).Reject? <==>
        run.response.Error? && !run.response.failure.ServerError?
    ensures var run := VideoRun(records, cfg, videoId, caller, form, token, probe, writes);
      VideoGate(records, videoId, caller, form).Reject? || writes.stage.Thrown? <==> run.effects == []
    ensures var run := VideoRun(records, cfg, videoId, caller, form, token, probe, writes);
      run.effects != [] ==> run.effects[0] == WriteFile(StagingPath(ObjectName(token)))
  {
  }

  // ---------------------------------------------------------------------
  // Outcomes of the pipeline
  // ---------------------------------------------------------------------

  /**
   * When the probe succeeds and every store write completes, the record
   * holds the URL of the uploaded key and nothing else of it changed, the
   * processed file is stored under that key with the declared type, and
   * neither local file is left.
   */
  lemma IngestSuccessState(s: WorldState, rec: VideoRecord, cfg: Config, mediaType: string,
                           token: seq<byte>, probe: ProbeOutput)
    requires AspectRatio(probe).Success?
    ensures var run := IngestRun(rec, cfg, mediaType, token, probe, AllWritten);
      var staged := StagingPath(ObjectName(token));
      var processed := FastStartPath(staged);
      var key := StorageKey(AspectRatio(probe).value, token);
      var updated := rec.(videoURL := Some(VideoURL(cfg, key)));
      && run.response == Ok(updated)
      && Apply(s, run.effects) == WorldState(
           s.records[rec.id := updated],
           s.files - {staged, processed},
           s.objects[key := StoredObject(mediaType, processed)])
  {
    var staged := StagingPath(ObjectName(token));
    var processed := FastStartPath(staged);
    var key := StorageKey(AspectRatio(probe).value, token);
    var updated := rec.(videoURL := Some(VideoURL(cfg, key)));
    var obj := StoredObject(mediaType, processed);
    var s1 := Step(s, WriteFile(staged));
    var s2 := Step(s1, RunProbe(staged));
    var s3 := Step(s2, RunRemux(staged, processed));
    var s4 := Step(s3, PutObject(key, obj));
    var s5 := Step(s4, UpdateRecord(updated));
    var s6 := Step(s5, DeleteFile(staged));
    var s7 := Step(s6, DeleteFile(processed));
    ApplyCons(s6, DeleteFile(processed), []);
    ApplyCons(s5, DeleteFile(staged), [DeleteFile(processed)]);
    ApplyCons(s4, UpdateRecord(updated), [DeleteFile(staged), DeleteFile(processed)]);
    ApplyCons(s3, PutObject(key, obj), [UpdateRecord(updated), DeleteFile(staged), DeleteFile(processed)]);
    ApplyCons(s2, RunRemux(staged, processed),
              [PutObject(key, obj), UpdateRecord(updated), DeleteFile(staged), DeleteFile(processed)]);
    ApplyCons(s1, RunProbe(staged),
              [RunRemux(staged, processed), PutObject(key, obj), UpdateRecord(updated),
               DeleteFile(staged), DeleteFile(processed)]);
    ApplyCons(s, WriteFile(staged),
              [RunProbe(staged), RunRemux(staged, processed), PutObject(key, obj), UpdateRecord(updated),
               DeleteFile(staged), DeleteFile(processed)]);
    assert s7.files == s.files - {staged, processed};
  }

  /**
   * A failed probe throws after the upload was staged: the record and the
   * object store are untouched and the staged file stays on disk, because
   * the handler has no cleanup on its error paths.
   */
  lemma ProbeFailureLeavesStagedFile(s: WorldState, rec: VideoRecord, cfg: Config, mediaType: string,
                                     token: seq<byte>, probe: ProbeOutput, writes: VideoWrites)
    requires writes.stage.Written? && AspectRatio(probe).Failure?
    ensures var run := IngestRun(rec, cfg, mediaType, token, probe, writes);
      && run.response == Error(ServerError(ProbeMessage(AspectRatio(probe).error)))
      && Apply(s, run.effects) == s.(files := s.files + {StagingPath(ObjectName(token))})
  {
    var staged := StagingPath(ObjectName(token));
    ApplyCons(Step(s, WriteFile(staged)), RunProbe(staged), []);
    ApplyCons(s, WriteFile(staged), [RunProbe(staged)]);
  }

  /** A throwing staging write ends the request with its message before anything exists. */
  lemma StagingFailureDoesNothing(rec: VideoRecord, cfg: Config, mediaType: string, token: seq<byte>,
                                  probe: ProbeOutput, writes: VideoWrites)
    requires writes.stage.Thrown?
    ensures IngestRun(rec, cfg, mediaType, token, probe, writes) == Run(Error(ServerError(writes.stage.message)), [])
  {
  }

  /**
   * A throwing object-store write ends the request after the remux: both
   * the staged and the processed file stay on disk, and neither the
   * object store nor the record changes.
   */
  lemma UploadFailureLeavesLocalFiles(s: WorldState, rec: VideoRecord, cfg: Config, mediaType: string,
                                      token: seq<byte>, probe: ProbeOutput, writes: VideoWrites)
    requires writes.stage.Written? && AspectRatio(probe).Success? && writes.upload.Thrown?
    ensures var run := IngestRun(rec, cfg, mediaType, token, probe, writes);
      var staged := StagingPath(ObjectName(token));
      && run.response == Error(ServerError(writes.upload.message))
      && Apply(s, run.effects) == s.(files := s.files + {staged, FastStartPath(staged)})
  {
    var staged := StagingPath(ObjectName(token));
    var processed := FastStartPath(staged);
    var s1 := Step(s, WriteFile(staged));
    var s2 := Step(s1, RunProbe(staged));
    ApplyCons(s2, RunRemux(staged, processed), []);
    ApplyCons(s1, RunProbe(staged), [RunRemux(staged, processed)]);
    ApplyCons(s, WriteFile(staged), [RunProbe(staged), RunRemux(staged, processed)]);
  }

  /**
   * A throwing record write ends the request after the upload: the object
   * is stored under its key, yet the record keeps its old URL, and both
   * local files stay on disk.
   */
  lemma RecordFailureLeavesStoredObject(s: WorldState, rec: VideoRecord, cfg: Config, mediaType: string,
                                        token: seq<byte>, probe: ProbeOutput, writes: VideoWrites)
    requires writes.stage.Written? && AspectRatio(probe).Success?
    requires writes.upload.Written? && writes.record.Thrown?
    ensures var run := IngestRun(rec, cfg, mediaType, token, probe, writes);
      var staged := StagingPath(ObjectName(token));
      var processed := FastStartPath(staged);
      var key := StorageKey(AspectRatio(probe).value, token);
      && run.response == Error(ServerError(writes.record.message))
      && Apply(s, run.effects) == WorldState(
           s.records,
           s.files + {staged, processed},
           s.objects[key := StoredObject(mediaType, processed)])
  {
    var staged := StagingPath(ObjectName(token));
    var processed := FastStartPath(staged);
    var key := StorageKey(AspectRatio(probe).value, token);
    var obj := StoredObject(mediaType, processed);
    var s1 := Step(s, WriteFile(staged));
    var s2 := Step(s1, RunProbe(staged));
    var s3 := Step(s2, RunRemux(staged, processed));
    ApplyCons(s3, PutObject(key, obj), []);
    ApplyCons(s2, RunRemux(staged, processed), [PutObject(key, obj)]);
    ApplyCons(s1, RunProbe(staged), [RunRemux(staged, processed), PutObject(key, obj)]);
    ApplyCons(s, WriteFile(staged), [RunProbe(staged), RunRemux(staged, processed), PutObject(key, obj)]);
  }

  // ---------------------------------------------------------------------
  // Keys and URLs
  // ---------------------------------------------------------------------

  /** 32 random bytes give 64 lower-case hex digits followed by `.mp4`. */
  lemma ObjectNameLayout(token: seq<byte>)
    requires |token| == 32
    ensures var name := ObjectName(token);
      && |name| == 68
      && (forall i :: 0 <= i < 64 ==> IsLowerHexDigit(name[i]))
      && name[64..] == ".mp4"
  {
  }

  /** The key is the orientation name and the object name joined by its one `/`. */
  lemma StorageKeyParts(o: Orientation, token: seq<byte>)
    ensures Split(StorageKey(o, token), '/') == [Name(o), ObjectName(token)]
  {
    var name := ObjectName(token);
    assert forall i :: 0 <= i < |name| ==> name[i] != '/' by {
      forall i | 0 <= i < |name| ensures name[i] != '/' {
        if i < |Hex(token)| {
          assert name[i] == Hex(token)[i];
        }
      }
    }
    var parts := [Name(o), name];
    assert StorageKey(o, token) == Join(parts, '/');
    SplitJoin(parts, '/');
  }

  /** Different orientations or different random bytes never share a key. */
  lemma StorageKeyInjective(o1: Orientation, t1: seq<byte>, o2: Orientation, t2: seq<byte>)
    requires StorageKey(o1, t1) == StorageKey(o2, t2)
    ensures o1 == o2 && t1 == t2
  {
    StorageKeyParts(o1, t1);
    StorageKeyParts(o2, t2);
    assert Name(o1) == Name(o2);
    var n1, n2 := ObjectName(t1), ObjectName(t2);
    assert n1 == n2;
    assert Hex(t1) == n1[..|n1| - 4];
    assert Hex(t2) == n2[..|n2| - 4];
    HexInjective(t1, t2);
  }

  // ---------------------------------------------------------------------
  // The whole handler
  // ---------------------------------------------------------------------

  /**
   * On every outcome: a record update happens only after the object its
   * URL names was stored, and every local deletion comes after the record
   * update.
   */
  lemma UrlOnlyAfterUpload(records: map<string, VideoRecord>, cfg: Config, videoId: Option<string>,
                           caller: Option<string>, form: FormValue, token: seq<byte>, probe: ProbeOutput,
                           writes: VideoWrites)
    ensures var es := VideoRun(records, cfg, videoId, caller, form, token, probe, writes).effects;
      && (forall i :: 0 <= i < |es| && es[i].UpdateRecord? ==>
            exists j :: 0 <= j < i && es[j].PutObject? && es[i].rec.videoURL == Some(VideoURL(cfg, es[j].key)))
      && (forall i, j :: 0 <= i < |es| && 0 <= j < |es| && es[i].DeleteFile? && es[j].UpdateRecord? ==> j < i)
  {
    var es := VideoRun(records, cfg, videoId, caller, form, token, probe, writes).effects;
    if |es| == 7 {
      assert es[3].PutObject? && es[4].rec.videoURL == Some(VideoURL(cfg, es[3].key));
    }
  }

  /**
   * A successful upload is one where every store write completed, and it
   * records, on the caller's record and no other, the URL of the key named
   * after the classification of the probed dimensions.
   */
  lemma RecordedUrlNamesOrientation(s: WorldState, cfg: Config, id: string, userID: string, form: FormValue,
                                    token: seq<byte>, probe: ProbeOutput, writes: VideoWrites)
    requires Keyed(s.records)
    requires VideoRun(s.records, cfg, Some(id), Some(userID), form, token, probe, writes).response.Ok?
    ensures writes == AllWritten
    ensures |probe.streams| > 0 && probe.streams[0].width.Some? && probe.streams[0].height.Some?
    ensures var o := Classify(probe.streams[0].width.value, probe.streams[0].height.value);
      var after := Apply(s, VideoRun(s.records, cfg, Some(id), Some(userID), form, token, probe, writes).effects);
      && after.records.Keys == s.records.Keys
      && after.records[id] == s.records[id].(videoURL := Some(VideoURL(cfg, StorageKey(o, token))))
      && (forall other :: other in s.records && other != id ==> after.records[other] == s.records[other])
      && Split(StorageKey(o, token), '/')[0] == Name(o)
  {
    AspectRatioOutcome(probe);
    var rec := s.records[id];
    IngestSuccessState(s, rec, cfg, form.mediaType, token, probe);
    StorageKeyParts(AspectRatio(probe).value, token);
  }

  /** A 1920x1080 upload by the owner, with every store write completing, lands under `landscape/`. */
  lemma LandscapeUpload(records: map<string, VideoRecord>, cfg: Config, id: string, userID: string,
                        size: nat, token: seq<byte>)
    requires IsUuid(id) && id in records && records[id].userID == userID && size <= VideoSizeLimit
    ensures var probe := ProbeOutput(0, [StreamInfo(Some(1920), Some(1080))]);
      VideoRun(records, cfg, Some(id), Some(userID), File(size, Mp4Type), token, probe, AllWritten).response
        == Ok(records[id].(videoURL := Some(cfg.cloudfrontUrl + "landscape/" + Hex(token) + ".mp4")))
  {
    var probe := ProbeOutput(0, [StreamInfo(Some(1920), Some(1080))]);
    ClassifyExamples();
    assert AspectRatio(probe) == Success(Landscape);
    assert VideoGate(records, Some(id), Some(userID), File(size, Mp4Type)) == Pass;
    calc {
      VideoURL(cfg, StorageKey(Landscape, token));
      cfg.cloudfrontUrl + ("landscape" + "/" + (Hex(token) + ".mp4"));
      { assert "landscape" + "/" == "landscape/"; }
      cfg.cloudfrontUrl + "landscape/" + Hex(token) + ".mp4";
    }
  }
}
