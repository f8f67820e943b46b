/**
 * The thumbnail handler (`handlerUploadThumbnail`): validation gates,
 * writing the image into the public asset directory under a random
 * base64url name, then the ownership check, then the record update.
 */
module Thumbnails {
  import opened Wrappers
  import opened Encoding
  import opened Paths
  import opened World

  /** `10 << 20`: ten mebibytes. */
  const MaxUploadSize: int := 0xA0_0000

  const InvalidIdMessage := "Invalid video ID"
  const NotAFileMessage := "Thumbnail not a file"
  const TooLargeMessage := "Error file too large, must be under 10MB"
  const BadTypeMessage := "Invalid file type"
  const NotOwnerMessage := "UserID does not match UserID of video"

  /** The id gate: present and not empty; no shape is required. */
  function CheckThumbnailId(videoId: Option<string>): (v: Verdict)
    ensures v.Pass? <==> videoId.Some? && videoId.value != ""
    ensures v.Reject? ==> v.failure == BadRequest(InvalidIdMessage)
  {
    if videoId.None? || videoId.value == "" then Reject(BadRequest(InvalidIdMessage)) else Pass
  }

  predicate IsImageType(mediaType: string) {
    mediaType == "image/jpeg" || mediaType == "image/png"
  }

  /** The upload gate: a file, at most 10 MiB, declared JPEG or PNG; the size is checked before the type. */
  function CheckThumbnailFile(form: FormValue): (v: Verdict)
    ensures v.Pass? <==> form.File? && form.size <= MaxUploadSize && IsImageType(form.mediaType)
    ensures !form.File? ==> v == Reject(BadRequest(NotAFileMessage))
    ensures form.File? && form.size > MaxUploadSize ==> v == Reject(BadRequest(TooLargeMessage))
    ensures form.File? && form.size <= MaxUploadSize && !IsImageType(form.mediaType) ==>
      v == Reject(BadRequest(BadTypeMessage))
  {
    if !form.File? then Reject(BadRequest(NotAFileMessage))
    else if form.size > MaxUploadSize then Reject(BadRequest(TooLargeMessage))
    else if !IsImageType(form.mediaType) then Reject(BadRequest(BadTypeMessage))
    else Pass
  }

  /** The gates before any effect, in the handler's order: id, caller, then the form. */
  function ThumbnailGate(videoId: Option<string>, caller: Option<string>, form: FormValue): Verdict {
    if CheckThumbnailId(videoId).Reject? then CheckThumbnailId(videoId)
    else if CheckCaller(caller).Reject? then CheckCaller(caller)
    else CheckThumbnailFile(form)
  }

  /** `.${mediaType.split('/')[1]}`; a type without `/` reads index 1 as `undefined`. */
  function Extension(mediaType: string): string {
    var parts := Split(mediaType, '/');
    "." + (if |parts| >= 2 then parts[1] else "undefined")
  }

  /** The asset's file name: the base64url token followed by the extension. */
  function AssetName(token: seq<byte>, ext: string): string {
    Base64Url(token) + ext
  }

  /** `http://localhost:<port>/assets/<name>`. */
  function ThumbnailURL(cfg: Config, name: string): string {
    "http://localhost:" + cfg.port + "/assets/" + name
  }

  /**
   * The effects of one thumbnail upload and its reply. A gate failure does
   * nothing; otherwise the image is written first, and only then is the
   * ownership checked: a refusal leaves the written file behind, and so
   * does a record write that throws; a success persists the record with
   * its new thumbnail URL. `update` is how the record write turns out.
   */
  function ThumbnailRun(records: map<string, VideoRecord>, cfg: Config, videoId: Option<string>,
                        caller: Option<string>, form: FormValue, token: seq<byte>, update: WriteOutcome): Run
  {
    var gate := ThumbnailGate(videoId, caller, form);
    if gate.Reject? then Run(Error(gate.failure), [])
    else
      var name := AssetName(token, Extension(form.mediaType));
      var path := JoinPath(cfg.assetsRoot, name);
      var owner := CheckOwner(Lookup(records, videoId.value), caller.value, NotOwnerMessage);
      if owner.Reject? then Run(Error(owner.failure), [WriteFile(path)])
      else
        var updated := records[videoId.value].(thumbnailURL := Some(ThumbnailURL(cfg, name)));
        if update.Thrown? then Run(Error(ServerError(update.message)), [WriteFile(path)])
        else Run(Ok(updated), [WriteFile(path), UpdateRecord(updated)])
  }

  /**
   * `handlerUploadThumbnail`, with the caller's id, the 32 random bytes and
   * the outcome of the record write given.
   */
  method UploadThumbnail(w: Server, cfg: Config, videoId: Option<string>, caller: Option<string>,
                         form: FormValue, token: seq<byte>, update: WriteOutcome) returns (response: Response)
    modifies w
    ensures var run := ThumbnailRun(old(w.records), cfg, videoId, caller, form, token, update);
      && response == run.response
      && w.log == old(w.log) + run.effects
      && w.Current() == Apply(old(w.Current()), run.effects)
  {
    ghost var s0 := w.Current();
    var v := CheckThumbnailId(videoId);
    if v.Reject? {
      return Error(v.failure);
    }
    var id := videoId.value;
    v := CheckCaller(caller);
    if v.Reject? {
      return Error(v.failure);
    }
    var userID := caller.value;
    v := CheckThumbnailFile(form);
    if v.Reject? {
      return Error(v.failure);
    }
    var fileExtension := Extension(form.mediaType);
    var randomName := Base64Url(token);
    var filePath := JoinPath(cfg.assetsRoot, randomName + fileExtension);
    // The asset write is not awaited, so its failure never reaches the reply.
    w.Write(filePath, Written);
    ApplySnoc(s0, [], WriteFile(filePath));
    var video := w.GetVideo(id);
    v := CheckOwner(video, userID, NotOwnerMessage);
    if v.Reject? {
      return Error(v.failure);
    }
    var updated := video.value.(thumbnailURL := Some("http://localhost:" + cfg.port + "/assets/" + randomName + fileExtension));
    w.UpdateVideo(updated, update);
    if update.Thrown? {
      return Error(ServerError(update.message));
    }
    ApplySnoc(s0, [WriteFile(filePath)], UpdateRecord(updated));
    response := Ok(updated);
    assert ThumbnailURL(cfg, AssetName(token, fileExtension))
      == "http://localhost:" + cfg.port + "/assets/" + randomName + fileExtension;
  }

  // ---------------------------------------------------------------------
  // Gates
  // ---------------------------------------------------------------------

  /** A missing or empty id is refused first: before the caller is checked and before the form is read. */
  lemma MissingIdRefusedFirst(records: map<string, VideoRecord>, cfg: Config, videoId: Option<string>,
                              caller: Option<string>, form: FormValue, token: seq<byte>, update: WriteOutcome)
    requires videoId.None? || videoId.value == ""
    ensures ThumbnailRun(records, cfg, videoId, caller, form, token, update) == Run(Error(BadRequest(InvalidIdMessage)), [])
  {
  }

  /** Exactly 10 MiB is accepted; one byte more is refused whatever the type. */
  lemma SizeLimitBoundary(size: nat, mediaType: string)
    ensures CheckThumbnailFile(File(MaxUploadSize, "image/png")) == Pass
    ensures size > MaxUploadSize ==> CheckThumbnailFile(File(size, mediaType)) == Reject(BadRequest(TooLargeMessage))
    ensures MaxUploadSize == 10 * 1048576
  {
  }

  // ---------------------------------------------------------------------
  // Names and addresses
  // ---------------------------------------------------------------------

  /** The extension is the subtype after the `/`: only `.jpeg` and `.png` get past the type gate. */
  lemma ExtensionOfAcceptedType(mediaType: string)
    requires IsImageType(mediaType)
    ensures Extension(mediaType) == (if mediaType == "image/jpeg" then ".jpeg" else ".png")
  {
    var sub := if mediaType == "image/jpeg" then "jpeg" else "png";
    var parts := ["image", sub];
    assert mediaType == Join(parts, '/');
    SplitJoin(parts, '/');
  }

  /**
   * 32 random bytes give a 43-character URL-safe token; the file written is
   * named by that token and the extension inside the asset directory, and
   * the URL ends with the same name.
   */
  lemma AssetNameLayout(cfg: Config, token: seq<byte>, mediaType: string)
    requires |token| == 32 && IsImageType(mediaType)
    ensures var ext := Extension(mediaType);
      var name := AssetName(token, ext);
      && |Base64Url(token)| == 43
      && (forall i :: 0 <= i < 43 ==> IsBase64UrlChar(name[i]))
      && BaseName(JoinPath(cfg.assetsRoot, name)) == name
      && ThumbnailURL(cfg, name)[|ThumbnailURL(cfg, name)| - |name|..] == name
  {
    var ext := Extension(mediaType);
    ExtensionOfAcceptedType(mediaType);
    Base64UrlLength(token);
    var name := AssetName(token, ext);
    assert '/' !in name by {
      forall i | 0 <= i < |name| ensures name[i] != '/' {
        if i < |Base64Url(token)| {
          assert name[i] == Base64Url(token)[i];
        }
      }
    }
    JoinPathBaseName(cfg.assetsRoot, name);
  }

  /** Distinct random bytes give distinct asset names. */
  lemma AssetNameInjective(t1: seq<byte>, t2: seq<byte>, ext: string)
    requires AssetName(t1, ext) == AssetName(t2, ext)
    ensures t1 == t2
  {
    var n := AssetName(t1, ext);
    assert Base64Url(t1) == n[..|n| - |ext|];
    assert Base64Url(t2) == n[..|n| - |ext|];
    Base64UrlInjective(t1, t2);
  }

  // ---------------------------------------------------------------------
  // Outcomes
  // ---------------------------------------------------------------------

  /**
   * The write comes before the ownership check: a request that passes the
   * gates but names an absent record or another user's record is refused as
   * forbidden, yet the asset file has been written; no record changes.
   */
  lemma ForbiddenLeavesWrittenFile(s: WorldState, cfg: Config, id: string, userID: string,
                                   form: FormValue, token: seq<byte>, update: WriteOutcome)
    requires ThumbnailGate(Some(id), Some(userID), form) == Pass
    requires id !in s.records || s.records[id].userID != userID
    ensures var run := ThumbnailRun(s.records, cfg, Some(id), Some(userID), form, token, update);
      var path := JoinPath(cfg.assetsRoot, AssetName(token, Extension(form.mediaType)));
      && run.response == Error(Forbidden(NotOwnerMessage))
      && run.effects == [WriteFile(path)]
      && Apply(s, run.effects) == s.(files := s.files + {path})
  {
    var path := JoinPath(cfg.assetsRoot, AssetName(token, Extension(form.mediaType)));
    ApplyCons(s, WriteFile(path), []);
  }

  /**
   * The owner's request whose record write throws fails with the store's
   * message after the asset file was written; no record changes.
   */
  lemma UpdateFailureLeavesWrittenFile(s: WorldState, cfg: Config, id: string, userID: string,
                                       form: FormValue, token: seq<byte>, update: WriteOutcome)
    requires ThumbnailGate(Some(id), Some(userID), form) == Pass
    requires id in s.records && s.records[id].userID == userID
    requires update.Thrown?
    ensures var run := ThumbnailRun(s.records, cfg, Some(id), Some(userID), form, token, update);
      var path := JoinPath(cfg.assetsRoot, AssetName(token, Extension(form.mediaType)));
      && run.response == Error(ServerError(update.message))
      && run.effects == [WriteFile(path)]
      && Apply(s, run.effects) == s.(files := s.files + {path})
  {
    var path := JoinPath(cfg.assetsRoot, AssetName(token, Extension(form.mediaType)));
    ApplyCons(s, WriteFile(path), []);
  }

  /**
   * On success the record write completed: the asset file is written and
   * the record persisted once, with only its thumbnail URL changed; no
   * other record and no stored object changes.
   */
  lemma SuccessChangesOnlyThumbnail(s: WorldState, cfg: Config, id: string, userID: string,
                                    form: FormValue, token: seq<byte>, update: WriteOutcome)
    requires Keyed(s.records)
    requires ThumbnailRun(s.records, cfg, Some(id), Some(userID), form, token, update).response.Ok?
    ensures id in s.records && s.records[id].userID == userID && update.Written?
    ensures var run := ThumbnailRun(s.records, cfg, Some(id), Some(userID), form, token, update);
      var name := AssetName(token, Extension(form.mediaType));
      var after := Apply(s, run.effects);
      && after.records.Keys == s.records.Keys
      && run.effects == [WriteFile(JoinPath(cfg.assetsRoot, name)), UpdateRecord(after.records[id])]
      && run.response.record == after.records[id]
      && after.records[id].thumbnailURL == Some(ThumbnailURL(cfg, name))
      && after.records[id].(thumbnailURL := s.records[id].thumbnailURL) == s.records[id]
      && after.records == s.records[id := after.records[id]]
      && after.files == s.files + {JoinPath(cfg.assetsRoot, name)}
      && after.objects == s.objects
  {
    var name := AssetName(token, Extension(form.mediaType));
    var path := JoinPath(cfg.assetsRoot, name);
    var updated := s.records[id].(thumbnailURL := Some(ThumbnailURL(cfg, name)));
    ApplyCons(Step(s, WriteFile(path)), UpdateRecord(updated), []);
    ApplyCons(s, WriteFile(path), [UpdateRecord(updated)]);
  }
}
