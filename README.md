# Upload handlers of a video file server, modelled in Dafny

This project models the two upload handlers of a small video-hosting API
(TypeScript on Bun):

- `handlerUploadVideo` (`src/api/videos.ts`) takes an MP4 for an existing video record.
  It checks the id, the caller, ownership, size and type, in that order.
  It then stages the upload in `/tmp`, probes its dimensions with `ffprobe`,
  and classifies them as `landscape`, `portrait` or `other`.
  It remuxes the file for fast start with `ffmpeg` and uploads the result to the
  object store under `<orientation>/<64 hex digits>.mp4`.
  Finally it records `cloudfrontUrl + key` as the record's `videoURL` and deletes
  both local files.
- `handlerUploadThumbnail` (`src/api/thumbnails.ts`) checks the id, caller, size and
  type (JPEG or PNG).
  It writes the image into the public asset directory under a 43-character
  base64url name, then checks ownership, then records
  `http://localhost:<port>/assets/<name>` as `thumbnailURL`.

The I/O is abstracted into a `World.Server` object. It holds a record map,
a set of local files, an object-store map and a log of effects. The probe
result, the random bytes, the caller id (what token validation yields), the
configuration strings, and whether each store write completes or throws are
parameters.

Each handler is a method that performs its steps one by one on the server.
Each is proved against a pure trace function (`Videos.VideoRun`,
`Thumbnails.ThumbnailRun`) that gives the reply and the ordered effects.
The new state is `Apply(old state, effects)`. The lemmas then state, on
that trace, which effects happen, in what order, on each outcome.

Files: `wrappers.dfy` (Option, Result), `encoding.dfy` (bytes, hex,
base64url, UUID shape), `paths.dfy` (`split`, `path.join`, local paths),
`orientation.dfy` (classifier and prober), `world.dfy` (state, effects,
shared gates, the `Server` class), `videos.dfy`, `thumbnails.dfy`.

The model follows the code as written; in particular:

- the remux output suffix is `.proccessed`, as spelt in the code;
- a probe failure throws with the staged file still on disk, since the handler has no cleanup on its error paths;
- the thumbnail file is written before the ownership check, so a forbidden request leaves it behind;
- the thumbnail id gets no UUID check, only a presence check;
- the remux exit status is ignored.

## Model

| member | source | states |
|---|---|---|
| `Encoding.Hex` | src/api/videos.ts:43 | `toString('hex')` gives two lower-case hex digits per byte, so 2n characters for n bytes |
| `Encoding.UnHexHex` | src/api/videos.ts:43 | the hex rendering reads back to the bytes it came from |
| `Encoding.HexInjective` | src/api/videos.ts:43 | distinct random byte strings give distinct hex names |
| `Encoding.Base64Url` | src/api/thumbnails.ts:51 | `toString('base64url')` uses only `A-Z a-z 0-9 - _`, with no padding and never a lone trailing character |
| `Encoding.Base64UrlLength` | src/api/thumbnails.ts:51 | n bytes give (4n+2)/3 characters, so 32 bytes give 43 |
| `Encoding.UnBase64UrlBase64Url` | src/api/thumbnails.ts:51 | the unpadded base64url text decodes back to its bytes |
| `Encoding.Base64UrlInjective` | src/api/thumbnails.ts:51 | distinct random byte strings give distinct tokens |
| `Encoding.UuidByPosition` | src/api/videos.ts:11 | the anchored 8-4-4-4-12 pattern holds iff the text has 36 characters, dashes at 8, 13, 18 and 23, and a hex digit of either case elsewhere |
| `Paths.Split` | src/api/thumbnails.ts:49 | `split('/')` yields at least one piece and no piece holds the separator |
| `Paths.JoinSplit` | src/api/thumbnails.ts:49 | joining the pieces of a split gives the text back |
| `Paths.SplitJoin` | src/api/thumbnails.ts:49 | splitting joined separator-free pieces gives the pieces back |
| `Paths.JoinPathBaseName` | src/api/thumbnails.ts:52 | `path.join(assetsRoot, name)` names the file `name` whatever the directory |
| `Paths.FastStartPath` | src/api/videos.ts:102-103 | the remux output path extends its input path (input + `.proccessed`) |
| `Paths.FastStartPathInjective` | src/api/videos.ts:103 | distinct inputs give distinct output paths |
| `Orientation.FloorDiv` | src/api/videos.ts:91-95 | `Math.floor(x / d)` is the q with q·d ≤ x < q·d + d |
| `Orientation.ClassifyByBuckets` | src/api/videos.ts:91-99 | landscape iff width and height share a 16:9 bucket; portrait iff not, but they share a 9:16 bucket; other iff neither (landscape wins when both hold) |
| `Orientation.ExactLandscape` | src/api/videos.ts:91-93 | a 16k×9k frame is landscape |
| `Orientation.ExactPortrait` | src/api/videos.ts:91-97 | a 9k×16k frame with k ≥ 1 is portrait: its 16:9 buckets never agree |
| `Orientation.ClassifyExamples` | src/api/videos.ts:91-99 | 1920×1080 landscape, 1080×1920 portrait, 1000×1000 other, 3840×2160 as 1920×1080, 8×8 landscape |
| `Orientation.AspectRatioOutcome` | src/api/videos.ts:77-99 | a non-zero exit fails before any stream is read; success iff exit 0, a first stream and two non-zero dimensions, and then the result is their classification |
| `World.CheckCaller` | src/api/videos.ts:19-20 | a missing or invalid token is refused as unauthorized |
| `World.CheckOwner` | src/api/videos.ts:22-26 | passes iff the record exists and belongs to the caller, else forbidden |
| `World.Server.GetVideo` | src/api/videos.ts:22 | `getVideo` returns the stored record with that id or nothing |
| `World.Server.Write` | src/api/videos.ts:47 | `Bun.write` adds the file and logs the write, nothing else changes; a write that throws changes nothing |
| `World.Server.Probe` | src/api/videos.ts:74-77 | spawning `ffprobe` logs the probe and changes no state |
| `World.Server.Remux` | src/api/videos.ts:104-107 | spawning `ffmpeg` creates the output file and logs the remux |
| `World.Server.Put` | src/api/videos.ts:54-55 | the object-store write binds the key to the object and logs it; a write that throws changes nothing |
| `World.Server.UpdateVideo` | src/api/videos.ts:58 | `updateVideo` stores the record under its id and logs it; a write that throws changes nothing |
| `World.Server.Delete` | src/api/videos.ts:60-61 | `delete()` removes the file and logs it |
| `Videos.CheckVideoId` | src/api/videos.ts:11-17 | passes iff the id is present and UUID-shaped, else bad request |
| `Videos.CheckVideoFile` | src/api/videos.ts:29-41 | passes iff a file of at most 2^30 bytes declared `video/mp4`; a non-file, an oversize file (checked before the type) and a wrong type each get their own bad request |
| `Videos.UploadVideo` | src/api/videos.ts:9-64 | the handler's reply, its ordered effects and the new state are those of the trace `VideoRun` |
| `Videos.Ingest` | src/api/videos.ts:43-63 | the steps after validation follow the trace `IngestRun`, ending at the first store write that throws |
| `Videos.GetVideoAspectRatio` | src/api/videos.ts:73-100 | the prober runs on the staged path, nothing else changes, and the result is the classification `AspectRatio` of what it reports |
| `Videos.ProcessVideoForFastStart` | src/api/videos.ts:102-109 | the remuxer runs from the input to `FastStartPath(input)`, which is returned whatever the exit status |
| `Videos.Publish` | src/api/videos.ts:51-63 | remux, object write, record update and the two deletions happen in that order, as the trace `PublishRun` gives them; a throwing object or record write ends the run there |
| `Videos.BadIdRefusedFirst` | src/api/videos.ts:12-17 | a missing or non-UUID id is a bad request with no effect, whatever else the request holds |
| `Videos.NonOwnerForbidden` | src/api/videos.ts:22-28 | an absent record or another user's record is forbidden with no effect, whatever the form holds |
| `Videos.SizeLimitBoundary` | src/api/videos.ts:35-37 | exactly 2^30 bytes passes; more is a bad request whatever the type |
| `Videos.RefusedExactlyWhenGateRejects` | src/api/videos.ts:15-47 | a client error happens iff a gate rejects; nothing at all happens iff a gate rejects or the staging write throws; any other run starts by staging the upload |
| `Videos.IngestSuccessState` | src/api/videos.ts:47-63 | after a successful probe with every store write completing: the record holds `cloudfrontUrl + key` with nothing else changed, the processed file is stored under the key with the declared type, and neither local file remains |
| `Videos.ProbeFailureLeavesStagedFile` | src/api/videos.ts:47-49 | a failed probe throws with the staged file left on disk and the record and object store untouched |
| `Videos.StagingFailureDoesNothing` | src/api/videos.ts:47 | a throwing staging write fails the request with its message and no effect |
| `Videos.UploadFailureLeavesLocalFiles` | src/api/videos.ts:51-55 | a throwing object-store write fails the request with both the staged and the processed file left on disk, and no object or record change |
| `Videos.RecordFailureLeavesStoredObject` | src/api/videos.ts:54-58 | a throwing record write fails the request with the object stored under its key, the record unchanged and both local files left on disk |
| `Videos.ObjectNameLayout` | src/api/videos.ts:43-44 | 32 random bytes give 64 lower-case hex digits followed by `.mp4` |
| `Videos.StorageKeyParts` | src/api/videos.ts:50 | the key splits at `/` into exactly the orientation name and the object name |
| `Videos.StorageKeyInjective` | src/api/videos.ts:43-50 | two uploads share a key only with equal orientation and equal random bytes |
| `Videos.UrlOnlyAfterUpload` | src/api/videos.ts:54-61 | on every outcome a record update comes after the write of the object its URL names, and every deletion comes after the update |
| `Videos.RecordedUrlNamesOrientation` | src/api/videos.ts:49-58 | a successful upload is one where every store write completed; it changes only the caller's record, whose URL names the key prefixed by the classification of the probed dimensions |
| `Videos.LandscapeUpload` | src/api/videos.ts:9-63 | the owner's 1920×1080 upload is recorded under `cloudfrontUrl + "landscape/" + hex + ".mp4"` |
| `Thumbnails.CheckThumbnailId` | src/api/thumbnails.ts:20-25 | passes iff the id is present and non-empty; no shape check |
| `Thumbnails.CheckThumbnailFile` | src/api/thumbnails.ts:32-47 | passes iff a file of at most 10·2^20 bytes declared `image/jpeg` or `image/png`; each failure gets its own bad request, size before type |
| `Thumbnails.UploadThumbnail` | src/api/thumbnails.ts:19-66 | the handler's reply, its ordered effects and the new state are those of the trace `ThumbnailRun` |
| `Thumbnails.MissingIdRefusedFirst` | src/api/thumbnails.ts:20-28 | a missing id is a bad request before the token or the form is looked at, with no effect |
| `Thumbnails.SizeLimitBoundary` | src/api/thumbnails.ts:39-41 | exactly 10·2^20 bytes passes; more is a bad request whatever the type |
| `Thumbnails.ExtensionOfAcceptedType` | src/api/thumbnails.ts:43-49 | the extension is `.` and the subtype after `/`: `.jpeg` or `.png` |
| `Thumbnails.AssetNameLayout` | src/api/thumbnails.ts:49-61 | 32 random bytes give a 43-character URL-safe token; the file written is named by that token and the extension, and the URL ends with that name |
| `Thumbnails.AssetNameInjective` | src/api/thumbnails.ts:51-52 | distinct random bytes give distinct asset names |
| `Thumbnails.ForbiddenLeavesWrittenFile` | src/api/thumbnails.ts:54-59 | an absent or foreign record is forbidden after the asset file was written; the only effect is that write |
| `Thumbnails.UpdateFailureLeavesWrittenFile` | src/api/thumbnails.ts:54-63 | the owner's request whose record write throws fails with its message; the asset file stays written and no record changes |
| `Thumbnails.SuccessChangesOnlyThumbnail` | src/api/thumbnails.ts:54-65 | on success the effects are exactly the asset write and one record write; the record is persisted with only `thumbnailURL` changed; no other record and no stored object changes |

## Left out

- Spawning `ffprobe` and `ffmpeg` and parsing the JSON output are left out: the probe's exit code and its first stream's optional width and height come in as a `ProbeOutput`.
- The remux is modelled as always producing its output file, because its exit status is never read. A failed remux would leave no file, and the upload step would then throw; that case is not modelled.
- Dimensions are integers. JavaScript's floating-point `width / 16` is modelled as integer floor division. Non-integer or non-numeric JSON dimensions are not modelled.
- The object store (an S3 client) is a map from key to content type and source file. `generatePresignedURL` is not part of the handler's path and is not modelled.
- A store write either completes or throws, as an injected outcome. A throwing write is modelled as changing nothing; a partly written file, object or record is not modelled. What the store throws is carried as an opaque message, and the error class it maps to is modelled as a server error.
- The message for a probe output with no stream is JavaScriptCore's text for reading a property of `undefined`.
- `getBearerToken`/`validateJWT` and `getVideo`/`updateVideo` come from `src/auth` and `src/db/videos`, which are not part of this model. The caller id is a parameter, with `None` for a rejected token, and the record store is a map.
- `req.formData()` throwing on a malformed body is not modelled. `respondWithJSON`, `console.log` and the mapping of error classes to HTTP status codes are not modelled either.
- `randomBytes(32)` is a parameter. Only the length and alphabet of what it yields are modelled, not its randomness.
- The thumbnail's `Bun.write` is not awaited. It is modelled as complete before the record lookup; a write that fails asynchronously is not modelled.
- `path.join` is modelled for a file name without `/`. Normalisation of `.`, `..` and repeated separators inside `assetsRoot` is not modelled.
- `BunFile.delete()` is modelled as removing a path from the file set. Its error on an already-missing file is not modelled; on the success path both files exist when deleted.
- `cfg.port` is taken as the text the URL template prints.
- Concurrency between requests, cancellation and timeouts of the child processes are not modelled.
