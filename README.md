# Audio converter service: naming, file lifecycle and download guard

A Dafny model of the core of `main.py`, a small FastAPI service that converts an
uploaded audio file with `ffmpeg`. The model has four modules.

- `PurePath` (`pathlib.dfy`): the part of `pathlib.PurePosixPath` the service
  uses. It covers the final component of a path (`name`) and how that component
  splits into `stem` and `suffix`.
- `Naming` (`naming.dfy`): the module constants `OUTPUT_DIR`, `TEMP_DIR` and
  `SUPPORTED_FORMATS`, plus the text of a `uuid4`. It also derives the upload
  stem and suffix (falling back to `"audio"` and `""` when there is no
  filename), the scratch name `{id}_input{suffix}`, the output name
  `{stem}_{id}.{format}`, the download URL and the media type.
- `Conversion` (`conversion.dfy`): the `/convert` handler. The filesystem is a
  class holding the set of existing paths. `FileSystem.ConvertAudio` performs
  the handler's steps on that set: check the format, write the scratch file,
  run the converter, then clean up on one of three exits (success,
  `HTTPException`, any other exception). `ConvertSpec` describes the same
  request as a value, the method is proved equal to it, and the lemmas state
  what it promises.
- `Retrieval` (`retrieval.dfy`): the `/download/{filename}` handler. It checks
  that the file exists (404), then applies a raw string-prefix test on the
  resolved paths (403), then picks a media type from the extension.

Inputs the model takes rather than computes:

- the uuid text;
- the converter's exit code, its standard error, and whether it wrote the output file;
- an optional exception, with the step that raises it: opening the scratch file, reading or writing the upload, or `subprocess.run` itself;
- whether the download path exists, and what it and the output root resolve to;
- the request's base URL.

The download guard is modelled as written: `str(resolved).startswith(str(root))`.
That test is not containment. `SiblingDirectoryPasses` shows a path in
`/app/output2` getting past it. `ParentDirectoryRefused` shows a path that
leaves the root through `..` being refused.

`main.py` has no upload size cap, no converter timeout, no classification of
the converter's error output, no removal of partial output after a non-zero
exit, no internal error when the converter succeeds without producing a file,
and a health check that does not query the tool; the model has none of these
either. A non-zero exit is a 500 whose detail is
the whole standard error, and it leaves any output file in place. An exit code
of 0 counts as success even when no output file exists.

## Model

| member | source | states |
|---|---|---|
| `PurePath.Name` | main.py:57 | The final path component, as pathlib computes it, contains no '/', is never ".", and is no longer than the path |
| `PurePath.NameOfJoin` | main.py:62 | Joining a directory and a simple component gives a path whose name is that component |
| `PurePath.NameOfSimple` | main.py:57 | A simple component is its own name |
| `PurePath.NameIgnoresTrailingSeparator` | main.py:57 | A trailing '/' does not change the name |
| `PurePath.NameIgnoresTrailingDot` | main.py:57 | A trailing "/." does not change the name |
| `PurePath.Suffix` | main.py:60 | The suffix is empty, or a dot followed by at least one character and no further dot; it ends the name; it is empty exactly when the last dot is the first or last character or there is none |
| `PurePath.Stem` | main.py:57 | The stem followed by the suffix is the whole name; a non-empty name has a non-empty stem |
| `PurePath.SplitAtLastDot` | main.py:57-60 | A name `base.ext`, where `ext` has no dot, has suffix `.ext` and stem `base` |
| `PurePath.SuffixAfterDotFreeBase` | main.py:60 | Appending a suffix to a component with no dots gives a simple component with exactly that suffix |
| `PurePath.NoDotNoSuffix` | main.py:60 | A name with no dot has an empty suffix and is its own stem |
| `PurePath.FinalComponentSplit` | main.py:57-60 | An upload name with directories and several dots (such as `music/song.tar.mp3`) has stem `song.tar` and suffix `.mp3` |
| `Naming.IsSupported` | main.py:49 | A format passes the check exactly when it is "mp3" or "ogg", the two entries of `SUPPORTED_FORMATS` |
| `Naming.UuidHasNoSeparatorOrDot` | main.py:56 | The text of a uuid4 contains no '/' and no '.' |
| `Naming.UploadStem` | main.py:57 | Without a truthy filename the stem is "audio"; otherwise the stem followed by the upload suffix is the filename's final component; it never contains '/' |
| `Naming.UploadSuffix` | main.py:60 | Without a truthy filename the suffix is empty; otherwise it has pathlib's suffix shape and contains no '/' |
| `Naming.TempInputName` | main.py:60 | The scratch name starts with the id, is a single path component, and has the upload's suffix |
| `Naming.TempInputPath` | main.py:60 | The scratch path starts with `TEMP_DIR` followed by '/' (`TempInputPathName` gives its final component) |
| `Naming.TempInputPathName` | main.py:60 | The scratch path's final component is the scratch name, so the file sits directly in `TEMP_DIR` |
| `Naming.OutputName` | main.py:61 | The output name is a single component whose suffix is `.` plus the format and whose stem is the upload stem, then "_", then the id |
| `Naming.OutputNameInjective` | main.py:56-61 | Equal output names have equal stems, ids and formats, so different ids never share an output name, even for identical uploads |
| `Naming.OutputPath` | main.py:62 | The output path starts with `OUTPUT_DIR` followed by '/' (`OutputPathName` gives its final component) |
| `Naming.OutputPathName` | main.py:62 | The output path's final component is the output name, so the file sits directly in `OUTPUT_DIR` |
| `Naming.RootsDisjoint` | main.py:13-16 | No scratch path is ever an output path |
| `Naming.DistinctIdsDistinctPaths` | main.py:56-62 | Requests with different ids have different scratch paths and different output paths |
| `Naming.RStripSlashes` | main.py:103 | `rstrip('/')` returns a prefix of its input that does not end in '/', and everything it removed is '/' |
| `Naming.RStripIdempotent` | main.py:103 | Stripping twice gives the same result as stripping once |
| `Naming.DownloadUrl` | main.py:103-104 | The URL is the base with all trailing slashes removed, then "/download/", then the name; no '/' comes right before the route |
| `Naming.MediaType` | main.py:156 | The media type starts with "audio/" exactly when the extension is supported, and then names the extension; otherwise it is "application/octet-stream" |
| `Naming.LStripDots` | main.py:155 | `lstrip('.')` returns the end of its input, not starting with '.', after removing only dots |
| `Naming.UnsupportedDetail` | main.py:52 | The 400 detail is "Unsupported format: ", the format, then ". Supported: mp3, ogg" |
| `Conversion.RequestOutputName` | main.py:57-61 | The request's output name is a single component ending in `.` plus the requested format |
| `Conversion.SuccessResponse` | main.py:95-110 | With `download` the reply is the output file sent under its own name; otherwise it is status "ok" with the output path and a URL ending in "/download/" plus the name; both designate `OUTPUT_DIR/name` |
| `Conversion.RequestOutcome` | main.py:85-124 | Once the names are fixed, the request succeeds exactly when nothing was raised and the exit code is 0, with the success response; every failure is a 500 |
| `Conversion.FilesAfter` | main.py:64-120 | After the `try` statement the scratch file is gone; the output exists exactly when nothing unexpected was raised and it existed or the converter wrote it; no other file changes |
| `Conversion.ConvertSpec` | main.py:28-124 | An unsupported format leaves the files unchanged; every error is a 400 or a 500 |
| `Conversion.FileSystem.Create` | main.py:66 | Opening a file for writing adds exactly that path |
| `Conversion.FileSystem.Unlink` | main.py:92 | `unlink(missing_ok=True)` removes exactly that path, whether or not it existed |
| `Conversion.FileSystem.ConvertAudio` | main.py:28-124 | The handler's outcome and the files it leaves are those of `ConvertSpec`; the scratch file does not exist afterwards; an unsupported format changes no file |
| `Conversion.UnsupportedFormatRejected` | main.py:49-53 | An unsupported format gives 400 with the detail listing "mp3, ogg", needs no id, and creates no file |
| `Conversion.SucceedsIff` | main.py:85-110 | A request succeeds exactly when the format is supported, nothing unexpected is raised and the exit code is 0 |
| `Conversion.FailureDetails` | main.py:85-124 | A non-zero exit gives 500 "FFmpeg error: " plus the whole stderr; any other exception gives 500 "Conversion error: " plus its text |
| `Conversion.RequestFiles` | main.py:92-120 | On every exit the scratch file is gone; the output is deleted only after an unexpected exception, and otherwise exists exactly when it existed or the converter wrote it; other files are unchanged |
| `Conversion.LinkedResponse` | main.py:101-110 | With `download=false`, success is `{"status": "ok", output_path: OUTPUT_DIR/name, download_url: rstrip(base) + "/download/" + name}` |
| `Conversion.InlineResponse` | main.py:95-100 | With `download=true`, success sends OUTPUT_DIR/name as "audio/" plus the format, suggesting the name, which ends in `.` plus the format |
| `Conversion.TempNameWithoutFilename` | main.py:60 | Without a filename the scratch name is the id plus "_input", with no extension |
| `Conversion.NamesFromFilename` | main.py:57-61 | With a filename, the output stem is the upload's pathlib stem plus "_" plus the id, and the scratch file keeps the upload's suffix |
| `Retrieval.DownloadPath` | main.py:138 | `OUTPUT_DIR / filename` starts with the string `OUTPUT_DIR`, and its name is the requested segment ("output" for "."); the join is not resolved, so ".." gives "/app/output/..", which names `/app` |
| `Retrieval.DownloadExtension` | main.py:155 | `suffix.lstrip('.')` contains no '.' |
| `Retrieval.DownloadExtensionIsSuffix` | main.py:155 | The extension is the requested name's pathlib suffix without its dot, or empty when there is no suffix |
| `Retrieval.DownloadFile` | main.py:127-162 | Every error is a 404 or a 403; a served file is sent under the requested name from the unresolved join, a string that starts with `OUTPUT_DIR` (not a containment guarantee) |
| `Retrieval.MissingIsNotFound` | main.py:141-145 | A missing file gives 404 "File not found: " plus the name, whatever the resolved paths are |
| `Retrieval.GuardIsPrefixTest` | main.py:148-152 | For an existing file: served exactly when the resolved root is a string prefix of the resolved path, otherwise 403 "Access denied" |
| `Retrieval.ContainedPathPasses` | main.py:148-152 | Any path inside the resolved root passes the guard |
| `Retrieval.SiblingDirectoryPasses` | main.py:148 | A path in the sibling directory `/app/output2` also passes the prefix test |
| `Retrieval.ParentDirectoryRefused` | main.py:148-152 | `..` resolving to `/app` is refused with 403 |
| `Retrieval.ServedMediaType` | main.py:155-162 | A served file has an audio media type exactly when its extension is supported, and "application/octet-stream" otherwise |
| `Retrieval.ExtensionOfOutputName` | main.py:155 | The extension derived from an output name is the format it was converted to |
| `Retrieval.OutputFileServed` | main.py:138-162 | An output file downloaded from where it was written is served as "audio/" plus its format |
| `Retrieval.ConvertedFileIsServed` | main.py:95-162 | After a successful conversion that wrote its output, downloading the output name serves that file as "audio/" plus the format, the same response `download=true` returns |

## Left out

- FastAPI routing, `UploadFile.read`, streaming by `FileResponse` and `JSONResponse`, and the `Request` object are framework plumbing. The model keeps only the values they carry: filename, format, `download` flag and base URL. The uploaded bytes never affect a decision, so they are not modelled.
- `subprocess.run` of `ffmpeg` is an external process. It is a `ConverterRun` input: exit code, stderr, and whether the output file appears. Its command line is not modelled.
- `uuid.uuid4()` is an input in canonical text form. That ids differ across requests is a hypothesis of `DistinctIdsDistinctPaths`, not something the model proves.
- `Path.exists()` and `Path.resolve()` are OS behaviour, including symlinks, directories and `..`. They are inputs to `DownloadFile`. The `FileSystem` class holds files only, not directories.
- The directory creation at import time (main.py:14,17) is not modelled.
- The constant `/` and `/health` handlers are not modelled.
- Concurrency between requests and the async structure are not modelled. Requests share no in-process state. `DistinctIdsDistinctPaths` shows that two requests never touch the same file.
- Conversion.FileSystem.ConvertAudio: only three points can raise an unexpected exception: opening the scratch file, reading or writing the upload, and `subprocess.run` (whether before or after the converter wrote its output, the handler removes that output). An exception raised by an `unlink` call, or inside the `except` handlers, is not modelled.
- Conversion.InlineResponse: the response is built even when the converter wrote no file. `FileResponse` would then fail while sending, which is not modelled.
- PurePath.Suffix: uses the rule of Python 3.13 and earlier, under which a name ending in '.' has no suffix. Python 3.14 changed that case.
- Retrieval.DownloadFile: `filename` is one non-empty route segment without '/', because the route `/download/{filename}` guarantees that.
