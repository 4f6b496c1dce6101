/** The `/convert` handler: the per-request file lifecycle over the two
    storage roots. The uuid, the external converter and any unexpected
    exception are inputs; the filesystem is the set of existing paths. */
module Conversion {
  import opened PurePath
  import opened Naming

  /** What the handler receives: the upload's filename (absent or empty
      when the client sent none), `target_format`, `download` and the
      request's base URL. The uploaded bytes play no part in any decision. */
  datatype Upload = Upload(filename: Option<string>, targetFormat: string, download: bool, baseUrl: string)

  /** What one run of the external converter does: its exit code, its
      standard error, and whether it left a file at the output path. */
  datatype ConverterRun = ConverterRun(returnCode: int, stderr: string, createsOutput: bool)

  /** An exception other than `HTTPException` inside the `try`, with the
      step that raises it and its text: opening the scratch file fails (no
      file is created), reading the upload or writing it fails after the
      scratch file was created, or `subprocess.run` raises (the converter
      cannot be started, or its captured output cannot be decoded after it
      ran; any output file it wrote is removed by the handler either way). */
  datatype Fault = NoFault | OpenFails(message: string) | WriteFails(message: string) | RunRaises(message: string)

  /** A response body: a file sent back (`FileResponse`) or the JSON
      descriptor of a converted file. */
  datatype Response =
    | FileReply(path: string, mediaType: string, filename: string)
    | JsonReply(status: string, outputPath: string, downloadUrl: string)

  /** A handler's result: a response, or an `HTTPException` with its
      status code and detail. */
  datatype Outcome = Ok(response: Response) | HttpError(status: int, detail: string)

  /** What the `try` block has raised so far. */
  datatype Raised = NotRaised | Http(status: int, detail: string) | Unexpected(message: string)

  /** The result of a request together with the set of existing files after it. */
  datatype Exit = Exit(outcome: Outcome, files: set<string>)

  /** `output_filename` of a request with a supported format. */
  function RequestOutputName(req: Upload, id: string): (n: string)
    requires IsSupported(req.targetFormat) && IsUuid4Text(id)
    ensures IsSimpleName(n)
    ensures Suffix(n) == "." + req.targetFormat
  {
    OutputName(UploadStem(req.filename), id, req.targetFormat)
  }

  /** The response of a successful conversion, chosen by `download`: the
      output file itself, sent under its own name, or a descriptor holding
      its path and a URL that ends in the download route and its name.
      Either way it designates the same output file. */
  function SuccessResponse(req: Upload, name: string): (r: Response)
    requires IsSimpleName(name)
    ensures r.FileReply? <==> req.download
    ensures r.FileReply? ==> r.path == OutputPath(name) && r.filename == name
    ensures r.JsonReply? ==> && r.status == "ok" && r.outputPath == OutputPath(name)
                             && |DownloadRoute| + |name| <= |r.downloadUrl|
                             && r.downloadUrl[|r.downloadUrl| - |DownloadRoute| - |name|..] == DownloadRoute + name
  {
    if req.download then FileReply(OutputPath(name), "audio/" + req.targetFormat, name)
    else JsonReply("ok", OutputPath(name), DownloadUrl(req.baseUrl, name))
  }

  /** The files that exist once the request's `try` statement has been
      left, given those that existed before, the scratch path `temp` and the
      output path `out`: the scratch file is gone on every exit, the output
      file is removed only after an unexpected exception, and no other file
      is touched. */
  function FilesAfter(files: set<string>, temp: string, out: string, run: ConverterRun, fault: Fault): (after: set<string>)
    requires temp != out
    ensures temp !in after
    ensures out in after <==> fault == NoFault && (out in files || run.createsOutput)
    ensures forall p :: p != temp && p != out ==> (p in after <==> p in files)
  {
    match fault
    case OpenFails(_) => files - {temp} - {out}
    case WriteFails(_) => (files + {temp}) - {temp} - {out}
    case RunRaises(_) => (files + {temp}) - {temp} - {out}
    case NoFault => (files + {temp} + (if run.createsOutput then {out} else {})) - {temp}
  }

  /** The outcome of a request whose format is supported and whose output
      file is called `name`. */
  function RequestOutcome(req: Upload, name: string, run: ConverterRun, fault: Fault): (o: Outcome)
    requires IsSimpleName(name)
    ensures o.Ok? <==> fault == NoFault && run.returnCode == 0
    ensures o.HttpError? ==> o.status == 500
    ensures o.Ok? ==> o.response == SuccessResponse(req, name)
  {
    match fault
    case NoFault =>
      if run.returnCode != 0 then HttpError(500, "FFmpeg error: " + run.stderr)
      else Ok(SuccessResponse(req, name))
    case _ => HttpError(500, "Conversion error: " + fault.message)
  }

  /** The whole request as a value: the outcome and the files that exist
      afterwards, given the files that existed before. The format is
      checked before the identifier is drawn, so an unsupported format
      needs no identifier. */
  function ConvertSpec(req: Upload, id: string, run: ConverterRun, fault: Fault, files: set<string>): (e: Exit)
    requires IsSupported(req.targetFormat) ==> IsUuid4Text(id)
    ensures !IsSupported(req.targetFormat) ==> e.files == files
    ensures e.outcome.HttpError? ==> e.outcome.status == 400 || e.outcome.status == 500
  {
    if !IsSupported(req.targetFormat) then
      Exit(HttpError(400, UnsupportedDetail(req.targetFormat)), files)
    else
      var name := RequestOutputName(req, id);
      RootsDisjoint(id, req.filename, name);
      Exit(RequestOutcome(req, name, run, fault),
           FilesAfter(files, TempInputPath(id, req.filename), OutputPath(name), run, fault))
  }

  /** The existing paths of the two storage roots. */
  class FileSystem {
    var files: set<string>

    constructor (initial: set<string>)
      ensures files == initial
    {
      files := initial;
    }

    /** `open(path, "wb")`, or the converter writing its output file. */
    method Create(path: string)
      modifies this
      ensures files == old(files) + {path}
    {
      files := files + {path};
    }

    /** `path.unlink(missing_ok=True)`: a missing file is not an error. */
    method Unlink(path: string)
      modifies this
      ensures files == old(files) - {path}
    {
      files := files - {path};
    }

    /** `convert_audio`, step by step: validate the format, derive the
        names, write the scratch file, run the converter, then clean up on
        whichever of the three exits is taken. */
    method ConvertAudio(req: Upload, id: string, run: ConverterRun, fault: Fault) returns (outcome: Outcome)
      requires IsSupported(req.targetFormat) ==> IsUuid4Text(id)
      modifies this
      ensures Exit(outcome, files) == ConvertSpec(req, id, run, fault, old(files))
      ensures IsSupported(req.targetFormat) ==> TempInputPath(id, req.filename) !in files
      ensures !IsSupported(req.targetFormat) ==> files == old(files)
    {
      if !IsSupported(req.targetFormat) {
        return HttpError(400, UnsupportedDetail(req.targetFormat));
      }
      var temp := TempInputPath(id, req.filename);
      var name := RequestOutputName(req, id);
      var out := OutputPath(name);
      RootsDisjoint(id, req.filename, name);

      var raised := NotRaised;
      // write the upload to the scratch file
      if fault.OpenFails? {
        raised := Unexpected(fault.message);
      } else {
        Create(temp);
        if fault.WriteFails? {
          raised := Unexpected(fault.message);
        }
      }
      // run the converter
      if raised.NotRaised? {
        if fault.RunRaises? {
          raised := Unexpected(fault.message);
        } else {
          if run.createsOutput {
            Create(out);
          }
          if run.returnCode != 0 {
            raised := Http(500, "FFmpeg error: " + run.stderr);
          }
        }
      }
      // the three exits
      match raised {
        case NotRaised =>
          Unlink(temp);
          outcome := Ok(SuccessResponse(req, name));
        case Http(status, detail) =>
          Unlink(temp);
          outcome := HttpError(status, detail);
        case Unexpected(message) =>
          Unlink(temp);
          Unlink(out);
          outcome := HttpError(500, "Conversion error: " + message);
      }
      assert files == FilesAfter(old(files), temp, out, run, fault);
    }
  }

  /** An unsupported format is answered with 400 and leaves every file as
      it was. */
  lemma UnsupportedFormatRejected(req: Upload, id: string, run: ConverterRun, fault: Fault, files: set<string>)
    requires !IsSupported(req.targetFormat)
    ensures ConvertSpec(req, id, run, fault, files) == Exit(HttpError(400, UnsupportedDetail(req.targetFormat)), files)
  {
  }

  /** A request succeeds exactly when its format is supported, nothing
      unexpected is raised and the converter exits with 0. Whether the
      converter produced a file plays no part. */
  lemma SucceedsIff(req: Upload, id: string, run: ConverterRun, fault: Fault, files: set<string>)
    requires IsSupported(req.targetFormat) ==> IsUuid4Text(id)
    ensures ConvertSpec(req, id, run, fault, files).outcome.Ok?
        <==> IsSupported(req.targetFormat) && fault == NoFault && run.returnCode == 0
  {
  }

  /** The failures of a request with a supported format: a non-zero exit
      is a 500 carrying the whole standard error; any other exception is a
      500 carrying its text. */
  lemma FailureDetails(req: Upload, id: string, run: ConverterRun, fault: Fault, files: set<string>)
    requires IsSupported(req.targetFormat) && IsUuid4Text(id)
    ensures var o := ConvertSpec(req, id, run, fault, files).outcome;
      && (fault == NoFault && run.returnCode != 0 ==> o == HttpError(500, "FFmpeg error: " + run.stderr))
      && (fault != NoFault ==> o == HttpError(500, "Conversion error: " + fault.message))
  {
  }

  /** What a request does to the filesystem: the scratch file never
      outlives it; the output file is removed only on the
      unexpected-exception exit, and otherwise exists exactly when it existed
      before or the converter wrote it; no other file changes. */
  lemma RequestFiles(req: Upload, id: string, run: ConverterRun, fault: Fault, files: set<string>, p: string)
    requires IsSupported(req.targetFormat) && IsUuid4Text(id)
    ensures var temp, out := TempInputPath(id, req.filename), OutputPath(RequestOutputName(req, id));
      var after := ConvertSpec(req, id, run, fault, files).files;
      && temp !in after
      && (fault != NoFault ==> out !in after)
      && (fault == NoFault ==> (out in after <==> out in files || run.createsOutput))
      && (p != temp && p != out ==> (p in after <==> p in files))
  {
  }

  /** With `download=false` a success is the JSON descriptor: status "ok",
      the output path under the output root and a URL made of the base
      without its trailing slashes, the download route and the output name. */
  lemma LinkedResponse(req: Upload, id: string, run: ConverterRun, files: set<string>)
    requires IsSupported(req.targetFormat) && IsUuid4Text(id)
    requires run.returnCode == 0 && !req.download
    ensures var name := RequestOutputName(req, id);
      ConvertSpec(req, id, run, NoFault, files).outcome
        == Ok(JsonReply("ok", OutputDir + "/" + name, RStripSlashes(req.baseUrl) + "/download/" + name))
  {
  }

  /** With `download=true` a success sends the output file as
      `audio/<format>`, suggesting the output file name; that name ends in
      the requested format's extension. */
  lemma InlineResponse(req: Upload, id: string, run: ConverterRun, files: set<string>)
    requires IsSupported(req.targetFormat) && IsUuid4Text(id)
    requires run.returnCode == 0 && req.download
    ensures var name := RequestOutputName(req, id);
      && ConvertSpec(req, id, run, NoFault, files).outcome
           == Ok(FileReply(OutputDir + "/" + name, "audio/" + req.targetFormat, name))
      && Suffix(name) == "." + req.targetFormat
      && MediaType(req.targetFormat) == "audio/" + req.targetFormat
  {
  }

  /** Without a filename the scratch file has no extension. */
  lemma TempNameWithoutFilename(id: string, filename: Option<string>)
    requires IsUuid4Text(id) && !HasFilename(filename)
    ensures TempInputName(id, filename) == id + "_input"
  {
    assert UploadSuffix(filename) == [];
    assert TempInputName(id, filename) == id + "_input" + [];
  }

  /** With a filename, the output stem and the scratch file's extension
      come from the upload's final path component. */
  lemma NamesFromFilename(req: Upload, id: string)
    requires IsSupported(req.targetFormat) && IsUuid4Text(id)
    requires HasFilename(req.filename)
    ensures Stem(RequestOutputName(req, id)) == Stem(Name(req.filename.value)) + "_" + id
    ensures Suffix(TempInputName(id, req.filename)) == Suffix(Name(req.filename.value))
  {
  }
}
