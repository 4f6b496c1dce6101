/** The `/download/{filename}` handler: an existence check, then a string
    prefix test on resolved paths, then a media type from the extension.
    Whether the path exists and what it resolves to are inputs. */
module Retrieval {
  import opened PurePath
  import opened Naming
  import opened Conversion

  /** What the route's `{filename}` parameter can hold: one non-empty path
      segment. */
  predicate IsRouteSegment(filename: string) {
    |filename| > 0 && '/' !in filename
  }

  /** `OUTPUT_DIR / filename` as a string; pathlib drops a "." component
      but keeps "..", so the joined string always starts with `OUTPUT_DIR`
      without always naming a path inside it ("/app/output/.." is "/app"). */
  function DownloadPath(filename: string): (p: string)
    requires IsRouteSegment(filename)
    ensures Name(p) == (if filename == "." then "output" else filename)
    ensures OutputDir <= p
  {
    if filename == "." then
      assert OutputDir == "/app" + "/" + "output";
      NameOfJoin("/app", "output");
      OutputDir
    else
      NameOfJoin(OutputDir, filename);
      OutputDir + "/" + filename
  }

  /** `file_path.suffix.lstrip('.')`: a suffix holds a single dot, in
      front, so the extension holds none. */
  function DownloadExtension(filename: string): (ext: string)
    requires IsRouteSegment(filename)
    ensures '.' !in ext
  {
    var x := Suffix(Name(DownloadPath(filename)));
    if x == [] then LStripDots(x)
    else
      assert x == "." + x[1..];
      assert x[1] in x[1..];
      LStripDots(x)
  }

  /** The extension is the pathlib suffix of the requested file without
      its dot, and empty when the name has no suffix. */
  lemma DownloadExtensionIsSuffix(filename: string)
    requires IsRouteSegment(filename) && filename != "."
    ensures HasSuffix(filename) ==> "." + DownloadExtension(filename) == Suffix(filename)
    ensures !HasSuffix(filename) ==> DownloadExtension(filename) == []
  {
    var x := Suffix(filename);
    if x != [] {
      assert x == "." + x[1..];
      assert x[1] in x[1..];
    }
  }

  /** `download_file`: 404 when the path does not exist, 403 when the
      resolved path does not start with the resolved output root, and the
      file otherwise. */
  function DownloadFile(filename: string, found: bool, resolved: string, resolvedRoot: string): (o: Outcome)
    requires IsRouteSegment(filename)
    ensures o.HttpError? ==> o.status == 404 || o.status == 403
    ensures o.Ok? ==> o.response.FileReply? && o.response.filename == filename && OutputDir <= o.response.path
  {
    if !found then HttpError(404, "File not found: " + filename)
    else if !(resolvedRoot <= resolved) then HttpError(403, "Access denied")
    else Ok(FileReply(DownloadPath(filename), MediaType(DownloadExtension(filename)), filename))
  }

  /** A missing file is a 404 whatever the paths resolve to: existence is
      checked before containment. */
  lemma MissingIsNotFound(filename: string, resolved: string, resolvedRoot: string)
    requires IsRouteSegment(filename)
    ensures DownloadFile(filename, false, resolved, resolvedRoot) == HttpError(404, "File not found: " + filename)
  {
  }

  /** For an existing file the guard is exactly a string prefix test: the
      file is served if and only if the resolved root is a prefix of the
      resolved path, and refused with 403 otherwise. */
  lemma GuardIsPrefixTest(filename: string, resolved: string, resolvedRoot: string)
    requires IsRouteSegment(filename)
    ensures var o := DownloadFile(filename, true, resolved, resolvedRoot);
      && (o.Ok? <==> resolvedRoot <= resolved)
      && (!o.Ok? <==> o == HttpError(403, "Access denied"))
  {
  }

  /** Every path inside the resolved root passes the guard. */
  lemma ContainedPathPasses(filename: string, resolvedRoot: string, rest: string)
    requires IsRouteSegment(filename)
    ensures DownloadFile(filename, true, resolvedRoot + "/" + rest, resolvedRoot).Ok?
  {
    assert resolvedRoot <= resolvedRoot + "/" + rest;
  }

  /** The prefix test is not containment: a path in a sibling directory
      whose name extends the root's passes it too. */
  lemma SiblingDirectoryPasses(filename: string)
    requires IsRouteSegment(filename)
    ensures DownloadFile(filename, true, "/app/output2/" + filename, OutputDir).Ok?
  {
    assert OutputDir <= "/app/output2/" + filename;
  }

  /** A path that leaves the root entirely, as `..` would make it, is
      refused with 403. */
  lemma ParentDirectoryRefused()
    ensures DownloadFile("..", true, "/app", OutputDir) == HttpError(403, "Access denied")
  {
    assert !(OutputDir <= "/app");
  }

  /** A served file is sent under the requested name, with an audio media
      type exactly when its extension is a supported format. */
  lemma ServedMediaType(filename: string, resolved: string, resolvedRoot: string)
    requires IsRouteSegment(filename) && resolvedRoot <= resolved
    ensures var r := DownloadFile(filename, true, resolved, resolvedRoot).response;
      && r.FileReply? && r.filename == filename
      && ("audio/" <= r.mediaType <==> IsSupported(DownloadExtension(filename)))
      && (!IsSupported(DownloadExtension(filename)) ==> r.mediaType == "application/octet-stream")
  {
  }

  /** The download endpoint reads the format back from an output name:
      the extension it derives is the format the name ends in. */
  lemma ExtensionOfOutputName(name: string, fmt: string)
    requires IsSimpleName(name) && IsSupported(fmt) && Suffix(name) == "." + fmt
    ensures DownloadExtension(name) == fmt
  {
    SupportedShape(fmt);
    assert LStripDots("." + fmt) == LStripDots(fmt);
  }

  /** A file whose suffix is a supported format, downloaded from where it
      was written, is served as audio of that format. */
  lemma OutputFileServed(name: string, fmt: string)
    requires IsSimpleName(name) && IsSupported(fmt) && Suffix(name) == "." + fmt
    ensures DownloadFile(name, true, OutputPath(name), OutputDir) == Ok(FileReply(OutputPath(name), "audio/" + fmt, name))
  {
    ExtensionOfOutputName(name, fmt);
    assert DownloadPath(name) == OutputPath(name);
    assert OutputDir <= OutputPath(name);
    assert MediaType(fmt) == "audio/" + fmt;
  }

  /** A converted file can be fetched back: after a successful request
      whose converter wrote its output, downloading the output name (whose
      path resolves to itself) serves that file as `audio/<format>`, which
      is the very response a request with `download=true` returns. */
  lemma ConvertedFileIsServed(req: Upload, id: string, run: ConverterRun, files: set<string>)
    requires IsSupported(req.targetFormat) && IsUuid4Text(id)
    requires run.returnCode == 0 && run.createsOutput
    ensures var name := RequestOutputName(req, id);
      var path := OutputPath(name);
      var e := ConvertSpec(req, id, run, NoFault, files);
      && IsRouteSegment(name)
      && path in e.files
      && DownloadFile(name, path in e.files, path, OutputDir) == Ok(FileReply(path, "audio/" + req.targetFormat, name))
      && (req.download ==> e.outcome == DownloadFile(name, true, path, OutputDir))
  {
    var name := RequestOutputName(req, id);
    var path := OutputPath(name);
    var e := ConvertSpec(req, id, run, NoFault, files);
    RootsDisjoint(id, req.filename, name);
    assert path in e.files;
    OutputFileServed(name, req.targetFormat);
    assert e.outcome == Ok(SuccessResponse(req, name));
  }
}
