/** The module constants of the service and the names, paths, URL and
    media types it derives from a request: pure string manipulation. */
module Naming {
  import opened PurePath

  datatype Option<+T> = None | Some(value: T)

  /** `OUTPUT_DIR`: durable root for converted files. */
  const OutputDir: string := "/app/output"
  /** `TEMP_DIR`: scratch root for uploads being converted. */
  const TempDir: string := "/tmp/audio_converter"
  /** `SUPPORTED_FORMATS`, in the order the error message lists them. */
  const SupportedFormats: seq<string> := ["mp3", "ogg"]
  /** The route prefix of the download endpoint, as the URL builder writes it. */
  const DownloadRoute: string := "/download/"

  /** `target_format in SUPPORTED_FORMATS`: the only formats accepted are
      exactly "mp3" and "ogg". */
  predicate IsSupported(fmt: string)
    ensures IsSupported(fmt) <==> fmt == "mp3" || fmt == "ogg"
  {
    fmt in SupportedFormats
  }

  /** Every supported format is a three-letter extension without dots or
      separators. */
  lemma SupportedShape(fmt: string)
    requires IsSupported(fmt)
    ensures |fmt| == 3 && '.' !in fmt && '/' !in fmt
  {
  }

  predicate IsHexDigit(c: char) {
    '0' <= c <= '9' || 'a' <= c <= 'f'
  }

  /** Every character of `s` is a lower-case hex digit. */
  predicate AllHex(s: string)
    decreases |s|
  {
    s == [] || (IsHexDigit(s[0]) && AllHex(s[1..]))
  }

  /** `str(uuid.uuid4())`: 36 characters in the 8-4-4-4-12 layout of
      lower-case hex digits, version digit 4, variant digit 8, 9, a or b. */
  predicate IsUuid4Text(id: string) {
    && |id| == 36
    && AllHex(id[..8]) && id[8] == '-'
    && AllHex(id[9..13]) && id[13] == '-'
    && id[14] == '4' && AllHex(id[15..18]) && id[18] == '-'
    && id[19] in "89ab" && AllHex(id[20..23]) && id[23] == '-'
    && AllHex(id[24..])
  }

  lemma {:induction false} AllHexNoSeparatorOrDot(s: string)
    requires AllHex(s)
    ensures '/' !in s && '.' !in s
    decreases |s|
  {
    if s != [] {
      AllHexNoSeparatorOrDot(s[1..]);
      assert s == [s[0]] + s[1..];
    }
  }

  /** The identifier contributes neither a separator nor a dot to a name. */
  lemma UuidHasNoSeparatorOrDot(id: string)
    requires IsUuid4Text(id)
    ensures '/' !in id && '.' !in id
  {
    AllHexNoSeparatorOrDot(id[..8]);
    AllHexNoSeparatorOrDot(id[9..13]);
    AllHexNoSeparatorOrDot(id[15..18]);
    AllHexNoSeparatorOrDot(id[20..23]);
    AllHexNoSeparatorOrDot(id[24..]);
    assert id == id[..8] + [id[8]] + id[9..13] + [id[13], id[14]] + id[15..18] + [id[18], id[19]]
                 + id[20..23] + [id[23]] + id[24..];
  }

  /** `file.filename` is used only when it is truthy: neither None nor "". */
  predicate HasFilename(filename: Option<string>) {
    filename.Some? && filename.value != ""
  }

  /** `Path(file.filename).stem if file.filename else "audio"`. */
  function UploadStem(filename: Option<string>): (stem: string)
    ensures '/' !in stem
    ensures !HasFilename(filename) ==> stem == "audio"
    ensures HasFilename(filename) ==> stem + UploadSuffix(filename) == Name(filename.value)
  {
    if HasFilename(filename) then
      var n := Name(filename.value);
      var st := Stem(n);
      assert st == n[..|st|];
      st
    else "audio"
  }

  /** `Path(file.filename).suffix if file.filename else ''`. */
  function UploadSuffix(filename: Option<string>): (suffix: string)
    ensures suffix == [] || (|suffix| >= 2 && suffix[0] == '.' && '.' !in suffix[1..])
    ensures '/' !in suffix
    ensures !HasFilename(filename) ==> suffix == []
  {
    if HasFilename(filename) then
      var n := Name(filename.value);
      var x := Suffix(n);
      assert forall k :: 0 <= k < |x| ==> x[k] == n[|n| - |x| + k];
      x
    else []
  }

  /** The name of the scratch file: `{unique_id}_input{suffix}`. It is a
      single component (so the file lands directly in the scratch root)
      and it keeps the upload's extension. */
  function TempInputName(id: string, filename: Option<string>): (n: string)
    requires IsUuid4Text(id)
    ensures IsSimpleName(n)
    ensures Suffix(n) == UploadSuffix(filename)
    ensures id <= n
  {
    UuidHasNoSeparatorOrDot(id);
    assert '.' !in id + "_input" && '/' !in id + "_input";
    SuffixAfterDotFreeBase(id + "_input", UploadSuffix(filename));
    id + "_input" + UploadSuffix(filename)
  }

  /** `TEMP_DIR / temp_name` as a string. */
  function TempInputPath(id: string, filename: Option<string>): (p: string)
    requires IsUuid4Text(id)
    ensures TempDir + "/" <= p
  {
    TempDir + "/" + TempInputName(id, filename)
  }

  /** The scratch file sits directly in the scratch root: its path's final
      component is the scratch file name. */
  lemma TempInputPathName(id: string, filename: Option<string>)
    requires IsUuid4Text(id)
    ensures Name(TempInputPath(id, filename)) == TempInputName(id, filename)
  {
    NameOfJoin(TempDir, TempInputName(id, filename));
  }

  /** `f"{original_filename}_{unique_id}.{target_format}"`: a single
      component whose pathlib suffix is the target format and whose stem is
      the upload stem followed by the identifier. */
  function OutputName(stem: string, id: string, fmt: string): (n: string)
    requires '/' !in stem && IsUuid4Text(id) && IsSupported(fmt)
    ensures IsSimpleName(n)
    ensures Suffix(n) == "." + fmt
    ensures Stem(n) == stem + "_" + id
  {
    UuidHasNoSeparatorOrDot(id);
    SupportedShape(fmt);
    SplitAtLastDot(stem + "_" + id, fmt);
    stem + "_" + id + "." + fmt
  }

  /** Output names determine stem, identifier and format. In particular
      two requests with different identifiers never share an output file,
      even when they upload files of the same name. */
  lemma OutputNameInjective(stem1: string, id1: string, fmt1: string, stem2: string, id2: string, fmt2: string)
    requires '/' !in stem1 && IsUuid4Text(id1) && IsSupported(fmt1)
    requires '/' !in stem2 && IsUuid4Text(id2) && IsSupported(fmt2)
    requires OutputName(stem1, id1, fmt1) == OutputName(stem2, id2, fmt2)
    ensures stem1 == stem2 && id1 == id2 && fmt1 == fmt2
  {
    var n := OutputName(stem1, id1, fmt1);
    SupportedShape(fmt1);
    SupportedShape(fmt2);
    assert n[|n| - 3..] == fmt1 && n[|n| - 3..] == fmt2;
    assert n[|n| - 40..|n| - 4] == id1 && n[|n| - 40..|n| - 4] == id2;
    assert |stem1| == |stem2|;
    assert n[..|stem1|] == stem1 && n[..|stem2|] == stem2;
  }

  /** `OUTPUT_DIR / output_filename` as a string. */
  function OutputPath(name: string): (p: string)
    requires IsSimpleName(name)
    ensures OutputDir + "/" <= p
  {
    OutputDir + "/" + name
  }

  /** An output file sits directly in the output root: its path's final
      component is its name. */
  lemma OutputPathName(name: string)
    requires IsSimpleName(name)
    ensures Name(OutputPath(name)) == name
  {
    NameOfJoin(OutputDir, name);
  }

  /** The scratch root and the output root never share a path. */
  lemma RootsDisjoint(id: string, filename: Option<string>, name: string)
    requires IsUuid4Text(id) && IsSimpleName(name)
    ensures TempInputPath(id, filename) != OutputPath(name)
  {
    SeparateRoots(TempInputName(id, filename), name);
  }

  lemma SeparateRoots(scratch: string, output: string)
    ensures TempDir + "/" + scratch != OutputDir + "/" + output
  {
    assert (TempDir + "/" + scratch)[1] == 't';
    assert (OutputDir + "/" + output)[1] == 'a';
  }

  /** Requests with different identifiers touch disjoint files: neither
      their scratch files nor their output files coincide. */
  lemma DistinctIdsDistinctPaths(id1: string, id2: string, filename1: Option<string>, filename2: Option<string>,
                                 stem1: string, stem2: string, fmt1: string, fmt2: string)
    requires IsUuid4Text(id1) && IsUuid4Text(id2) && id1 != id2
    requires '/' !in stem1 && '/' !in stem2 && IsSupported(fmt1) && IsSupported(fmt2)
    ensures TempInputPath(id1, filename1) != TempInputPath(id2, filename2)
    ensures OutputPath(OutputName(stem1, id1, fmt1)) != OutputPath(OutputName(stem2, id2, fmt2))
  {
    var n1, n2 := TempInputName(id1, filename1), TempInputName(id2, filename2);
    assert n1[..36] == id1 && n2[..36] == id2;
    var t1, t2 := TempInputPath(id1, filename1), TempInputPath(id2, filename2);
    assert t1 == TempDir + "/" + n1 && t2 == TempDir + "/" + n2;
    assert t1[|TempDir| + 1..] == n1 && t2[|TempDir| + 1..] == n2;
    if OutputName(stem1, id1, fmt1) == OutputName(stem2, id2, fmt2) {
      OutputNameInjective(stem1, id1, fmt1, stem2, id2, fmt2);
    }
    var m1, m2 := OutputName(stem1, id1, fmt1), OutputName(stem2, id2, fmt2);
    var o1, o2 := OutputPath(m1), OutputPath(m2);
    assert o1 == OutputDir + "/" + m1 && o2 == OutputDir + "/" + m2;
    assert o1[|OutputDir| + 1..] == m1 && o2[|OutputDir| + 1..] == m2;
  }

  /** `str.rstrip('/')`: drops every trailing '/' and nothing else. */
  function RStripSlashes(s: string): (r: string)
    ensures r <= s
    ensures r == [] || r[|r| - 1] != '/'
    ensures forall k :: |r| <= k < |s| ==> s[k] == '/'
    decreases |s|
  {
    if s != [] && s[|s| - 1] == '/' then RStripSlashes(s[..|s| - 1]) else s
  }

  /** `str.rstrip('/')` is idempotent. */
  lemma RStripIdempotent(s: string)
    ensures RStripSlashes(RStripSlashes(s)) == RStripSlashes(s)
  {
  }

  /** `f"{base_url}/download/{output_filename}"` after stripping the base:
      the base with all its trailing slashes removed, then exactly one '/'
      before "download/", then the file name; so no "//" appears at the
      join. */
  function DownloadUrl(baseUrl: string, name: string): (url: string)
    ensures var cut := |url| - |DownloadRoute| - |name|;
      && 0 <= cut
      && url[..cut] <= baseUrl
      && (forall k :: cut <= k < |baseUrl| ==> baseUrl[k] == '/')
      && url[cut..] == DownloadRoute + name
      && (cut == 0 || url[cut - 1] != '/')
  {
    var b := RStripSlashes(baseUrl);
    assert (b + DownloadRoute + name)[..|b|] == b;
    assert (b + DownloadRoute + name)[|b|..] == DownloadRoute + name;
    b + DownloadRoute + name
  }

  /** The media type the download endpoint derives from an extension: an
      audio type exactly for the supported formats, and then it names the
      extension; anything else is sent as opaque bytes. */
  function MediaType(ext: string): (m: string)
    ensures "audio/" <= m <==> IsSupported(ext)
    ensures IsSupported(ext) ==> m[|"audio/"|..] == ext
    ensures !IsSupported(ext) ==> m == "application/octet-stream"
  {
    if ext in SupportedFormats then "audio/" + ext
    else
      var m := "application/octet-stream";
      assert m[1] == 'p';
      m
  }

  /** `str.lstrip('.')`: drops every leading '.' and nothing else. */
  function LStripDots(s: string): (r: string)
    ensures |r| <= |s| && r == s[|s| - |r|..]
    ensures r == [] || r[0] != '.'
    ensures forall k :: 0 <= k < |s| - |r| ==> s[k] == '.'
    decreases |s|
  {
    if s != [] && s[0] == '.' then LStripDots(s[1..]) else s
  }

  /** Joining the detail message of an unsupported-format error. */
  function JoinWith(items: seq<string>, sep: string): string
    decreases |items|
  {
    if |items| == 0 then ""
    else if |items| == 1 then items[0]
    else items[0] + sep + JoinWith(items[1..], sep)
  }

  /** The 400 detail names the rejected format and lists the supported
      ones, joined with ", ". */
  function UnsupportedDetail(fmt: string): (d: string)
    ensures d == "Unsupported format: " + fmt + ". Supported: mp3, ogg"
  {
    assert JoinWith(["ogg"], ", ") == "ogg";
    "Unsupported format: " + fmt + ". Supported: " + JoinWith(SupportedFormats, ", ")
  }
}
