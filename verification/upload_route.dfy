/** The media upload endpoint (src/app/api/upload/route.ts): files are
    checked one after the other against a type allowlist and a size limit,
    each accepted file is written under a fresh name, and the first rejected
    file ends the request. The form parsing, the directory check, the clock
    and random name part, and the file writes are parameters. */
module UploadRoute {
  import opened Text
  import opened Js
  import opened Http

  /** A posted file: its original name, its size in bytes and its MIME type. */
  datatype UploadFile = UploadFile(name: string, size: nat, fileType: string)

  /** An entry of the success response. */
  datatype StoredFile = StoredFile(originalName: string, filename: string, size: nat, fileType: string, url: string)

  datatype UploadBody =
    | UploadError(error: string)
    | Uploaded(message: string, files: seq<StoredFile>)
    | Advertised(message: string, supportedTypes: seq<string>, maxFileSize: string)

  /** What the endpoint does to the file system, in order. */
  datatype Effect = MakeUploadDir | WriteFile(filename: string)

  /** `Date.now()` and the random base-36 text drawn for one file. */
  datatype Stamp = Stamp(time: nat, random: string)

  /** The types `POST` accepts. */
  const AllowedTypes: seq<string> := [
    "image/jpeg", "image/jpg", "image/png", "image/gif", "image/webp",
    "video/mp4", "video/avi", "video/mov", "video/wmv", "video/flv", "video/webm"]

  /** 50 MiB. */
  const MaxSize: nat := 50 * 1024 * 1024

  const NoFilesMessage := "No files provided"
  const SizeMessage := "File size too large. " + "Maximum size is 50MB"
  const SuccessMessage := "Files uploaded successfully"
  const FailedMessage := "Failed to upload files"

  function TypeMessage(t: string): string {
    "File type " + t + " not supported"
  }

  /** Why a file is refused, the type being checked before the size. */
  function Rejection(f: UploadFile): (r: Option<string>)
    ensures r.None? <==> f.fileType in AllowedTypes && f.size <= MaxSize
    ensures f.fileType !in AllowedTypes ==> r == Some(TypeMessage(f.fileType))
    ensures f.fileType in AllowedTypes && f.size > MaxSize ==> r == Some(SizeMessage)
  {
    if f.fileType !in AllowedTypes then Some(TypeMessage(f.fileType))
    else if f.size > MaxSize then Some(SizeMessage)
    else None
  }

  /** The size limit is inclusive. */
  lemma SizeLimitInclusive(name: string, t: string)
    requires t in AllowedTypes
    ensures Rejection(UploadFile(name, MaxSize, t)).None?
    ensures Rejection(UploadFile(name, MaxSize + 1, t)) == Some(SizeMessage)
  {
  }

  /** `name.split('.').pop()`: the text after the last dot, or the whole
      name when it has no dot. */
  function Extension(name: string): (r: string)
    ensures forall i | 0 <= i < |r| :: r[i] != '.'
    ensures |r| <= |name| && r == name[|name| - |r|..]
    ensures |r| < |name| ==> name[|name| - |r| - 1] == '.'
    ensures r == name <==> forall i | 0 <= i < |name| :: name[i] != '.'
  {
    if |name| == 0 || name[|name| - 1] == '.' then ""
    else
      var e := Extension(name[..|name| - 1]);
      ExtensionStep(name, e);
      e + [name[|name| - 1]]
  }

  /** One step of `Extension`: a last character that is not a dot extends the
      extension of the rest of the name. */
  lemma ExtensionStep(name: string, e: string)
    requires |name| > 0 && name[|name| - 1] != '.'
    requires forall i | 0 <= i < |e| :: e[i] != '.'
    requires |e| <= |name| - 1 && e == name[..|name| - 1][|name| - 1 - |e|..]
    requires |e| < |name| - 1 ==> name[|name| - 2 - |e|] == '.'
    requires e == name[..|name| - 1] <==> forall i | 0 <= i < |name| - 1 :: name[i] != '.'
    ensures var r := e + [name[|name| - 1]];
      && (forall i | 0 <= i < |r| :: r[i] != '.')
      && r == name[|name| - |r|..]
      && (|r| < |name| ==> name[|name| - |r| - 1] == '.')
      && (r == name <==> forall i | 0 <= i < |name| :: name[i] != '.')
  {
    var r := e + [name[|name| - 1]];
    var p := name[..|name| - 1];
    assert name[|name| - |r|..] == p[|name| - |r|..] + [name[|name| - 1]];
    assert r[..|r| - 1] == e;
    if e == p {
      assert r == p + [name[|name| - 1]] == name;
    }
  }

  /** A name ending in a dot and dot-free text has that text as its extension. */
  lemma {:induction false} ExtensionAfterDot(prefix: string, ext: string)
    requires forall i | 0 <= i < |ext| :: ext[i] != '.'
    ensures Extension(prefix + "." + ext) == ext
    decreases |ext|
  {
    var s := prefix + "." + ext;
    if ext == [] {
      assert s[|s| - 1] == '.';
    } else {
      var init := ext[..|ext| - 1];
      assert s[..|s| - 1] == prefix + "." + init;
      assert s[|s| - 1] == ext[|ext| - 1];
      ExtensionAfterDot(prefix, init);
      assert Extension(s) == Extension(prefix + "." + init) + [ext[|ext| - 1]];
      assert init + [ext[|ext| - 1]] == ext;
    }
  }

  /** `${timestamp}-${randomString}.${extension}`. */
  function FileName(stamp: Stamp, name: string): (r: string)
    ensures StartsWith(r, DecimalString(stamp.time) + "-" + stamp.random + ".")
    ensures r[|DecimalString(stamp.time) + "-" + stamp.random + "."|..] == Extension(name)
  {
    var head := DecimalString(stamp.time) + "-" + stamp.random + ".";
    var r := head + Extension(name);
    assert r[..|head|] == head && r[|head|..] == Extension(name);
    r
  }

  /** The stored name keeps the original file's extension. */
  lemma FileNameKeepsExtension(stamp: Stamp, name: string)
    ensures Extension(FileName(stamp, name)) == Extension(name)
  {
    ExtensionAfterDot(DecimalString(stamp.time) + "-" + stamp.random, Extension(name));
  }

  /** The response entry for an accepted file. */
  function Stored(f: UploadFile, filename: string): (e: StoredFile)
    ensures e.url == "/uploads/" + e.filename && e.filename == filename
    ensures e.originalName == f.name && e.size == f.size && e.fileType == f.fileType
  {
    StoredFile(f.name, filename, f.size, f.fileType, "/uploads/" + filename)
  }

  /** The names the files are written under, one per file in input order. */
  function Names(fs: seq<UploadFile>, stamp: nat -> Stamp): (names: seq<string>)
    ensures |names| == |fs|
    ensures forall i | 0 <= i < |fs| :: names[i] == FileName(stamp(i), fs[i].name)
  {
    seq(|fs|, i requires 0 <= i < |fs| => FileName(stamp(i), fs[i].name))
  }

  /** The entries for the first `n` files, in input order. */
  function StoredList(fs: seq<UploadFile>, names: seq<string>, n: nat): (r: seq<StoredFile>)
    requires n <= |fs| && |names| == |fs|
    ensures |r| == n
    ensures forall i | 0 <= i < n :: r[i] == Stored(fs[i], names[i])
  {
    seq(n, i requires 0 <= i < n => Stored(fs[i], names[i]))
  }

  /** The writes of the first `n` files, in input order. */
  function Writes(names: seq<string>, n: nat): (r: seq<Effect>)
    requires n <= |names|
    ensures |r| == n
    ensures forall i | 0 <= i < n :: r[i] == WriteFile(names[i])
  {
    seq(n, i requires 0 <= i < n => WriteFile(names[i]))
  }

  /** The position of the first file that is refused or whose write throws,
      searching from `from`; `|fs|` when there is none. */
  function FirstStop(fs: seq<UploadFile>, names: seq<string>, write: string -> Outcome<()>, from: nat): (k: nat)
    requires from <= |fs| == |names|
    ensures from <= k <= |fs|
    ensures forall j | from <= j < k :: Rejection(fs[j]).None? && write(names[j]).Returned?
    ensures k < |fs| ==> Rejection(fs[k]).Some? || write(names[k]).Threw?
    decreases |fs| - from
  {
    if from == |fs| then from
    else if Rejection(fs[from]).Some? || write(names[from]).Threw? then from
    else FirstStop(fs, names, write, from + 1)
  }

  lemma WritesSnoc(names: seq<string>, n: nat)
    requires n < |names|
    ensures Writes(names, n + 1) == Writes(names, n) + [WriteFile(names[n])]
  {
  }

  lemma StoredListSnoc(fs: seq<UploadFile>, names: seq<string>, n: nat)
    requires n < |fs| == |names|
    ensures StoredList(fs, names, n + 1) == StoredList(fs, names, n) + [Stored(fs[n], names[n])]
  {
  }

  /** How a run over a non-empty file list ends, given where it stopped. */
  predicate EndsAs(fs: seq<UploadFile>, names: seq<string>, stop: nat, response: Response<UploadBody>, writes: seq<Effect>)
    requires stop <= |fs| == |names|
  {
    && (stop == |fs| ==>
          response == Response(200, Uploaded(SuccessMessage, StoredList(fs, names, |fs|)))
          && writes == Writes(names, |fs|))
    && (stop < |fs| && Rejection(fs[stop]).Some? ==>
          response == Response(400, UploadError(Rejection(fs[stop]).value))
          && writes == Writes(names, stop))
    && (stop < |fs| && Rejection(fs[stop]).None? ==>
          response == Response(500, UploadError(FailedMessage))
          && writes == Writes(names, stop + 1))
  }

  /** The `for` loop of `POST`: each file in turn is checked (type, then
      size) and written. The first refused file answers 400 with its reason,
      the files before it having been written; a failing write answers 500;
      otherwise every file is listed, in input order. */
  method StoreFiles(fs: seq<UploadFile>, stamp: nat -> Stamp, write: string -> Outcome<()>)
    returns (response: Response<UploadBody>, writes: seq<Effect>)
    ensures var names := Names(fs, stamp);
      EndsAs(fs, names, FirstStop(fs, names, write, 0), response, writes)
  {
    ghost var names := Names(fs, stamp);
    writes := [];
    var uploaded: seq<StoredFile> := [];
    var i := 0;
    while i < |fs|
      invariant i <= |fs|
      invariant FirstStop(fs, names, write, 0) == FirstStop(fs, names, write, i)
      invariant uploaded == StoredList(fs, names, i)
      invariant writes == Writes(names, i)
    {
      var rejection := Rejection(fs[i]);
      if rejection.Some? {
        return Response(400, UploadError(rejection.value)), writes;
      }
      var filename := FileName(stamp(i), fs[i].name);
      assert filename == names[i];
      WritesSnoc(names, i);
      writes := writes + [WriteFile(filename)];
      if write(filename).Threw? {
        return Response(500, UploadError(FailedMessage)), writes;
      }
      StoredListSnoc(fs, names, i);
      uploaded := uploaded + [Stored(fs[i], filename)];
      i := i + 1;
    }
    response := Response(200, Uploaded(SuccessMessage, uploaded));
  }

  /** `POST`: a form that cannot be read, or a directory that cannot be
      created, answers 500; no files answers 400; otherwise the files are
      stored as `StoreFiles` describes, after creating the directory when it
      is missing. */
  method Post(files: Outcome<seq<UploadFile>>, dirExists: bool, makeDir: Outcome<()>,
              stamp: nat -> Stamp, write: string -> Outcome<()>)
    returns (response: Response<UploadBody>, effects: seq<Effect>)
    ensures files.Threw? ==> response == Response(500, UploadError(FailedMessage)) && effects == []
    ensures files.Returned? && files.value == [] ==>
      response == Response(400, UploadError(NoFilesMessage)) && effects == []
    ensures files.Returned? && files.value != [] && !dirExists && makeDir.Threw? ==>
      response == Response(500, UploadError(FailedMessage)) && effects == [MakeUploadDir]
    ensures files.Returned? && files.value != [] && (dirExists || makeDir.Returned?) ==>
      var setup := if dirExists then [] else [MakeUploadDir];
      var names := Names(files.value, stamp);
      && |effects| >= |setup| && effects[..|setup|] == setup
      && EndsAs(files.value, names, FirstStop(files.value, names, write, 0), response, effects[|setup|..])
  {
    if files.Threw? {
      return Response(500, UploadError(FailedMessage)), [];
    }
    if |files.value| == 0 {
      return Response(400, UploadError(NoFilesMessage)), [];
    }
    var setup := [];
    if !dirExists {
      setup := [MakeUploadDir];
      if makeDir.Threw? {
        return Response(500, UploadError(FailedMessage)), setup;
      }
    }
    var writes;
    response, writes := StoreFiles(files.value, stamp, write);
    effects := setup + writes;
    assert effects[|setup|..] == writes;
  }

  /** A refused file stops the request: no file after it is written, and
      every file before it was. */
  lemma RefusalStopsProcessing(fs: seq<UploadFile>, names: seq<string>, write: string -> Outcome<()>,
                               response: Response<UploadBody>, writes: seq<Effect>)
    requires |names| == |fs|
    requires EndsAs(fs, names, FirstStop(fs, names, write, 0), response, writes)
    requires response.status == 400
    ensures var k := FirstStop(fs, names, write, 0);
      && k < |fs| && Rejection(fs[k]).Some? && |writes| == k
      && forall j | 0 <= j < k :: Rejection(fs[j]).None? && writes[j] == WriteFile(names[j])
  {
  }

  /** When every file goes through, the answer lists them all in input order,
      each with its url under /uploads/. */
  lemma SuccessListsAllInOrder(fs: seq<UploadFile>, names: seq<string>, write: string -> Outcome<()>,
                               response: Response<UploadBody>, writes: seq<Effect>)
    requires |names| == |fs|
    requires EndsAs(fs, names, FirstStop(fs, names, write, 0), response, writes)
    requires response.status == 200
    ensures response.body.Uploaded? && |response.body.files| == |fs| == |writes|
    ensures forall i | 0 <= i < |fs| ::
      && Rejection(fs[i]).None?
      && response.body.files[i].originalName == fs[i].name
      && response.body.files[i].url == "/uploads/" + response.body.files[i].filename
      && writes[i] == WriteFile(response.body.files[i].filename)
  {
  }

  /** The list `GET` advertises, written out separately in the handler. */
  const AdvertisedTypes: seq<string> := [
    "image/jpeg", "image/jpg", "image/png", "image/gif", "image/webp",
    "video/mp4", "video/avi", "video/mov", "video/wmv", "video/flv", "video/webm"]

  /** `GET`: a status message, the supported types and the size limit. */
  function Get(): (r: Response<UploadBody>)
    ensures r.status == 200 && r.body.Advertised?
    ensures forall t :: t in r.body.supportedTypes <==> t in AllowedTypes
    ensures r.body.maxFileSize == "50MB"
  {
    Response(200, Advertised("Upload endpoint is working", AdvertisedTypes, "50MB"))
  }

  /** What `GET` advertises is exactly what `POST` accepts: a file of an
      advertised type within the advertised size is never refused. */
  lemma AdvertisedIsAccepted(f: UploadFile)
    requires f.fileType in Get().body.supportedTypes && f.size <= 50 * 1024 * 1024
    ensures Rejection(f).None?
  {
  }
}
