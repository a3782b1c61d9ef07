/** The client-side uploader (src/components/media-upload.tsx): the file
    check it runs before sending, and the list of uploads it keeps, whose
    entries move from uploading (with simulated progress) to success or
    error. The preview, the random ids and progress steps, and the network
    answer are parameters. */
module MediaUpload {
  import opened Js
  import UploadRoute

  // ------------------------------------------------------------ the file check

  /** The client's allowlist as written: its first entry is 'images/one.png'
      where the server's list has 'image/jpeg'. */
  const AllowedTypesAsWritten: seq<string> := [
    "images/one.png", "image/jpg", "image/png", "image/gif", "image/webp",
    "video/mp4", "video/avi", "video/mov", "video/wmv", "video/flv", "video/webm"]

  /** The allowlist evidently intended: the one the server accepts. */
  const AllowedTypes: seq<string> := UploadRoute.AllowedTypes

  const MaxFileSize: nat := 50 * 1024 * 1024

  const TypeMessage :=
    "File type not supported. " + "Please upload images (JPEG, " + "PNG, GIF, WebP) or videos "
    + "(MP4, AVI, MOV, WMV, FLV, " + "WebM)."
  const SizeMessage := "File size too large. " + "Maximum size is 50MB."

  /** `validateFile` against a given allowlist: the type is checked first,
      then the size (the limit itself is allowed). */
  function ValidateAgainst(allowed: seq<string>, f: UploadRoute.UploadFile): (r: Option<string>)
    ensures r.None? <==> f.fileType in allowed && f.size <= MaxFileSize
    ensures f.fileType !in allowed ==> r == Some(TypeMessage)
    ensures f.fileType in allowed && f.size > MaxFileSize ==> r == Some(SizeMessage)
  {
    if f.fileType !in allowed then Some(TypeMessage)
    else if f.size > MaxFileSize then Some(SizeMessage)
    else None
  }

  /** `validateFile` as written. */
  function ValidateFileAsWritten(f: UploadRoute.UploadFile): (r: Option<string>)
    ensures r.None? <==> f.fileType in AllowedTypesAsWritten && f.size <= MaxFileSize
  {
    ValidateAgainst(AllowedTypesAsWritten, f)
  }

  /** As written, a small JPEG file labelled 'image/jpeg' is refused by the
      client although the server would store it. */
  lemma JpegRefusedAsWritten()
    ensures var f := UploadRoute.UploadFile("photo.jpeg", 1024, "image/jpeg");
      && ValidateFileAsWritten(f) == Some(TypeMessage)
      && UploadRoute.Rejection(f).None?
  {
    var f := UploadRoute.UploadFile("photo.jpeg", 1024, "image/jpeg");
    assert UploadRoute.AllowedTypes[0] == "image/jpeg";
    assert forall i | 0 <= i < |AllowedTypesAsWritten| :: AllowedTypesAsWritten[i] != "image/jpeg";
  }

  /** `validateFile` with the intended allowlist. */
  function ValidateFile(f: UploadRoute.UploadFile): (r: Option<string>)
    ensures r.None? <==> f.fileType in AllowedTypes && f.size <= MaxFileSize
  {
    ValidateAgainst(AllowedTypes, f)
  }

  /** With the intended list the client lets through exactly the files the
      server accepts, and refuses for the same reason (type before size). */
  lemma ClientAgreesWithServer(f: UploadRoute.UploadFile)
    ensures ValidateFile(f).None? <==> UploadRoute.Rejection(f).None?
    ensures ValidateFile(f) == Some(TypeMessage) <==> UploadRoute.Rejection(f) == Some(UploadRoute.TypeMessage(f.fileType))
  {
  }

  // ------------------------------------------------------------ the upload list

  datatype Status = Uploading | Succeeded | Failed

  /** An entry of the upload list. Progress is a percentage. */
  datatype Entry = Entry(
    id: string,
    name: string,
    size: nat,
    fileType: string,
    url: Option<string>,
    preview: Option<string>,
    status: Status,
    progress: real)

  predicate ProgressInRange(list: seq<Entry>) {
    forall i | 0 <= i < |list| :: 0.0 <= list[i].progress <= 100.0
  }

  /** The start of `uploadFile`, for a given allowlist: a refused file is
      listed as failed with no progress (and nothing is sent); an accepted one
      is listed as uploading from 0 with its preview. Either way it goes at
      the end. */
  function AddFile(allowed: seq<string>, list: seq<Entry>, id: string, f: UploadRoute.UploadFile, preview: string): (r: seq<Entry>)
    ensures |r| == |list| + 1 && r[..|list|] == list
    ensures r[|list|].id == id && r[|list|].name == f.name && r[|list|].size == f.size
    ensures r[|list|].fileType == f.fileType && r[|list|].progress == 0.0 && r[|list|].url.None?
    ensures r[|list|].status == Failed <==> ValidateAgainst(allowed, f).Some?
    ensures r[|list|].status == Uploading <==> ValidateAgainst(allowed, f).None?
    ensures r[|list|].preview.Some? <==> ValidateAgainst(allowed, f).None?
    ensures ProgressInRange(list) ==> ProgressInRange(r)
  {
    var entry :=
      if ValidateAgainst(allowed, f).Some? then Entry(id, f.name, f.size, f.fileType, None, None, Failed, 0.0)
      else Entry(id, f.name, f.size, f.fileType, None, Some(preview), Uploading, 0.0);
    assert (list + [entry])[..|list|] == list;
    list + [entry]
  }

  /** With the list as written, a small JPEG photo is listed as an error and
      never sent; with the intended list it is listed as uploading. */
  lemma JpegListedAsErrorAsWritten(list: seq<Entry>, id: string, preview: string)
    ensures var f := UploadRoute.UploadFile("photo.jpeg", 1024, "image/jpeg");
      && AddFile(AllowedTypesAsWritten, list, id, f, preview)[|list|].status == Failed
      && AddFile(AllowedTypes, list, id, f, preview)[|list|].status == Uploading
  {
    JpegRefusedAsWritten();
    var f := UploadRoute.UploadFile("photo.jpeg", 1024, "image/jpeg");
    ClientAgreesWithServer(f);
  }

  /** `prev.map(f => f.id === fileId ? change(f) : f)`. */
  function Update(list: seq<Entry>, id: string, change: Entry -> Entry): (r: seq<Entry>)
    ensures |r| == |list|
    ensures forall i | 0 <= i < |list| :: r[i] == (if list[i].id == id then change(list[i]) else list[i])
  {
    seq(|list|, i requires 0 <= i < |list| => if list[i].id == id then change(list[i]) else list[i])
  }

  /** One progress tick: `Math.min(progress + step, 100)`, the step being
      `Math.random() * 20`. */
  function Tick(list: seq<Entry>, id: string, step: real): (r: seq<Entry>)
    requires 0.0 <= step < 20.0
    ensures |r| == |list|
    ensures forall i | 0 <= i < |list| && list[i].id != id :: r[i] == list[i]
    ensures forall i | 0 <= i < |list| && list[i].id == id ::
      && r[i] == list[i].(progress := r[i].progress)
      && r[i].progress == (if list[i].progress + step < 100.0 then list[i].progress + step else 100.0)
    ensures ProgressInRange(list) ==> ProgressInRange(r)
  {
    Update(list, id, (e: Entry) => e.(progress := if e.progress + step < 100.0 then e.progress + step else 100.0))
  }

  /** A successful answer: status success, progress 100, and the url of the
      first stored file when it is a non-empty text, else the old url. */
  function Succeed(list: seq<Entry>, id: string, firstUrl: Option<string>): (r: seq<Entry>)
    ensures |r| == |list|
    ensures forall i | 0 <= i < |list| && list[i].id != id :: r[i] == list[i]
    ensures forall i | 0 <= i < |list| && list[i].id == id ::
      && r[i].status == Succeeded && r[i].progress == 100.0
      && r[i].url == (if firstUrl.Some? && firstUrl.value != "" then firstUrl else list[i].url)
      && r[i] == list[i].(status := Succeeded, progress := 100.0, url := r[i].url)
    ensures ProgressInRange(list) ==> ProgressInRange(r)
  {
    Update(list, id, (e: Entry) => e.(status := Succeeded, progress := 100.0,
                                      url := if firstUrl.Some? && firstUrl.value != "" then firstUrl else e.url))
  }

  /** A failed request or a non-OK answer: status error, progress 0. */
  function Fail(list: seq<Entry>, id: string): (r: seq<Entry>)
    ensures |r| == |list|
    ensures forall i | 0 <= i < |list| && list[i].id != id :: r[i] == list[i]
    ensures forall i | 0 <= i < |list| && list[i].id == id ::
      r[i] == list[i].(status := Failed, progress := 0.0)
    ensures ProgressInRange(list) ==> ProgressInRange(r)
  {
    Update(list, id, (e: Entry) => e.(status := Failed, progress := 0.0))
  }

  /** How many entries of the list carry the id. */
  function CountId(list: seq<Entry>, id: string): nat
  {
    if list == [] then 0
    else (if list[0].id == id then 1 else 0) + CountId(list[1..], id)
  }

  /** `removeFile`: every entry with the id goes, the rest keep their order. */
  function Remove(list: seq<Entry>, id: string): (r: seq<Entry>)
    ensures |r| == |list| - CountId(list, id)
    ensures forall e :: e in r <==> e in list && e.id != id
    ensures Subsequence(r, list)
    ensures ProgressInRange(list) ==> ProgressInRange(r)
  {
    if list == [] then []
    else if list[0].id == id then Remove(list[1..], id)
    else [list[0]] + Remove(list[1..], id)
  }

  /** Removing an id that is not listed changes nothing. */
  lemma {:induction false} RemoveAbsent(list: seq<Entry>, id: string)
    requires forall i | 0 <= i < |list| :: list[i].id != id
    ensures Remove(list, id) == list
  {
    if list != [] {
      RemoveAbsent(list[1..], id);
      assert [list[0]] + list[1..] == list;
    }
  }

  /** What can happen to the list. New files are checked against the
      intended allowlist. */
  datatype ListEvent =
    | Added(id: string, file: UploadRoute.UploadFile, preview: string)
    | Ticked(id: string, step: real)
    | Answered(id: string, firstUrl: Option<string>)
    | Errored(id: string)
    | Removed(id: string)

  /** A tick step `Math.random() * 20` can produce. */
  predicate ValidEvent(e: ListEvent) {
    e.Ticked? ==> 0.0 <= e.step < 20.0
  }

  function Apply(list: seq<Entry>, e: ListEvent): seq<Entry>
    requires ValidEvent(e)
  {
    match e
    case Added(id, f, p) => AddFile(AllowedTypes, list, id, f, p)
    case Ticked(id, step) => Tick(list, id, step)
    case Answered(id, url) => Succeed(list, id, url)
    case Errored(id) => Fail(list, id)
    case Removed(id) => Remove(list, id)
  }

  function ApplyAll(list: seq<Entry>, events: seq<ListEvent>): seq<Entry>
    requires forall i | 0 <= i < |events| :: ValidEvent(events[i])
    decreases |events|
  {
    if events == [] then list else ApplyAll(Apply(list, events[0]), events[1..])
  }

  /** Whatever happens, starting from the empty list every progress stays
      between 0 and 100. */
  lemma {:induction false} ProgressStaysInRange(list: seq<Entry>, events: seq<ListEvent>)
    requires ProgressInRange(list)
    requires forall i | 0 <= i < |events| :: ValidEvent(events[i])
    ensures ProgressInRange(ApplyAll(list, events))
    decreases |events|
  {
    if events != [] {
      ProgressStaysInRange(Apply(list, events[0]), events[1..]);
    }
  }

  /** An upload that ends well shows 100; one that fails shows 0. */
  lemma SettledProgress(list: seq<Entry>, id: string, url: Option<string>, i: nat)
    requires i < |list| && list[i].id == id
    ensures Succeed(list, id, url)[i].progress == 100.0
    ensures Fail(list, id)[i].progress == 0.0
  {
  }
}
