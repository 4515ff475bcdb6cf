/** The dataset upload card (`UploadPanel`): the chosen file and the status
    line, changed by choosing a file, uploading it and clearing it. The value
    handed to the `onUpload` callback is returned by the method that would
    call it. */
module UploadPanel {
  import opened Wrappers
  import opened Text
  import opened JsValues
  import opened Http

  /** A browser `File`; only its name matters to the server. */
  datatype FileRef = FileRef(name: string)

  const NoFileStatus := "Please choose a file first."
  const UploadingStatus := "uploading"
  const SuccessStatus := "Upload successful."
  const NoPathStatus := "Upload succeeded (no path returned)."
  const FailedPrefix := "Upload failed: "
  const NonJsonPrefix := "Upload response (non-json): "

  /** Where an upload ends: the status it shows and the argument of the
      `onUpload` call it makes, if it makes one. */
  datatype Settled = Settled(status: string, notify: Option<JsValue>)

  /** The exception `upload` catches, if any: one thrown by `fetch`, by
      `resp.json()` or by reading `path` of a `null` body. */
  function Raised(ex: Exchange): Option<JsError> {
    match ex
    case Threw(e) => Some(e)
    case Responded(r) =>
      if IsOk(r) && DeclaresJson(r) then
        match r.json
        case Err(e) => Some(e)
        case Ok(j) => if j == Null then Some(NullPropertyError("path")) else None
      else None
  }

  /** The settled part of `upload` once a request was sent. */
  function UploadOutcome(ex: Exchange): (o: Settled)
    ensures Raised(ex).Some? ==> o == Settled(Describe(Raised(ex).value), None)
    ensures ex.Responded? && !IsOk(ex.resp) ==> o == Settled(FailedPrefix + ex.resp.text, None)
    ensures ex.Responded? && IsOk(ex.resp) && !DeclaresJson(ex.resp) ==>
      o.notify == None && IsPreview(o.status, NonJsonPrefix, ex.resp.text, 200)
    ensures o.notify.Some? <==>
      Raised(ex).None? && ex.Responded? && IsOk(ex.resp) && DeclaresJson(ex.resp)
      && Truthy(Get(ex.resp.json.value, "path"))
    ensures o.notify.Some? ==> o.notify.value == Get(ex.resp.json.value, "path") && o.status == SuccessStatus
    ensures o.notify.Some? ==> Truthy(o.notify.value)
  {
    match ex
    case Threw(e) => Settled(Describe(e), None)
    case Responded(r) =>
      if !IsOk(r) then Settled(FailedPrefix + r.text, None)
      else if DeclaresJson(r) then
        match r.json
        case Err(e) => Settled(Describe(e), None)
        case Ok(j) =>
          match ReadProperty(j, "path")
          case Err(e) => Settled(Describe(e), None)
          case Ok(p) => if Truthy(p) then Settled(SuccessStatus, Some(p)) else Settled(NoPathStatus, None)
      else Settled(NonJsonPrefix + Take(r.text, 200), None)
  }

  /** A JSON reply without a truthy `path` is reported without calling back. */
  lemma NoPathReported(r: HttpResponse, j: Json)
    requires IsOk(r) && DeclaresJson(r) && r.json == Ok(j) && j != Null && !Truthy(Get(j, "path"))
    ensures UploadOutcome(Responded(r)) == Settled(NoPathStatus, None)
  {
  }

  /** The status line's colour: green exactly for messages starting with
      "Upload successful". */
  predicate SuccessStyled(status: string) {
    StartsWith(status, "Upload successful") || status == "Upload successful."
  }

  /** The status line is shown for every status except "" and "uploading". */
  predicate ShowsStatus(status: string) {
    status != "" && status != UploadingStatus
  }

  /** Unless an exception's own message is displayed, the status is styled as
      a success exactly when `onUpload` received a path; in particular the
      "no path returned" message is styled as an error. */
  lemma SuccessStyleMeansPath(ex: Exchange)
    requires Raised(ex).None?
    ensures SuccessStyled(UploadOutcome(ex).status) <==> UploadOutcome(ex).notify.Some?
    ensures ShowsStatus(UploadOutcome(ex).status)
  {
    var o := UploadOutcome(ex);
    var p := "Upload successful";
    if o.notify.None? {
      var r := ex.resp;
      if !IsOk(r) {
        DiffersAt(o.status, p, 7);
      } else if !DeclaresJson(r) {
        DiffersAt(o.status, p, 7);
      } else {
        DiffersAt(o.status, p, 14);
      }
    }
  }

  lemma DiffersAt(s: string, p: string, i: nat)
    requires i < |p| && i < |s| && s[i] != p[i]
    ensures !StartsWith(s, p)
  {
  }

  class Uploader {
    var file: Option<FileRef>
    var status: string

    constructor ()
      ensures file == None && status == ""
    {
      file, status := None, "";
    }

    /** The file input's change event: `files[0]`, `undefined` (no file)
        when the selection is empty, and the status is reset. */
    method HandleFile(files: seq<FileRef>)
      modifies this
      ensures file == (if |files| > 0 then Some(files[0]) else None)
      ensures status == ""
    {
      if |files| > 0 {
        file := Some(files[0]);
      } else {
        file := None;
      }
      status := "";
    }

    /** The synchronous part of `upload`: without a file it reports that and
        sends nothing; with one it shows "uploading" and sends it. */
    method BeginUpload() returns (sent: Option<FileRef>)
      modifies this
      ensures sent == old(file) && file == old(file)
      ensures status == if old(file).None? then NoFileStatus else UploadingStatus
    {
      if file.None? {
        status := NoFileStatus;
        sent := None;
      } else {
        status := UploadingStatus;
        sent := file;
      }
    }

    /** The rest of `upload` once the request has settled. */
    method FinishUpload(ex: Exchange) returns (notify: Option<JsValue>)
      modifies this
      ensures status == UploadOutcome(ex).status && notify == UploadOutcome(ex).notify
      ensures file == old(file)
    {
      var o := UploadOutcome(ex);
      status := o.status;
      notify := o.notify;
    }

    /** The Upload button; `server` stands for the upload endpoint answering
        the posted file. `onUpload` is called at most once, and only with a
        truthy path. */
    method Upload(server: FileRef -> Exchange) returns (sent: Option<FileRef>, notify: Option<JsValue>)
      modifies this
      ensures sent == old(file) && file == old(file)
      ensures sent.None? ==> status == NoFileStatus && notify == None
      ensures sent.Some? ==>
        status == UploadOutcome(server(sent.value)).status
        && notify == UploadOutcome(server(sent.value)).notify
      ensures notify.Some? ==> Truthy(notify.value) && status == SuccessStatus
    {
      sent := BeginUpload();
      notify := None;
      if sent.Some? {
        notify := FinishUpload(server(sent.value));
      }
    }

    /** The Clear button: forget the file, blank the status and call
        `onUpload(null)`. */
    method Clear() returns (notify: Option<JsValue>)
      modifies this
      ensures file == None && status == "" && notify == Some(Null)
    {
      file := None;
      status := "";
      notify := Some(Null);
    }
  }
}
