/** The upload dialog: pick files, add notes, submit the first file after
    checking its size and type, report the outcome with an alert. */
module UploadModal {
  import opened Wrappers
  import opened Text
  import Media
  import Api

  const MaxFileBytes: nat := 10 * 1024 * 1024
  const UploadPath: string := "/images/upload"
  const UploadTimeoutMs: int := 60000
  const ImagePrefix: string := "image/"

  const NoFileAlert: string := "Please select at least one file"
  const TooLargeAlert: string := "File size must be less than 10MB"
  const NotImageAlert: string := "Please select a valid image file"
  const SuccessAlert: string := "Image uploaded successfully!"
  const DefaultError: string := "Image upload failed. Please try again."
  const TimeoutError: string := "Upload timeout. Please try with a smaller file or check your connection."
  const NetworkError: string := "Network error. Please check your internet connection."
  const TimeoutCode: string := "ECONNABORTED"
  const NetworkCode: string := "NETWORK_ERROR"

  /** The outcome of the checks `handleSubmit` makes before uploading. */
  datatype Verdict = NoFile | TooLarge | NotAnImage | Accepted(file: Media.File)

  /** The checks, in the source's order: a file at all, then its size (ten
      MiB still passes), then its type. Only the first file is looked at. */
  function Validate(files: seq<Media.File>): (v: Verdict)
    ensures v == NoFile <==> files == []
    ensures v == TooLarge <==> files != [] && files[0].Size() > MaxFileBytes
    ensures v == NotAnImage <==>
      files != [] && files[0].Size() <= MaxFileBytes && !StartsWith(files[0].mime, ImagePrefix)
    ensures v.Accepted? <==>
      files != [] && files[0].Size() <= MaxFileBytes && StartsWith(files[0].mime, ImagePrefix)
    ensures v.Accepted? ==> v.file == files[0]
  {
    if |files| == 0 then NoFile
    else
      var file := files[0];
      if file.Size() > MaxFileBytes then TooLarge
      else if file.mime == "" || !StartsWith(file.mime, ImagePrefix) then NotAnImage
      else Accepted(file)
  }

  /** Files after the first never change the verdict. */
  lemma OnlyFirstFileChecked(a: seq<Media.File>, b: seq<Media.File>)
    requires a != [] && b != [] && a[0] == b[0]
    ensures Validate(a) == Validate(b)
  {
  }

  /** The alert for a file that does not pass: one text per failed check, and
      none for a file that passes. */
  function RejectionAlert(v: Verdict): (r: string)
    ensures r == "" <==> v.Accepted?
    ensures r == NoFileAlert <==> v == NoFile
    ensures r == TooLargeAlert <==> v == TooLarge
    ensures r == NotImageAlert <==> v == NotAnImage
  {
    match v
    case NoFile => NoFileAlert
    case TooLarge => TooLargeAlert
    case NotAnImage => NotImageAlert
    case Accepted(_) => ""
  }

  /** The form posted: the file under `image` with its own name, and the
      trimmed notes under `documentation` only when they hold something other
      than whitespace. */
  function UploadForm(file: Media.File, documentation: string): (form: Media.FormData)
    ensures 1 <= |form| <= 2 && form[0] == ("image", Media.FileField(file, file.name))
    ensures |form| == 2 <==> exists k :: 0 <= k < |documentation| && !IsSpace(documentation[k])
    ensures |form| == 2 ==>
      && form[1] == ("documentation", Media.TextField(Trim(documentation)))
      && Trim(documentation) != "" && !IsSpace(Trim(documentation)[0])
  {
    [("image", Media.FileField(file, file.name))]
      + (if documentation != "" && Trim(documentation) != "" then [("documentation", Media.TextField(Trim(documentation)))] else [])
  }

  /** The alert for a failed upload: the server's message, else the timeout
      text for `ECONNABORTED`, else the network text for `NETWORK_ERROR`, else
      the default. */
  function UploadErrorMessage(e: Api.HttpError): (m: string)
    ensures m != ""
    ensures Truthy(Api.ServerMessage(e)) ==> m == Api.ServerMessage(e).value
    ensures !Truthy(Api.ServerMessage(e)) && e.code == Some(TimeoutCode) ==> m == TimeoutError
    ensures !Truthy(Api.ServerMessage(e)) && e.code == Some(NetworkCode) ==> m == NetworkError
    ensures !Truthy(Api.ServerMessage(e)) && e.code != Some(TimeoutCode) && e.code != Some(NetworkCode) ==> m == DefaultError
  {
    var c := [
      Api.ServerMessage(e),
      if e.code == Some(TimeoutCode) then Some(TimeoutError) else None,
      if e.code == Some(NetworkCode) then Some(NetworkError) else None];
    assert !Truthy(c[0]) ==> FirstTruthy(c, DefaultError) == FirstTruthy(c[1..], DefaultError);
    assert !Truthy(c[0]) && !Truthy(c[1]) ==> FirstTruthy(c[1..], DefaultError) == FirstTruthy(c[2..], DefaultError);
    FirstTruthy(c, DefaultError)
  }

  /** What the dialog does outside its own state, in order: alerts, the
      upload request, and the parent's two callbacks. */
  datatype Effect =
    | Alert(text: string)
    | Post(path: string, form: Media.FormData, timeoutMs: int)
    | UploadCompleted
    | Closed

  class Dialog {
    /** Whether the parent passed `onUploadComplete`. */
    const notifiesCompletion: bool
    var files: seq<Media.File>
    var documentation: string
    var uploading: bool
    var effects: seq<Effect>

    constructor (notifiesCompletion: bool)
      ensures this.notifiesCompletion == notifiesCompletion
      ensures files == [] && documentation == "" && !uploading && effects == []
    {
      this.notifiesCompletion := notifiesCompletion;
      files := [];
      documentation := "";
      uploading := false;
      effects := [];
    }

    /** `handleFileChange`: the chosen files replace the selection. */
    method SelectFiles(chosen: seq<Media.File>)
      modifies this
      ensures files == chosen
      ensures documentation == old(documentation) && uploading == old(uploading) && effects == old(effects)
    {
      files := chosen;
    }

    /** Typing in the notes box. */
    method EditDocumentation(text: string)
      modifies this
      ensures documentation == text
      ensures files == old(files) && uploading == old(uploading) && effects == old(effects)
    {
      documentation := text;
    }

    /** `handleSubmit` up to the upload request it awaits. A selection that
        fails a check gets its alert and nothing else: `uploading` is not
        set. One that passes sets `uploading` and posts the first file with
        the trimmed notes, with a 60-second timeout. */
    method Submit() returns (started: bool)
      modifies this
      ensures started <==> Validate(old(files)).Accepted?
      ensures files == old(files) && documentation == old(documentation)
      ensures !started ==>
        uploading == old(uploading) && effects == old(effects) + [Alert(RejectionAlert(Validate(old(files))))]
      ensures started ==>
        uploading && effects == old(effects) + [Post(UploadPath, UploadForm(files[0], documentation), UploadTimeoutMs)]
    {
      var verdict := Validate(files);
      if !verdict.Accepted? {
        effects := effects + [Alert(RejectionAlert(verdict))];
        return false;
      }
      uploading := true;
      var form := UploadForm(verdict.file, documentation);
      effects := effects + [Post(UploadPath, form, UploadTimeoutMs)];
      started := true;
    }

    /** The rest of `handleSubmit` once the upload settles. Success clears the
        selection and the notes, then calls `onUploadComplete` (when given)
        before `onClose`, then alerts; failure alerts its message and keeps
        the form. `uploading` is false afterwards either way. */
    method Settle(reply: Api.Settled<()>)
      modifies this
      ensures !uploading
      ensures reply.Resolved? ==>
        && files == [] && documentation == ""
        && effects == old(effects) + (if notifiesCompletion then [UploadCompleted] else []) + [Closed, Alert(SuccessAlert)]
      ensures reply.Rejected? ==>
        && files == old(files) && documentation == old(documentation)
        && effects == old(effects) + [Alert(UploadErrorMessage(reply.error))]
    {
      match reply {
        case Resolved(_) =>
          files := [];
          documentation := "";
          if notifiesCompletion {
            effects := effects + [UploadCompleted];
          }
          effects := effects + [Closed];
          effects := effects + [Alert(SuccessAlert)];
        case Rejected(e) =>
          effects := effects + [Alert(UploadErrorMessage(e))];
      }
      uploading := false;
    }

    /** `handleClose`: ignored while an upload is running; otherwise it clears
        the form and calls `onClose`. */
    method HandleClose()
      modifies this
      ensures uploading == old(uploading)
      ensures old(uploading) ==>
        files == old(files) && documentation == old(documentation) && effects == old(effects)
      ensures !old(uploading) ==>
        files == [] && documentation == "" && effects == old(effects) + [Closed]
    {
      if !uploading {
        files := [];
        documentation := "";
        effects := effects + [Closed];
      }
    }
  }
}
