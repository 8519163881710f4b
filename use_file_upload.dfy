/** `useFileUpload`: screening a selected file by type and then by size, and
    the selected file with its preview URL. */
module UseFileUpload {
  import opened Js
  import opened AlertContext
  import opened Validation

  const UnsupportedType := "Unsupported file type"

  datatype Screening = TypeRejected | SizeRejected | Accepted

  /** The checks of `handleFileSelect` in their order: the type check only when
      the hook was given allowed types, then the size check against `MAX_FILE_SIZE`. */
  function Screen(allowedTypes: Option<seq<string>>, f: File): (r: Screening)
    ensures r == TypeRejected <==> allowedTypes.Some? && !ValidateFileType(f, allowedTypes.value)
    ensures r == Accepted <==>
      (allowedTypes.Some? ==> ValidateFileType(f, allowedTypes.value)) && ValidateFileSize(f, MaxFileSize as real)
  {
    if allowedTypes.Some? && !ValidateFileType(f, allowedTypes.value) then TypeRejected
    else if !ValidateFileSize(f, MaxFileSize as real) then SizeRejected
    else Accepted
  }

  /** A file of a type that is not allowed is reported as such even when it is also too large,
      and without allowed types no file is rejected for its type. */
  lemma TypeCheckedFirst(allowedTypes: Option<seq<string>>, f: File)
    ensures allowedTypes.Some? && f.mimeType !in allowedTypes.value ==> Screen(allowedTypes, f) == TypeRejected
    ensures allowedTypes.None? ==> Screen(allowedTypes, f) != TypeRejected
    ensures allowedTypes == Some([]) ==> Screen(allowedTypes, f) == TypeRejected
  {
  }

  /** The error shown for a rejected file. */
  function ScreeningMessage(s: Screening): string
  {
    if s == TypeRejected then UnsupportedType else TooLargeMessage()
  }

  /** `type.startsWith('image/') || … 'video/' || … 'audio/'`. */
  predicate HasPreview(mimeType: string)
  {
    "image/" <= mimeType || "video/" <= mimeType || "audio/" <= mimeType
  }

  class FileUpload {
    const alerts: AlertCenter
    const allowedTypes: Option<seq<string>>
    var file: Option<File>
    var previewUrl: Option<string>

    /** An object URL is never the empty string. */
    ghost predicate Valid()
      reads this, alerts
    {
      alerts.Valid() && previewUrl != Some("")
    }

    constructor (alerts: AlertCenter, allowedTypes: Option<seq<string>>)
      requires alerts.Valid()
      ensures Valid()
      ensures this.alerts == alerts && this.allowedTypes == allowedTypes
      ensures file == None && previewUrl == None
    {
      this.alerts := alerts;
      this.allowedTypes := allowedTypes;
      file := None;
      previewUrl := None;
    }

    /** `handleFileSelect(selected)`, with the alert id as `id` and the result
        of `URL.createObjectURL` as `url`. A rejected file leaves both fields
        and shows one error; an accepted one becomes the file, and replaces
        the preview only when it is an image, a video or audio. */
    method HandleFileSelect(selected: File, id: string, url: string) returns (accepted: bool)
      requires Valid() && url != ""
      modifies this, alerts
      ensures Valid()
      ensures accepted <==> Screen(allowedTypes, selected) == Accepted
      ensures !accepted ==>
        && file == old(file) && previewUrl == old(previewUrl)
        && alerts.alerts == old(alerts.alerts) + [Alert(id, Error, ScreeningMessage(Screen(allowedTypes, selected)))]
        && alerts.timers == old(alerts.timers) + multiset{id}
      ensures accepted ==>
        && file == Some(selected)
        && previewUrl == (if HasPreview(selected.mimeType) then Some(url) else old(previewUrl))
        && alerts.alerts == old(alerts.alerts) && alerts.timers == old(alerts.timers)
    {
      if allowedTypes.Some? && !ValidateFileType(selected, allowedTypes.value) {
        alerts.ShowAlert(id, Error, UnsupportedType);
        return false;
      }
      if !ValidateFileSize(selected, MaxFileSize as real) {
        alerts.ShowAlert(id, Error, TooLargeMessage());
        return false;
      }
      file := Some(selected);
      if "image/" <= selected.mimeType || "video/" <= selected.mimeType || "audio/" <= selected.mimeType {
        previewUrl := Some(url);
      }
      return true;
    }

    /** `clearFile()`: the preview is dropped only when it is truthy, which is
        every preview there can be, so no file and no preview remain. */
    method ClearFile()
      requires Valid()
      modifies this
      ensures Valid()
      ensures file == None && previewUrl == None
    {
      file := None;
      if previewUrl.Some? && previewUrl.value != "" {
        previewUrl := None;
      }
    }
  }
}
