/** app/api/upload/route.ts: the POST handler that checks an uploaded file and stores it.
    The clock reading that names the file and the upload time stamp are parameters. */
module UploadRoute {
  import opened Wrappers
  import opened Buffers
  import opened Strings
  import opened FileStorage

  const ACCEPTED_TYPES :=
    ["image/jpeg", "image/png", "video/mp4", "video/quicktime", "audio/mpeg", "audio/wav", "audio/mp4"]

  /** 50 MiB, the limit for videos and anything that is neither an image nor audio. */
  const MAX_FILE_SIZE := 52428800
  /** 10 MiB. */
  const MAX_IMAGE_SIZE := 10485760
  /** 25 MiB. */
  const MAX_AUDIO_SIZE := 26214400

  const NO_FILE := "No file provided"
  const UNSUPPORTED_TYPE := "Unsupported file type. Please upload JPG, PNG, MP4, MOV, MP3, WAV, or M4A files."
  const UPLOAD_OK := "File uploaded successfully"
  const UPLOAD_FAILED := "Failed to process file upload"

  /** A file sent in the form: its name, MIME type and bytes (its size is their count). */
  datatype UploadedFile = UploadedFile(name: string, fileType: string, content: Buffer)

  /** What `formData.get("file")` gives: no such field, a plain text field, or a file. */
  datatype FormField = NoField | TextField(value: string) | FileField(file: UploadedFile)

  datatype UploadResponse =
    | Rejected(status: nat, error: string)
    | Uploaded(fileId: string, metadata: Metadata, message: string)

  /** The size limit chosen by the MIME type's prefix. */
  function MaxSizeFor(fileType: string): nat {
    if StartsWith(fileType, "image/") then MAX_IMAGE_SIZE
    else if StartsWith(fileType, "audio/") then MAX_AUDIO_SIZE
    else MAX_FILE_SIZE
  }

  /** The 413 message: the limit in whole MiB and the part of the type before the first '/'. */
  function SizeLimitMessage(fileType: string): string {
    "File size exceeds " + NatToString(MaxSizeFor(fileType) / MiB) + " MB limit for "
    + Split(fileType, '/')[0] + " files"
  }

  /** What POST answers at `timestamp` for the form's `file` field (None when the body cannot
      be read as a form). Reading a text field's `type` gives undefined, so calling
      `startsWith` on it throws and the handler answers 500, as for an unreadable form. */
  function UploadOutcome(form: Option<FormField>, timestamp: nat, uploadedAt: string): UploadResponse {
    if form.None? then Rejected(500, UPLOAD_FAILED)
    else if form.value.NoField? || form.value == TextField("") then Rejected(400, NO_FILE)
    else if form.value.TextField? then Rejected(500, UPLOAD_FAILED)
    else
      var f := form.value.file;
      if |f.content| > MaxSizeFor(f.fileType) then Rejected(413, SizeLimitMessage(f.fileType))
      else if f.fileType !in ACCEPTED_TYPES then Rejected(400, UNSUPPORTED_TYPE)
      else
        var fileId := NatToString(timestamp);
        Uploaded(fileId, Metadata(f.name, fileId + "-" + f.name, |f.content|, f.fileType, uploadedAt), UPLOAD_OK)
  }

  /** `POST(request)`: the checks in order, then the file stored under its id. */
  method Post(store: FileStore, form: Option<FormField>, timestamp: nat, uploadedAt: string)
    returns (response: UploadResponse)
    requires store.Valid()
    modifies store
    ensures store.Valid()
    ensures response == UploadOutcome(form, timestamp, uploadedAt)
    ensures response.Uploaded? ==>
              form.Some? && form.value.FileField?
              && store.files == old(store.files)[response.fileId := StoredFile(form.value.file.content, response.metadata)]
              && store.timers == old(store.timers)[response.fileId := timestamp + CLEANUP_DELAY]
    ensures response.Rejected? ==> store.files == old(store.files) && store.timers == old(store.timers)
  {
    if form.None? {
      return Rejected(500, UPLOAD_FAILED);
    }
    var field := form.value;
    if field.NoField? || field == TextField("") {
      return Rejected(400, NO_FILE);
    }
    if field.TextField? {
      return Rejected(500, UPLOAD_FAILED);
    }
    var f := field.file;
    var maxSize := MAX_FILE_SIZE;
    if StartsWith(f.fileType, "image/") {
      maxSize := MAX_IMAGE_SIZE;
    } else if StartsWith(f.fileType, "audio/") {
      maxSize := MAX_AUDIO_SIZE;
    }
    if |f.content| > maxSize {
      return Rejected(413, SizeLimitMessage(f.fileType));
    }
    if f.fileType !in ACCEPTED_TYPES {
      return Rejected(400, UNSUPPORTED_TYPE);
    }
    var fileId := NatToString(timestamp);
    var metadata := Metadata(f.name, fileId + "-" + f.name, |f.content|, f.fileType, uploadedAt);
    store.StoreFile(fileId, f.content, metadata, timestamp);
    return Uploaded(fileId, metadata, UPLOAD_OK);
  }

  /** A form is accepted exactly when its field is a file within its limit and of an
      accepted type; the limit is inclusive, and the size is checked before the type, so an
      oversized file of an unsupported type is refused with 413. No field or an empty text
      field gives 400, an unreadable form or a non-empty text field 500. */
  lemma UploadAcceptedIff(form: Option<FormField>, timestamp: nat, uploadedAt: string)
    ensures UploadOutcome(form, timestamp, uploadedAt).Uploaded? <==>
              form.Some? && form.value.FileField?
              && |form.value.file.content| <= MaxSizeFor(form.value.file.fileType)
              && form.value.file.fileType in ACCEPTED_TYPES
    ensures form.None? ==> UploadOutcome(form, timestamp, uploadedAt) == Rejected(500, UPLOAD_FAILED)
    ensures form == Some(NoField) || form == Some(TextField("")) ==>
              UploadOutcome(form, timestamp, uploadedAt) == Rejected(400, NO_FILE)
    ensures form.Some? && form.value.TextField? && form.value.value != "" ==>
              UploadOutcome(form, timestamp, uploadedAt) == Rejected(500, UPLOAD_FAILED)
    ensures form.Some? && form.value.FileField? && |form.value.file.content| > MaxSizeFor(form.value.file.fileType) ==>
              UploadOutcome(form, timestamp, uploadedAt).status == 413
    ensures form.Some? && form.value.FileField? && |form.value.file.content| <= MaxSizeFor(form.value.file.fileType)
            && form.value.file.fileType !in ACCEPTED_TYPES ==>
              UploadOutcome(form, timestamp, uploadedAt) == Rejected(400, UNSUPPORTED_TYPE)
  {
  }

  /** The limits by family: 10 MiB for images, 25 MiB for audio, 50 MiB for video and
      anything else. */
  lemma SizeLimits(fileType: string)
    ensures StartsWith(fileType, "image/") ==> MaxSizeFor(fileType) == 10 * MiB
    ensures StartsWith(fileType, "audio/") ==> MaxSizeFor(fileType) == 25 * MiB
    ensures !StartsWith(fileType, "image/") && !StartsWith(fileType, "audio/") ==> MaxSizeFor(fileType) == 50 * MiB
  {
    assert StartsWith(fileType, "audio/") ==> fileType[..6][0] == 'a';
  }

  /** A successful upload echoes the file's name, size and type, names it by the decimal
      time stamp, and prefixes the stored file name with that id and a dash. */
  lemma UploadMetadata(f: UploadedFile, timestamp: nat, uploadedAt: string)
    requires UploadOutcome(Some(FileField(f)), timestamp, uploadedAt).Uploaded?
    ensures var r := UploadOutcome(Some(FileField(f)), timestamp, uploadedAt);
            r.fileId == NatToString(timestamp)
            && r.metadata.originalName == f.name && r.metadata.size == |f.content|
            && r.metadata.fileType == f.fileType && r.metadata.uploadedAt == uploadedAt
            && StartsWith(r.metadata.filename, r.fileId + "-") && EndsWith(r.metadata.filename, f.name)
  {
    var r := UploadOutcome(Some(FileField(f)), timestamp, uploadedAt);
    var pre := r.fileId + "-";
    assert r.metadata.filename == pre + f.name;
    assert (pre + f.name)[..|pre|] == pre;
    assert (pre + f.name)[|pre + f.name| - |f.name|..] == f.name;
  }

  /** The id can be read back from the stored file name: it is everything before the
      first dash, because the decimal digits of the id contain none. */
  lemma FileIdFromFilename(fileId: string, name: string, timestamp: nat)
    requires fileId == NatToString(timestamp)
    ensures Split(fileId + "-" + name, '-')[0] == fileId
  {
    var s := fileId + "-" + name;
    NatToStringDigits(timestamp);
    assert s[|fileId|] == '-';
    assert forall j :: 0 <= j < |fileId| ==> s[j] == fileId[j] && s[j] != '-';
    assert IndexOf(s, '-') == Some(|fileId|) by {
      match IndexOf(s, '-')
      case None =>
      case Some(i) =>
    }
    assert s[..|fileId|] == fileId;
  }

  /** Uploads at different times get different ids, so one does not replace the other. */
  lemma DistinctTimestampsDistinctIds(t1: nat, t2: nat, f1: UploadedFile, f2: UploadedFile, at1: string, at2: string)
    requires t1 != t2
    requires UploadOutcome(Some(FileField(f1)), t1, at1).Uploaded? && UploadOutcome(Some(FileField(f2)), t2, at2).Uploaded?
    ensures UploadOutcome(Some(FileField(f1)), t1, at1).fileId != UploadOutcome(Some(FileField(f2)), t2, at2).fileId
  {
    if NatToString(t1) == NatToString(t2) {
      NatToStringInjective(t1, t2);
    }
  }
}
