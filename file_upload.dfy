/** components/file-upload.tsx: the checks the upload form runs on a selected file before
    sending it, and the two state fields `handleFileSelect` sets. `formatFileSize` is a
    parameter. */
module FileUpload {
  import opened Wrappers
  import opened Strings
  import opened Buffers
  import opened ClientMedia

  /** One entry of the form's `ACCEPTED_TYPES` table: the expected extension, with its
      dot, and the size limit. */
  datatype TypeInfo = TypeInfo(ext: string, maxSize: nat)

  const MAX_IMAGE_SIZE := 10 * MiB
  const MAX_VIDEO_SIZE := 50 * MiB
  const MAX_AUDIO_SIZE := 25 * MiB

  /** The table, in its declaration order. */
  const ACCEPTED_TYPES: seq<(string, TypeInfo)> := [
    ("image/jpeg", TypeInfo(".jpg", MAX_IMAGE_SIZE)),
    ("image/png", TypeInfo(".png", MAX_IMAGE_SIZE)),
    ("video/mp4", TypeInfo(".mp4", MAX_VIDEO_SIZE)),
    ("video/quicktime", TypeInfo(".mov", MAX_VIDEO_SIZE)),
    ("audio/mpeg", TypeInfo(".mp3", MAX_AUDIO_SIZE)),
    ("audio/wav", TypeInfo(".wav", MAX_AUDIO_SIZE)),
    ("audio/mp4", TypeInfo(".m4a", MAX_AUDIO_SIZE))]

  /** The longest file name accepted. */
  const MAX_NAME_LENGTH := 255

  const EMPTY_FILE := "File appears to be empty. Please select a valid file."
  const NAME_TOO_LONG := "File name is too long. Please rename your file to be shorter than 255 characters."

  /** `ACCEPTED_TYPES[file.type]`: the entry for a MIME type, None for any other type. */
  function LookupType(table: seq<(string, TypeInfo)>, fileType: string): (info: Option<TypeInfo>)
    ensures info.Some? <==> exists i :: 0 <= i < |table| && table[i].0 == fileType
    ensures info.Some? ==> exists i :: 0 <= i < |table| && table[i] == (fileType, info.value)
  {
    if table == [] then None
    else if table[0].0 == fileType then
      assert table[0] == (fileType, table[0].1);
      Some(table[0].1)
    else
      var rest := LookupType(table[1..], fileType);
      assert forall i :: 1 <= i < |table| ==> table[i] == table[1..][i - 1];
      rest
  }

  /** `expectedExtensions`: each entry's extension without its dot, in table order. */
  function ExpectedExtensions(): (exts: seq<string>)
    ensures |exts| == |ACCEPTED_TYPES|
    ensures forall i :: 0 <= i < |exts| ==> exts[i] == ACCEPTED_TYPES[i].1.ext[1..]
    ensures forall i :: 0 <= i < |exts| ==> |exts[i]| == 3
  {
    seq(|ACCEPTED_TYPES|, i requires 0 <= i < |ACCEPTED_TYPES| => ACCEPTED_TYPES[i].1.ext[1..])
  }

  /** `file.name.toLowerCase().split(".").pop()`: the last piece after splitting at dots. */
  function Extension(name: string): string {
    var parts := Split(ToLower(name), '.');
    parts[|parts| - 1]
  }

  function UnsupportedMessage(fileType: string): string {
    "Unsupported file type: " + fileType + ". Please upload JPG, PNG, MP4, MOV, MP3, WAV, or M4A files only."
  }

  function SizeMessage(formattedSize: string, maxSize: nat, fileType: string): string {
    "File size (" + formattedSize + ") exceeds the " + NatToString(maxSize / MiB) + " MB limit for "
    + Split(fileType, '/')[0] + " files."
  }

  function ExtensionMessage(): string {
    "Invalid file extension. Please ensure your file has the correct extension: "
    + Join(ExpectedExtensions(), ", ") + "."
  }

  /** `validateFile(file)`: the message of the first check the file fails, in the order
      empty, type, size, extension, name length; None when it passes them all. */
  function ValidateFile(file: BrowserFile, formatFileSize: nat -> string): (error: Option<string>)
    ensures error.None? <==>
              file.size != 0 && LookupType(ACCEPTED_TYPES, file.fileType).Some?
              && file.size <= LookupType(ACCEPTED_TYPES, file.fileType).value.maxSize
              && Extension(file.name) in ExpectedExtensions()
              && |file.name| <= MAX_NAME_LENGTH
    ensures file.size == 0 ==> error == Some(EMPTY_FILE)
    ensures file.size != 0 && LookupType(ACCEPTED_TYPES, file.fileType).None? ==>
              error == Some(UnsupportedMessage(file.fileType))
  {
    if file.size == 0 then Some(EMPTY_FILE)
    else
      match LookupType(ACCEPTED_TYPES, file.fileType)
      case None => Some(UnsupportedMessage(file.fileType))
      case Some(info) =>
        if file.size > info.maxSize then
          Some(SizeMessage(formatFileSize(file.size), info.maxSize, file.fileType))
        else
          var fileExtension := Extension(file.name);
          if fileExtension == "" || fileExtension !in ExpectedExtensions() then Some(ExtensionMessage())
          else if |file.name| > MAX_NAME_LENGTH then Some(NAME_TOO_LONG)
          else None
  }

  /** The table lists seven types with limits of 10 MiB for images, 50 MiB for videos and
      25 MiB for audio. */
  lemma TableContents()
    ensures |ACCEPTED_TYPES| == 7
    ensures forall i :: 0 <= i < 7 && StartsWith(ACCEPTED_TYPES[i].0, "image/") ==>
              ACCEPTED_TYPES[i].1.maxSize == 10 * MiB
    ensures forall i :: 0 <= i < 7 && StartsWith(ACCEPTED_TYPES[i].0, "video/") ==>
              ACCEPTED_TYPES[i].1.maxSize == 50 * MiB
    ensures forall i :: 0 <= i < 7 && StartsWith(ACCEPTED_TYPES[i].0, "audio/") ==>
              ACCEPTED_TYPES[i].1.maxSize == 25 * MiB
  {
    forall i | 0 <= i < 7
      ensures StartsWith(ACCEPTED_TYPES[i].0, "image/") ==> ACCEPTED_TYPES[i].0[0] == 'i'
      ensures StartsWith(ACCEPTED_TYPES[i].0, "video/") ==> ACCEPTED_TYPES[i].0[0] == 'v'
      ensures StartsWith(ACCEPTED_TYPES[i].0, "audio/") ==> ACCEPTED_TYPES[i].0[0] == 'a'
    {
      var t := ACCEPTED_TYPES[i].0;
      assert |t| >= 6 ==> t[..6][0] == t[0];
    }
  }

  /** The extensions offered are jpg, png, mp4, mov, mp3, wav and m4a, in that order. */
  lemma ExtensionList()
    ensures ExpectedExtensions() == ["jpg", "png", "mp4", "mov", "mp3", "wav", "m4a"]
  {
  }

  /** Three of the table's entries, looked up. */
  lemma LookupExamples()
    ensures LookupType(ACCEPTED_TYPES, "image/png") == Some(TypeInfo(".png", MAX_IMAGE_SIZE))
    ensures LookupType(ACCEPTED_TYPES, "video/mp4") == Some(TypeInfo(".mp4", MAX_VIDEO_SIZE))
    ensures LookupType(ACCEPTED_TYPES, "image/jpeg") == Some(TypeInfo(".jpg", MAX_IMAGE_SIZE))
  {
    var t := ACCEPTED_TYPES;
    assert t[0].0[0] != 'v' && t[1].0[0] != 'v';
    assert t[1..][1..][0] == ("video/mp4", TypeInfo(".mp4", MAX_VIDEO_SIZE));
  }

  /** An oversized file is told the limit of its type in whole MiB, and the family named
      is the text of its MIME type before the first '/'. */
  lemma SizeLimitReported(file: BrowserFile, formatFileSize: nat -> string)
    requires file.size != 0 && LookupType(ACCEPTED_TYPES, file.fileType).Some?
    requires file.size > LookupType(ACCEPTED_TYPES, file.fileType).value.maxSize
    ensures ValidateFile(file, formatFileSize)
            == Some(SizeMessage(formatFileSize(file.size), LookupType(ACCEPTED_TYPES, file.fileType).value.maxSize, file.fileType))
    ensures LookupType(ACCEPTED_TYPES, file.fileType).value.maxSize / MiB in {10, 50, 25}
  {
  }

  /** The extension and name checks come only after the size check, and the name length
      only after the extension: a long name with a wrong extension is told about the
      extension. */
  lemma LaterChecks(file: BrowserFile, formatFileSize: nat -> string)
    requires file.size != 0 && LookupType(ACCEPTED_TYPES, file.fileType).Some?
    requires file.size <= LookupType(ACCEPTED_TYPES, file.fileType).value.maxSize
    ensures Extension(file.name) !in ExpectedExtensions() ==> ValidateFile(file, formatFileSize) == Some(ExtensionMessage())
    ensures Extension(file.name) in ExpectedExtensions() && |file.name| > MAX_NAME_LENGTH ==>
              ValidateFile(file, formatFileSize) == Some(NAME_TOO_LONG)
  {
  }

  /** The extension is the lower-cased text after the last dot. */
  lemma ExtensionIsAfterLastDot(name: string)
    ensures Extension(name) == AfterLast(ToLower(name), '.')
  {
    SplitLastIsAfterLast(ToLower(name), '.');
  }

  /** A name without a dot is its own extension, lower-cased. */
  lemma ExtensionWithoutDot(name: string)
    requires forall j :: 0 <= j < |name| ==> name[j] != '.'
    ensures Extension(name) == ToLower(name)
  {
    var lower := ToLower(name);
    assert forall j :: 0 <= j < |lower| ==> lower[j] == LowerChar(name[j]) != '.';
    SplitNone(lower, '.');
  }

  /** The check does not see the case of the name. */
  lemma CaseInsensitive(file: BrowserFile, formatFileSize: nat -> string)
    ensures ValidateFile(file.(name := ToLower(file.name)), formatFileSize) == ValidateFile(file, formatFileSize)
  {
    var lower := ToLower(file.name);
    assert ToLower(lower) == lower;
    assert Extension(lower) == Extension(file.name);
  }

  /** The extension of a lower-case name whose last dot is at `k`. */
  lemma ExtensionOf(name: string, k: nat)
    requires forall j :: 0 <= j < |name| ==> !('A' <= name[j] <= 'Z')
    requires k < |name| && name[k] == '.' && forall j :: k < j < |name| ==> name[j] != '.'
    ensures Extension(name) == name[k + 1..]
  {
    ToLowerUnchanged(name);
    ExtensionIsAfterLastDot(name);
    LastIndexOfIs(name, '.', k);
  }

  /** The extension of "clip.mp3". */
  lemma ClipExtension()
    ensures Extension("clip.mp3") == "mp3"
  {
    ExtensionOf("clip.mp3", 4);
  }

  /** The extension of "x.jpeg". */
  lemma JpegExtension()
    ensures Extension("x.jpeg") == "jpeg"
  {
    ExtensionOf("x.jpeg", 1);
  }

  /** The extension is checked against the whole list, not against the file's type: a
      PNG image named like an MP3 passes. */
  lemma ExtensionNotMatchedToType(formatFileSize: nat -> string)
    ensures ValidateFile(BrowserFile("clip.mp3", "image/png", 1000), formatFileSize).None?
  {
    LookupExamples();
    ExtensionList();
    ClipExtension();
  }

  /** "x.jpeg" is refused for its extension, although image/jpeg is accepted. */
  lemma JpegExtensionRefused(formatFileSize: nat -> string)
    ensures ValidateFile(BrowserFile("x.jpeg", "image/jpeg", 1000), formatFileSize) == Some(ExtensionMessage())
  {
    LookupExamples();
    JpegExtension();
    LaterChecks(BrowserFile("x.jpeg", "image/jpeg", 1000), formatFileSize);
  }

  /** A name without a dot is its own extension, so a file named just "mp4" passes. */
  lemma BareExtensionAccepted(formatFileSize: nat -> string)
    ensures ValidateFile(BrowserFile("mp4", "video/mp4", 1000), formatFileSize).None?
  {
    LookupExamples();
    ExtensionList();
    BareExtension();
  }

  /** The extension of "mp4". */
  lemma BareExtension()
    ensures Extension("mp4") == "mp4"
  {
    var name := "mp4";
    assert name[0] == 'm' && name[1] == 'p' && name[2] == '4';
    ExtensionWithoutDot(name);
    ToLowerUnchanged(name);
  }

  /** The form's `selectedFile` and `error`. */
  class FileUpload {
    var selectedFile: Option<BrowserFile>
    var error: Option<string>

    constructor()
      ensures selectedFile == None && error == None
    {
      selectedFile := None;
      error := None;
    }

    /** `handleFileSelect(file)`: a file that fails a check clears the selection and shows
        the message; one that passes is selected and clears the error. */
    method HandleFileSelect(file: BrowserFile, formatFileSize: nat -> string)
      modifies this
      ensures ValidateFile(file, formatFileSize).Some? ==>
                error == ValidateFile(file, formatFileSize) && selectedFile == None
      ensures ValidateFile(file, formatFileSize).None? ==> error == None && selectedFile == Some(file)
    {
      var validationError := ValidateFile(file, formatFileSize);
      if validationError.Some? {
        error := validationError;
        selectedFile := None;
        return;
      }
      error := None;
      selectedFile := Some(file);
    }
  }
}
