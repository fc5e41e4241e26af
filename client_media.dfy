/** The check the two animated client components (components/visualizer-portal.tsx and
    components/deepfake-analysis.tsx) run on a selected file before analysing it; both
    carry the same allow list, the same limits and the same order of checks, and differ
    only in their messages. */
module ClientMedia {
  import opened Strings
  import opened Buffers

  /** The browser's `File`: its name, MIME type and size in bytes. */
  datatype BrowserFile = BrowserFile(name: string, fileType: string, size: nat)

  /** The components' `AnalysisResult`: the verdict the simulated analysis draws. */
  datatype Outcome = Authentic | Suspicious | Deepfake

  /** The `results` array the verdict is drawn from. */
  const OUTCOMES := [Authentic, Suspicious, Deepfake]

  /** The components' `FileType`. */
  datatype FileKind = Image | Video | Audio

  const ALLOWED_TYPES := [
    "image/jpeg", "image/png", "image/webp",
    "video/mp4", "video/quicktime", "video/webm",
    "audio/mpeg", "audio/wav", "audio/mp3"]

  /** `getFileType(file)`: the family named by the MIME prefix, images for anything else. */
  function GetFileType(fileType: string): (kind: FileKind)
    ensures kind == Video <==> StartsWith(fileType, "video/")
    ensures kind == Audio <==> StartsWith(fileType, "audio/")
    ensures kind == Image <==> !StartsWith(fileType, "video/") && !StartsWith(fileType, "audio/")
  {
    assert StartsWith(fileType, "image/") ==> fileType[..6][0] == 'i';
    assert StartsWith(fileType, "video/") ==> fileType[..6][0] == 'v';
    if StartsWith(fileType, "image/") then Image
    else if StartsWith(fileType, "video/") then Video
    else if StartsWith(fileType, "audio/") then Audio
    else Image
  }

  /** `maxSizes[fileType]`: 10 MiB for images, 100 MiB for videos, 50 MiB for audio. */
  function MaxSize(kind: FileKind): nat {
    match kind
    case Image => 10 * MiB
    case Video => 100 * MiB
    case Audio => 50 * MiB
  }

  /** Which check a file fails first, if any. */
  datatype Verdict =
    | Unsupported
    | TooLarge(kind: FileKind, maxMB: nat)
    | Passed

  /** The shared body of `validateFile`: the type against the allow list, then the size
      against the limit of its family. */
  function CheckFile(file: BrowserFile): Verdict {
    if file.fileType !in ALLOWED_TYPES then Unsupported
    else
      var kind := GetFileType(file.fileType);
      if file.size > MaxSize(kind) then TooLarge(kind, MaxSize(kind) / MiB) else Passed
  }

  /** A file passes exactly when its type is allowed and its size is at most its family's
      limit; a type outside the list is refused whatever the size, and an oversized file is
      reported with its family and the limit in whole MiB. */
  lemma CheckFileIff(file: BrowserFile)
    ensures CheckFile(file).Passed? <==>
              file.fileType in ALLOWED_TYPES && file.size <= MaxSize(GetFileType(file.fileType))
    ensures CheckFile(file).Unsupported? <==> file.fileType !in ALLOWED_TYPES
    ensures CheckFile(file).TooLarge? ==>
              CheckFile(file).kind == GetFileType(file.fileType)
              && CheckFile(file).maxMB * MiB == MaxSize(CheckFile(file).kind)
  {
  }

  /** Every allowed type names its family in its prefix, so the fallback to images is never
      taken for a file that gets to the size check: the limit is 10 MiB for the three image
      types, 100 MiB for the three video types and 50 MiB for the three audio types. */
  lemma AllowedTypesKinds(fileType: string)
    requires fileType in ALLOWED_TYPES
    ensures StartsWith(fileType, "image/") ==> MaxSize(GetFileType(fileType)) == 10 * MiB
    ensures StartsWith(fileType, "video/") ==> MaxSize(GetFileType(fileType)) == 100 * MiB
    ensures StartsWith(fileType, "audio/") ==> MaxSize(GetFileType(fileType)) == 50 * MiB
    ensures StartsWith(fileType, "image/") || StartsWith(fileType, "video/") || StartsWith(fileType, "audio/")
  {
    assert StartsWith(fileType, "image/") ==> fileType[..6][0] == 'i';
  }
}
