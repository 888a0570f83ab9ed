// Image upload validation and file naming (lib/upload-utils.ts).

module UploadUtils {
  import opened Common

  /** 5 MB. */
  const MaxFileSize: nat := 5 * 1024 * 1024

  const AllowedImageTypes: seq<string> := ["image/jpeg", "image/png", "image/webp", "image/jpg"]

  const SizeError: string := "File size exceeds the maximum allowed size (5MB)"
  const TypeError: string := "File type not supported. Please upload a JPEG, JPG, PNG, or WebP image"

  /** `{ valid, error? }` */
  datatype Validation = Validation(valid: bool, error: Option<string>)

  /** The size check, then the type check; a file passing both is valid with no error. */
  function ValidateFile(size: nat, mimeType: string): (r: Validation)
    ensures r.valid <==> size <= MaxFileSize && mimeType in AllowedImageTypes
    ensures r.valid <==> r.error.None?
    ensures size > MaxFileSize ==> r.error == Some(SizeError)
    ensures size <= MaxFileSize && mimeType !in AllowedImageTypes ==> r.error == Some(TypeError)
  {
    if size > MaxFileSize then Validation(false, Some(SizeError))
    else if mimeType !in AllowedImageTypes then Validation(false, Some(TypeError))
    else Validation(true, None)
  }

  /** The limit itself is admitted; one byte more is refused with the size error. */
  lemma SizeBoundary(mimeType: string)
    ensures MaxFileSize == 5242880
    ensures ValidateFile(MaxFileSize, mimeType).error != Some(SizeError)
    ensures ValidateFile(MaxFileSize + 1, mimeType) == Validation(false, Some(SizeError))
  {
  }

  /** `${uuid}.${file.name.split(".").pop()}`; the uuid is an input. */
  function GenerateUniqueFilename(uuid: string, fileName: string): (r: string)
    ensures StartsWith(r, uuid + ".")
    ensures '.' !in r[|uuid| + 1..]
    ensures |r| - |uuid| - 1 <= |fileName|
    ensures fileName[|fileName| - (|r| - |uuid| - 1)..] == r[|uuid| + 1..]
    ensures '.' in fileName ==> fileName[|fileName| - (|r| - |uuid| - 1) - 1] == '.'
    ensures '.' !in fileName ==> r == uuid + "." + fileName
  {
    LastPieceSuffix(fileName, '.');
    var r := uuid + "." + LastPiece(fileName, '.');
    assert r[..|uuid + "."|] == uuid + ".";
    assert r[|uuid| + 1..] == LastPiece(fileName, '.');
    r
  }
}
