/**
 * `validateImageFile` of frontend/src/composables/useImageValidation.ts:
 * the MIME-type and size check run before an image is uploaded.
 */
module ImageValidation {

  /** The two properties of a browser `File` the check reads. */
  datatype File = File(mimeType: string, size: nat)

  /** `{ valid, message }` */
  datatype Verdict = Verdict(valid: bool, message: string)

  const MaxSize: nat := 10 * 1024 * 1024
  const AllowedTypes: seq<string> := ["image/jpeg", "image/png", "image/gif", "image/webp"]

  const TypeMessage := "Tipo de archivo no permitido. Solo se permiten: JPEG, PNG, GIF, WebP"
  const SizeMessage := "El archivo es demasiado grande. Máximo 10MB permitido"
  const ValidMessage := "Archivo válido"

  /** What the upload accepts: one of the four image types, at most 10 MiB. */
  predicate Acceptable(f: File) {
    f.mimeType in AllowedTypes && f.size <= MaxSize
  }

  function ValidateImageFile(f: File): (v: Verdict)
    ensures v.valid <==> Acceptable(f)
    ensures f.mimeType !in AllowedTypes ==> v == Verdict(false, TypeMessage)
    ensures f.mimeType in AllowedTypes && f.size > MaxSize ==> v == Verdict(false, SizeMessage)
    ensures v.valid ==> v.message == ValidMessage
  {
    if f.mimeType !in AllowedTypes then Verdict(false, TypeMessage)
    else if f.size > MaxSize then Verdict(false, SizeMessage)
    else Verdict(true, ValidMessage)
  }

  /** The type is checked first: a file of a wrong type that is also too large gets the type message. */
  lemma TypeReportedFirst(mimeType: string, size: nat)
    requires mimeType !in AllowedTypes && size > MaxSize
    ensures ValidateImageFile(File(mimeType, size)).message == TypeMessage
  {
  }

  /** The size bound is inclusive: exactly 10 MiB passes, one byte more does not. */
  lemma SizeBoundInclusive(mimeType: string)
    requires mimeType in AllowedTypes
    ensures ValidateImageFile(File(mimeType, 10485760)).valid
    ensures !ValidateImageFile(File(mimeType, 10485761)).valid
  {
  }
}
