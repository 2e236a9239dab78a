/**
 * `ImageDao.validateImageFile` (frontend/src/services/dao/ImageDao.ts), a
 * second copy of the upload check kept beside the upload calls.
 */
module ImageDao {
  import opened ImageValidation

  function ValidateImageFile(file: File): (v: Verdict)
    ensures v.valid <==> Acceptable(file)
    ensures file.mimeType !in AllowedTypes ==> v.message == TypeMessage
    ensures file.mimeType in AllowedTypes && file.size > MaxSize ==> v.message == SizeMessage
  {
    if !(file.mimeType in ["image/jpeg", "image/png", "image/gif", "image/webp"]) then
      Verdict(false, "Tipo de archivo no permitido. Solo se permiten: JPEG, PNG, GIF, WebP")
    else if file.size > 10 * 1024 * 1024 then
      Verdict(false, "El archivo es demasiado grande. Máximo 10MB permitido")
    else Verdict(true, "Archivo válido")
  }

  /** The two copies give the same verdict and the same message for every file. */
  lemma SameAsComposable(file: File)
    ensures ValidateImageFile(file) == ImageValidation.ValidateImageFile(file)
  {
  }
}
