/** The upload configuration constants and the upload status of `src/types/receipt.ts`. */
module UploadConfig {

  const MiB: nat := 1024 * 1024

  datatype UploadConfig = UploadConfig(
    maxSizeBytes: int,
    targetSizeBytes: int,
    allowedFormats: seq<string>,
    maxFiles: int)

  /** `DEFAULT_UPLOAD_CONFIG`: 10 MB limit, 2 MB compression target, three image types,
      at most ten files. */
  const DefaultUploadConfig: UploadConfig :=
    UploadConfig(10 * MiB, 2 * MiB, ["image/jpeg", "image/png", "image/heic"], 10)

  /** The statuses an in-progress upload goes through. The interface declares only the
      first three and `error`; the upload store and the receipt processor also write
      `processing` and `processed`, so the model uses the union actually written. */
  datatype UploadStatus = Pending | Uploading | Uploaded | Processing | Processed | Error

  /** The four statuses the `Receipt` interface declares. */
  predicate IsDeclaredStatus(s: UploadStatus) {
    s.Pending? || s.Uploading? || s.Uploaded? || s.Error?
  }

  /** A file as the browser hands it over: its name, MIME type and size in bytes. */
  datatype File = File(name: string, mimeType: string, size: nat)

  lemma DefaultUploadConfigValues()
    ensures DefaultUploadConfig.maxSizeBytes == 10_485_760
    ensures DefaultUploadConfig.targetSizeBytes == 2_097_152
    ensures 0 < DefaultUploadConfig.targetSizeBytes < DefaultUploadConfig.maxSizeBytes
    ensures DefaultUploadConfig.maxFiles == 10
    ensures forall f :: f in DefaultUploadConfig.allowedFormats <==>
      f == "image/jpeg" || f == "image/png" || f == "image/heic"
  {
  }

  /** The store writes statuses the interface does not declare. */
  lemma UndeclaredStatusesInUse()
    ensures !IsDeclaredStatus(Processing) && !IsDeclaredStatus(Processed)
    ensures forall s :: IsDeclaredStatus(s) <==> s in {Pending, Uploading, Uploaded, Error}
  {
  }
}
