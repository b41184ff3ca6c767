/** Upload checks of `src/utils/imageUtils.ts`: file type and size validation, the size
    guard in front of compression, and receipt id generation. */
module ImageValidation {
  import opened Wrappers
  import opened UploadConfig
  import opened Text

  /** `validateImageType`: the MIME type is one of the allowed formats. */
  predicate ValidateImageType(file: File, config: UploadConfig) {
    file.mimeType in config.allowedFormats
  }

  /** `validateImageSize`: the size is at most the limit (the limit itself is allowed). */
  predicate ValidateImageSize(file: File, config: UploadConfig) {
    file.size <= config.maxSizeBytes
  }

  /** Which check failed, with what the message reports. */
  datatype ValidationError = InvalidType(allowedFormats: seq<string>) | TooLarge(maxSizeBytes: int)

  /** `{ valid, error? }` */
  datatype ValidationResult = ValidationResult(valid: bool, error: Option<ValidationError>)

  /** `validateImage`: the type is checked first, then the size. */
  function ValidateImage(file: File, config: UploadConfig): (r: ValidationResult)
    ensures r.valid <==> ValidateImageType(file, config) && ValidateImageSize(file, config)
    ensures r.valid <==> r.error.None?
    ensures !ValidateImageType(file, config) ==> r.error == Some(InvalidType(config.allowedFormats))
    ensures ValidateImageType(file, config) && !ValidateImageSize(file, config) ==>
      r.error == Some(TooLarge(config.maxSizeBytes))
  {
    if !ValidateImageType(file, config) then ValidationResult(false, Some(InvalidType(config.allowedFormats)))
    else if !ValidateImageSize(file, config) then ValidationResult(false, Some(TooLarge(config.maxSizeBytes)))
    else ValidationResult(true, None)
  }

  /** `parts.join(sep)` */
  function Join(parts: seq<string>, sep: string): string {
    if parts == [] then ""
    else if |parts| == 1 then parts[0]
    else parts[0] + sep + Join(parts[1..], sep)
  }

  /** The text of the type error. */
  function TypeErrorMessage(allowedFormats: seq<string>): (m: string)
    ensures StartsWith(m, "Invalid file type. Allowed formats: ")
  {
    var prefix := "Invalid file type. Allowed formats: ";
    assert (prefix + Join(allowedFormats, ", "))[..|prefix|] == prefix;
    prefix + Join(allowedFormats, ", ")
  }

  /** The text of the size error, for a limit of whole mebibytes. */
  function SizeErrorMessage(maxSizeBytes: int): (m: string)
    requires maxSizeBytes % MiB == 0
    ensures StartsWith(m, "File size exceeds ")
  {
    var prefix := "File size exceeds ";
    assert (prefix + IntToString(maxSizeBytes / MiB) + "MB limit")[..|prefix|] == prefix;
    prefix + IntToString(maxSizeBytes / MiB) + "MB limit"
  }

  /** The `error` text `validateImage` returns for the check that failed; the two texts
      are told apart by their first words. */
  function ErrorText(e: ValidationError): (m: string)
    requires e.TooLarge? ==> e.maxSizeBytes % MiB == 0
    ensures e.InvalidType? <==> StartsWith(m, "Invalid file type. Allowed formats: ")
    ensures e.TooLarge? <==> StartsWith(m, "File size exceeds ")
  {
    match e
    case InvalidType(formats) =>
      var m := TypeErrorMessage(formats);
      assert m[0] == "Invalid file type. Allowed formats: "[0];
      m
    case TooLarge(maxSize) =>
      var m := SizeErrorMessage(maxSize);
      assert m[0] == "File size exceeds "[0];
      m
  }

  lemma DefaultTypeErrorMessage()
    ensures TypeErrorMessage(DefaultUploadConfig.allowedFormats)
         == "Invalid file type. Allowed formats: " + "image/jpeg" + ", " + "image/png" + ", " + "image/heic"
  {
    var formats := DefaultUploadConfig.allowedFormats;
    assert formats[1..] == ["image/png", "image/heic"];
    assert formats[1..][1..] == ["image/heic"];
    assert Join(formats, ", ") == "image/jpeg" + ", " + ("image/png" + ", " + "image/heic");
  }

  lemma DefaultSizeErrorMessage()
    ensures SizeErrorMessage(DefaultUploadConfig.maxSizeBytes) == "File size exceeds 10MB limit"
  {
    assert DefaultUploadConfig.maxSizeBytes / MiB == 10;
    assert NatToString(1) == "1";
    assert NatToString(10) == NatToString(1) + [DigitChar(0)] == "10";
  }

  /** When both checks fail, the type error is the one reported. */
  lemma TypeErrorTakesPrecedence(file: File, config: UploadConfig)
    requires !ValidateImageType(file, config) && !ValidateImageSize(file, config)
    ensures ValidateImage(file, config).error == Some(InvalidType(config.allowedFormats))
  {
  }

  /** Under the default configuration, a file of exactly 10 MB of an allowed type passes and
      one byte more fails. */
  lemma SizeLimitIsInclusive(mimeType: string)
    requires mimeType in DefaultUploadConfig.allowedFormats
    ensures ValidateImage(File("f", mimeType, 10 * MiB), DefaultUploadConfig).valid
    ensures ValidateImage(File("f", mimeType, 10 * MiB + 1), DefaultUploadConfig).error
         == Some(TooLarge(10 * MiB))
  {
  }

  /** `compressImage`: a file no larger than the target is returned as it is, without calling
      the compression library; otherwise the library's outcome (`compressed`) is returned and
      its failure becomes "Failed to compress image". */
  function CompressImage(file: File, config: UploadConfig, compressed: Result<File>): (r: Result<File>)
    ensures file.size <= config.targetSizeBytes ==> r == Ok(file)
    ensures file.size > config.targetSizeBytes ==>
      (compressed.Ok? ==> r == compressed) && (compressed.Err? ==> r == Err("Failed to compress image"))
  {
    if file.size <= config.targetSizeBytes then Ok(file)
    else if compressed.Ok? then compressed
    else Err("Failed to compress image")
  }

  /** `s.substring(start, end)` with JavaScript's clamping of both bounds. */
  function Substring(s: string, start: int, end: int): (r: string)
    ensures |r| <= |s|
  {
    var a := if start < 0 then 0 else if start > |s| then |s| else start;
    var b := if end < 0 then 0 else if end > |s| then |s| else end;
    if a <= b then s[a..b] else s[b..a]
  }

  /** `generateReceiptId`: `uuid` is `crypto.randomUUID()` when the platform has it, `now`
      is `Date.now()` and `random` is `Math.random().toString(36)`. */
  function GenerateReceiptId(uuid: Option<string>, now: int, random: string): (id: string)
    ensures StartsWith(id, "receipt-")
    ensures uuid.Some? ==> id[|"receipt-"|..] == uuid.value
  {
    var tail := if uuid.Some? then uuid.value else IntToString(now) + "-" + Substring(random, 2, 15);
    assert ("receipt-" + tail)[..|"receipt-"|] == "receipt-";
    assert ("receipt-" + tail)[|"receipt-"|..] == tail;
    "receipt-" + tail
  }
}
