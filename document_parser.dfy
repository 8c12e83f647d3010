/**
 * The format gate in front of text extraction and the sufficiency rule the
 * extracted text must meet before classification. The format-specific
 * extractors are a parameter.
 */
module DocumentParser {
  import opened Wrappers
  import opened Text
  import Config

  /** detect_format: the format of a supported MIME type, None otherwise. */
  function DetectFormat(mimeType: string): (r: Option<string>)
    ensures r.Some? <==> mimeType in Config.SupportedMimeTypes
    ensures r.Some? ==> r.value == Config.SupportedMimeTypes[mimeType]
  {
    if mimeType in Config.SupportedMimeTypes then Some(Config.SupportedMimeTypes[mimeType]) else None
  }

  /** Every detected format is one of the five extractors' formats, so the source's last
      "Unsupported format" branch is never taken. */
  lemma DetectedFormatHasExtractor(mimeType: string)
    requires DetectFormat(mimeType).Some?
    ensures DetectFormat(mimeType).value in {"pdf", "docx", "pptx", "txt", "image"}
  {
    Config.MimeFormats();
    assert Config.SupportedMimeTypes[mimeType] in Config.SupportedMimeTypes.Values;
  }

  /**
   * extract_text. `extract(format)` is what the extractor for that format yields on the
   * document's bytes: its text or the message of what it raised.
   */
  function ExtractText(mimeType: string, extract: string -> Result<string, string>): Result<string, string> {
    match DetectFormat(mimeType)
    case None => Failure("Unsupported MIME type: " + mimeType)
    case Some(fmt) =>
      match extract(fmt)
      case Success(text) => Success(text)
      case Failure(e) => Failure("Failed to extract text from " + fmt + ": " + e)
  }

  /** An unsupported type is refused; otherwise the extractor of the type's format decides,
      and its error is reported with the format named. */
  lemma ExtractTextOutcome(mimeType: string, extract: string -> Result<string, string>)
    ensures mimeType !in Config.SupportedMimeTypes ==> ExtractText(mimeType, extract) == Failure("Unsupported MIME type: " + mimeType)
    ensures mimeType in Config.SupportedMimeTypes ==>
      var fmt := Config.SupportedMimeTypes[mimeType];
      (extract(fmt).Success? ==> ExtractText(mimeType, extract) == extract(fmt))
      && (extract(fmt).Failure? ==> ExtractText(mimeType, extract) == Failure("Failed to extract text from " + fmt + ": " + extract(fmt).error))
  {
  }

  /** An unsupported MIME type is refused before any extractor is consulted: the result does not depend on them. */
  lemma UnsupportedNeverExtracts(mimeType: string, f: string -> Result<string, string>, g: string -> Result<string, string>)
    requires mimeType !in Config.SupportedMimeTypes
    ensures ExtractText(mimeType, f) == ExtractText(mimeType, g)
  {
  }

  const NoTextMessage: string := "No text extracted from document"
  const MostlyNonTextMessage: string := "Extracted text appears to contain mostly non-text characters"

  function TooShortMessage(n: nat): string {
    "Extracted text too short (" + NatToString(n) + " chars, minimum " + NatToString(Config.MinTextLength) + ")"
  }

  /** Fewer than three in ten characters are alphanumeric, in exact arithmetic. */
  predicate MostlyNonText(s: string) {
    10 * AlnumCount(s) < 3 * |s|
  }

  /**
   * validate_extracted_text: `text` is None when the extractor returned None. The checks run in
   * order (empty, length after strip, alphanumeric ratio) and the first failing one decides.
   */
  function ValidateExtractedText(text: Option<string>): (r: (bool, Option<string>))
    ensures r.0 <==> r.1.None?
  {
    if text.None? || text.value == [] then (false, Some(NoTextMessage))
    else
      var t := Strip(text.value);
      if |t| < Config.MinTextLength then (false, Some(TooShortMessage(|t|)))
      else if MostlyNonText(t) then (false, Some(MostlyNonTextMessage))
      else (true, None)
  }

  /** Text passes exactly when it is present, non-empty, long enough once stripped and not mostly
      non-text; otherwise the first failing check names the refusal. */
  lemma ValidationChecksInOrder(text: Option<string>)
    ensures var r := ValidateExtractedText(text);
      r.0 <==> text.Some? && text.value != []
               && |Strip(text.value)| >= Config.MinTextLength && !MostlyNonText(Strip(text.value))
    ensures text.None? || text.value == [] ==> ValidateExtractedText(text).1 == Some(NoTextMessage)
    ensures text.Some? && text.value != [] && |Strip(text.value)| < Config.MinTextLength ==>
      ValidateExtractedText(text).1 == Some(TooShortMessage(|Strip(text.value)|))
    ensures text.Some? && text.value != [] && |Strip(text.value)| >= Config.MinTextLength && MostlyNonText(Strip(text.value)) ==>
      ValidateExtractedText(text).1 == Some(MostlyNonTextMessage)
  {
  }

  /** Text made only of whitespace is not "empty" for the first check, but strips to nothing and is too short. */
  lemma WhitespaceOnlyTooShort(text: string)
    requires text != [] && forall k :: 0 <= k < |text| ==> IsSpace(text[k])
    ensures ValidateExtractedText(Some(text)) == (false, Some(TooShortMessage(0)))
  {
    StripEmpty(text);
  }

  /** Every character alphanumeric makes the count the length. */
  lemma {:induction false} AlnumCountAll(s: string)
    requires forall k :: 0 <= k < |s| ==> IsAlnum(s[k])
    ensures AlnumCount(s) == |s|
  {
    if s != [] {
      AlnumCountAll(s[..|s| - 1]);
    }
  }

  /** Stripped text of at least 50 characters, all alphanumeric, is sufficient. */
  lemma AlnumTextAccepted(text: string)
    requires |Strip(text)| >= Config.MinTextLength
    requires forall k :: 0 <= k < |Strip(text)| ==> IsAlnum(Strip(text)[k])
    ensures ValidateExtractedText(Some(text)) == (true, None)
  {
    AlnumCountAll(Strip(text));
  }

  /** Sufficiency depends only on the stripped text. */
  lemma ValidationSeesStrippedText(text: string)
    requires Strip(text) != []
    ensures ValidateExtractedText(Some(text)) == ValidateExtractedText(Some(Strip(text)))
  {
    StripIdempotent(text);
  }
}
