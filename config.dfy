/**
 * The constants the classifier's components share: document size limits,
 * the supported MIME types, the seven tag types of the taxonomy, and the
 * numeric limits for text, retries, rate limiting and job lifetime.
 * Settings read from the environment (project, buckets, model name) are
 * not constants and appear as parameters where they are used.
 */
module Config {
  import opened Wrappers

  const MaxSyncSizeBytes: nat := 5 * 1024 * 1024
  const MaxAsyncSizeBytes: nat := 50 * 1024 * 1024
  const MinTextLength: nat := 50
  const ClassificationMaxRetries: nat := 3
  const RateLimitPerMinute: nat := 60
  const JobTtlHours: nat := 24

  /** The model name recorded in job results (the default of the VERTEX_AI_MODEL setting). */
  const DefaultModelName: string := "gemini-1.5-pro"

  const SupportedMimeTypes: map<string, string> := map[
    "application/pdf" := "pdf",
    "application/vnd.openxmlformats-officedocument.wordprocessingml.document" := "docx",
    "application/vnd.openxmlformats-officedocument.presentationml.presentation" := "pptx",
    "text/plain" := "txt",
    "image/jpeg" := "image",
    "image/png" := "image",
    "image/gif" := "image"
  ]

  /** The keys of the MIME table in the order the table lists them, which is the order
      in which a Python dict yields its keys. */
  const SupportedMimeTypeOrder: seq<string> := [
    "application/pdf",
    "application/vnd.openxmlformats-officedocument.wordprocessingml.document",
    "application/vnd.openxmlformats-officedocument.presentationml.presentation",
    "text/plain",
    "image/jpeg",
    "image/png",
    "image/gif"
  ]

  datatype Cardinality = ExactlyOne | ZeroOrMore

  /** One entry of the tag-type table: how many tags of the type a classification
      takes, and the fixed list of names the type allows, if it has one. */
  datatype TagTypeSpec = TagTypeSpec(cardinality: Cardinality, values: Option<seq<string>>)

  const HorizonValues: seq<string> := ["Solve", "Plan", "Explore"]

  const TagTypes: map<string, TagTypeSpec> := map[
    "Horizon" := TagTypeSpec(ExactlyOne, Some(HorizonValues)),
    "Practice" := TagTypeSpec(ExactlyOne, None),
    "Stream" := TagTypeSpec(ZeroOrMore, None),
    "Role" := TagTypeSpec(ZeroOrMore, None),
    "Vendor" := TagTypeSpec(ZeroOrMore, None),
    "Product" := TagTypeSpec(ZeroOrMore, None),
    "Topic" := TagTypeSpec(ZeroOrMore, None)
  ]

  /** A document small enough for the synchronous endpoint is too small for the asynchronous one. */
  lemma SizeLimitsOrdered()
    ensures MaxSyncSizeBytes < MaxAsyncSizeBytes
    ensures MaxSyncSizeBytes == 5 * 0x10_0000 && MaxAsyncSizeBytes == 50 * 0x10_0000
  {
  }

  /** Seven tag types; Horizon and Practice take exactly one tag, the other five any number. */
  lemma TagTypesShape()
    ensures TagTypes.Keys == {"Horizon", "Practice", "Stream", "Role", "Vendor", "Product", "Topic"}
    ensures |TagTypes| == 7
    ensures forall t :: t in TagTypes ==>
      (TagTypes[t].cardinality == ExactlyOne <==> t == "Horizon" || t == "Practice")
  {
    assert |{"Horizon", "Practice", "Stream", "Role", "Vendor", "Product", "Topic"}| == 7;
  }

  /** Only Horizon restricts its names, to exactly Solve, Plan and Explore. */
  lemma HorizonOnlyFixedValues()
    ensures forall t :: t in TagTypes ==> (TagTypes[t].values.Some? <==> t == "Horizon")
    ensures TagTypes["Horizon"].values == Some(["Solve", "Plan", "Explore"])
  {
  }

  /** The seven supported MIME types. */
  lemma MimeTypeKeys()
    ensures SupportedMimeTypes.Keys == {
      "application/pdf",
      "application/vnd.openxmlformats-officedocument.wordprocessingml.document",
      "application/vnd.openxmlformats-officedocument.presentationml.presentation",
      "text/plain", "image/jpeg", "image/png", "image/gif"}
  {
  }

  /** The ordered key list names every supported MIME type exactly once, and nothing else. */
  lemma MimeTypeOrderIsKeys()
    ensures |SupportedMimeTypeOrder| == |SupportedMimeTypes| == 7
    ensures forall i, j :: 0 <= i < j < |SupportedMimeTypeOrder| ==> SupportedMimeTypeOrder[i] != SupportedMimeTypeOrder[j]
    ensures forall m :: m in SupportedMimeTypeOrder <==> m in SupportedMimeTypes
  {
    MimeTypeKeys();
    assert |SupportedMimeTypes.Keys| == 7;
  }

  /** The MIME types map onto five formats. */
  lemma MimeFormats()
    ensures SupportedMimeTypes.Values == {"pdf", "docx", "pptx", "txt", "image"}
  {
    assert SupportedMimeTypes["application/pdf"] == "pdf";
    assert SupportedMimeTypes["application/vnd.openxmlformats-officedocument.wordprocessingml.document"] == "docx";
    assert SupportedMimeTypes["application/vnd.openxmlformats-officedocument.presentationml.presentation"] == "pptx";
    assert SupportedMimeTypes["text/plain"] == "txt";
    assert SupportedMimeTypes["image/png"] == "image";
  }

  /** Exactly the three image types map to "image". */
  lemma ImageMimeTypes()
    ensures forall m :: m in SupportedMimeTypes ==>
      (SupportedMimeTypes[m] == "image" <==> m in {"image/jpeg", "image/png", "image/gif"})
  {
  }

  /** The numeric limits the other components use. */
  lemma NumericLimits()
    ensures MinTextLength == 50 && ClassificationMaxRetries == 3
    ensures RateLimitPerMinute == 60 && JobTtlHours == 24
  {
  }
}
