/** Turning untrusted vector-service records into uniform
    `{text, source, title, score}` records (service.py:61-107). */
module Normalization {
  import opened Wrappers
  import opened Records

  const NoContent: string := "暂无具体内容"
  const DocumentLabel: string := "文档: "
  const UnknownSource: string := "未知来源"
  const UnknownDocument: string := "未知文档"

  /** Python truthiness of an optional string read with default `''`. */
  predicate Truthy(v: Option<string>) {
    v.Some? && v.value != ""
  }

  /** The `metadata` value, with a missing key read as `{}`. */
  function MetadataOf(r: RawResult): Metadata {
    r.metadata.GetOr(Dict(None, None))
  }

  /** `metadata['source']` when metadata is a dict, else nothing. */
  function MetaSource(r: RawResult): Option<string> {
    if MetadataOf(r).Dict? then MetadataOf(r).source else None
  }

  /** `metadata['category']` when metadata is a dict, else nothing. */
  function MetaCategory(r: RawResult): Option<string> {
    if MetadataOf(r).Dict? then MetadataOf(r).category else None
  }

  /** The text of a record: first key present among `text`, `content`,
      `document_id` (labelled), else a placeholder. Presence, not
      truthiness, decides: an empty `text` still wins. */
  function ExtractText(r: RawResult): (t: string)
    ensures r.text.Some? ==> t == r.text.value
    ensures r.text.None? && r.content.Some? ==> t == r.content.value
    ensures r.text.None? && r.content.None? && r.documentId.Some? ==>
      t == DocumentLabel + r.documentId.value
    ensures r.text.None? && r.content.None? && r.documentId.None? ==> t == NoContent
  {
    if r.text.Some? then r.text.value
    else if r.content.Some? then r.content.value
    else if r.documentId.Some? then DocumentLabel + r.documentId.value
    else NoContent
  }

  /** The source label of a record. Metadata fields count only when
      non-empty; with both, the category comes first. */
  function ExtractSource(r: RawResult): (s: string)
    ensures Truthy(MetaSource(r)) && Truthy(MetaCategory(r)) ==>
      s == MetaCategory(r).value + " - " + MetaSource(r).value
    ensures Truthy(MetaSource(r)) && !Truthy(MetaCategory(r)) ==> s == MetaSource(r).value
    ensures !Truthy(MetaSource(r)) && Truthy(MetaCategory(r)) ==> s == MetaCategory(r).value
    ensures !Truthy(MetaSource(r)) && !Truthy(MetaCategory(r)) ==>
      s == r.documentId.GetOr(UnknownSource)
  {
    var metadata := MetadataOf(r);
    if metadata.Dict? && Truthy(metadata.source) && Truthy(metadata.category) then
      metadata.category.value + " - " + metadata.source.value
    else if metadata.Dict? && Truthy(metadata.source) then
      metadata.source.value
    else if metadata.Dict? && Truthy(metadata.category) then
      metadata.category.value
    else
      r.documentId.GetOr(UnknownSource)
  }

  /** One normalised record. */
  function Normalize(r: RawResult): Normalized {
    Normalized(ExtractText(r), ExtractSource(r), r.documentId.GetOr(UnknownDocument), r.score.GetOr(0.0))
  }

  /** `_format_vector_results`: one normalised record per raw record, in order. */
  method FormatVectorResults(rawResults: seq<RawResult>) returns (formatted: seq<Normalized>)
    ensures |formatted| == |rawResults|
    ensures forall i :: 0 <= i < |rawResults| ==> formatted[i] == Normalize(rawResults[i])
    ensures forall i :: 0 <= i < |rawResults| ==>
      && formatted[i].text == ExtractText(rawResults[i])
      && formatted[i].source == ExtractSource(rawResults[i])
      && formatted[i].title == rawResults[i].documentId.GetOr(UnknownDocument)
      && formatted[i].score == rawResults[i].score.GetOr(0.0)
  {
    formatted := [];
    for k := 0 to |rawResults|
      invariant |formatted| == k
      invariant forall i :: 0 <= i < k ==> formatted[i] == Normalize(rawResults[i])
    {
      var result := rawResults[k];
      var textContent := ExtractText(result);
      var sourceInfo := ExtractSource(result);
      var formattedResult := Normalized(textContent, sourceInfo,
        result.documentId.GetOr(UnknownDocument), result.score.GetOr(0.0));
      formatted := formatted + [formattedResult];
    }
  }

  /** The source is empty exactly when no metadata field is non-empty and
      `document_id` is present but empty; every other path yields a
      non-empty label. */
  lemma SourceEmptyIff(r: RawResult)
    ensures ExtractSource(r) == "" <==>
      !Truthy(MetaSource(r)) && !Truthy(MetaCategory(r)) && r.documentId == Some("")
  {
  }

  /** The text is empty exactly when the chosen key holds an empty string:
      the placeholders and the `document_id` label are never empty. */
  lemma TextEmptyIff(r: RawResult)
    ensures ExtractText(r) == "" <==>
      r.text == Some("") || (r.text.None? && r.content == Some(""))
  {
  }

  /** Category first: a non-empty category starts the label and a non-empty
      source ends it. */
  lemma SourceLabelOrder(r: RawResult)
    ensures Truthy(MetaCategory(r)) ==>
      MetaCategory(r).value <= ExtractSource(r)
    ensures Truthy(MetaSource(r)) ==> exists pre :: ExtractSource(r) == pre + MetaSource(r).value
  {
    if Truthy(MetaSource(r)) {
      var pre := if Truthy(MetaCategory(r)) then MetaCategory(r).value + " - " else "";
      assert ExtractSource(r) == pre + MetaSource(r).value;
    }
  }

  /** A metadata value that is not a JSON object is treated like missing
      metadata: the label falls back to `document_id`. */
  lemma NonDictMetadataFallsBack(r: RawResult)
    requires r.metadata == Some(NotADict) || r.metadata == None
    ensures ExtractSource(r) == r.documentId.GetOr(UnknownSource)
  {
  }

  /** The text never looks at metadata or the score, and the source never
      looks at the text, the content or the score. */
  lemma ExtractFieldsIndependent(r: RawResult, s: RawResult)
    ensures r.text == s.text && r.content == s.content && r.documentId == s.documentId ==>
      ExtractText(r) == ExtractText(s)
    ensures r.metadata == s.metadata && r.documentId == s.documentId ==>
      ExtractSource(r) == ExtractSource(s)
  {
  }

  /** The records normalisation can produce: an empty source only occurs
      with an empty title (both come from an empty `document_id`). */
  predicate Reachable(n: Normalized) {
    n.source == "" ==> n.title == ""
  }

  /** A raw record that normalises to `n`. */
  function Embed(n: Normalized): RawResult {
    RawResult(Some(n.text), None, Some(n.title), Some(Dict(Some(n.source), None)), Some(n.score))
  }

  lemma NormalizeIsReachable(r: RawResult)
    ensures Reachable(Normalize(r))
  {
  }

  /** Every reachable record is the normalisation of some raw record, so
      `Reachable` describes the image of `Normalize` exactly. */
  lemma EmbedRoundTrip(n: Normalized)
    requires Reachable(n)
    ensures Normalize(Embed(n)) == n
  {
  }

  lemma NormalizeImage(n: Normalized)
    ensures (exists r :: Normalize(r) == n) <==> Reachable(n)
  {
    if Reachable(n) {
      EmbedRoundTrip(n);
    } else if r :| Normalize(r) == n {
      NormalizeIsReachable(r);
    }
  }
}
