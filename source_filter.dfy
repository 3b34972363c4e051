/** Selecting the passages shown to the caller as sources
    (service.py:182-199, model.py:7-11). */
module SourceFilter {
  import opened Wrappers
  import opened Records
  import opened Config

  /** A passage is shown when its score is at least the threshold. */
  predicate Passes(r: Normalized) {
    r.score >= SimilarityThreshold
  }

  /** The `SourceDocument` built from a kept passage. */
  function ToSource(r: Normalized): SourceDocument {
    SourceDocument(r.text, r.source, r.title, Some(r.score))
  }

  /** The sources for `results`, defined from the last element so that it
      follows a left-to-right scan. */
  function FilteredSources(results: seq<Normalized>): seq<SourceDocument> {
    if results == [] then []
    else
      var last := results[|results| - 1];
      FilteredSources(results[..|results| - 1]) + (if Passes(last) then [ToSource(last)] else [])
  }

  /** The positions of the passages that pass, in increasing order. */
  function KeptIndices(results: seq<Normalized>): (idx: seq<nat>)
    ensures forall j :: 0 <= j < |idx| ==> idx[j] < |results| && Passes(results[idx[j]])
    ensures forall j, k :: 0 <= j < k < |idx| ==> idx[j] < idx[k]
    ensures forall i :: 0 <= i < |results| && Passes(results[i]) ==> i in idx
  {
    if results == [] then []
    else
      var n := |results| - 1;
      var prefix := results[..n];
      var before := KeptIndices(prefix);
      assert forall j :: 0 <= j < |before| ==> results[before[j]] == prefix[before[j]];
      assert forall i :: 0 <= i < n ==> results[i] == prefix[i];
      before + (if Passes(results[n]) then [n] else [])
  }

  /** `format_sources`: a loop that skips low-scoring passages with
      `continue` and appends the rest. */
  method FormatSources(vectorResults: seq<Normalized>) returns (sources: seq<SourceDocument>)
    ensures sources == FilteredSources(vectorResults)
    ensures |sources| <= |vectorResults|
  {
    sources := [];
    for i := 0 to |vectorResults|
      invariant sources == FilteredSources(vectorResults[..i])
      invariant |sources| <= i
    {
      assert vectorResults[..i + 1][..i] == vectorResults[..i];
      var result := vectorResults[i];
      if result.score < SimilarityThreshold {
        continue;
      }
      var sourceDoc := SourceDocument(result.text, result.source, result.title, Some(result.score));
      sources := sources + [sourceDoc];
    }
    assert vectorResults[..|vectorResults|] == vectorResults;
  }

  /** The sources are exactly the passing passages, in their original order,
      each carried over field by field. */
  lemma {:induction false} SourcesAreKeptSubsequence(results: seq<Normalized>)
    ensures |FilteredSources(results)| == |KeptIndices(results)|
    ensures forall j :: 0 <= j < |FilteredSources(results)| ==>
      var r := results[KeptIndices(results)[j]];
      FilteredSources(results)[j] == SourceDocument(r.text, r.source, r.title, Some(r.score))
  {
    if results != [] {
      var n := |results| - 1;
      var prefix := results[..n];
      SourcesAreKeptSubsequence(prefix);
      assert forall i :: 0 <= i < n ==> results[i] == prefix[i];
    }
  }

  /** A passage below the threshold has no source, and every source has a
      score at or above it. */
  lemma {:induction false} LowScoreExcluded(results: seq<Normalized>)
    ensures forall s :: s in FilteredSources(results) ==>
      s.score.Some? && s.score.value >= SimilarityThreshold
    ensures forall r :: r in results && r.score < SimilarityThreshold ==>
      ToSource(r) !in FilteredSources(results)
  {
    if results != [] {
      var n := |results| - 1;
      LowScoreExcluded(results[..n]);
      forall r | r in results
        ensures r == results[n] || r in results[..n]
      {
        var i :| 0 <= i < |results| && results[i] == r;
        if i < n { assert results[..n][i] == r; }
      }
    }
  }

  /** Every passing passage has its source among the sources. */
  lemma PassingIncluded(results: seq<Normalized>, i: int)
    requires 0 <= i < |results| && Passes(results[i])
    ensures ToSource(results[i]) in FilteredSources(results)
  {
    SourcesAreKeptSubsequence(results);
    var idx := KeptIndices(results);
    var j :| 0 <= j < |idx| && idx[j] == i;
    assert FilteredSources(results)[j] == ToSource(results[i]);
  }
}
