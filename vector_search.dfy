/** The fail-soft vector search (service.py:19-59). */
module VectorSearch {
  import opened Wrappers
  import opened Records
  import opened Config
  import opened Outbound
  import opened Normalization

  /** The normalised records a search outcome yields: only a decoded 200
      response gives any, and a missing `results` key reads as `[]`. */
  function SearchResults(outcome: HttpOutcome): seq<Normalized> {
    match outcome
    case Responded(200, Json(Some(raws))) =>
      seq(|raws|, i requires 0 <= i < |raws| => Normalize(raws[i]))
    case _ => []
  }

  /** `search_vector_db`: posts one request (with `TOP_K` when no `top_k`
      is given) and never raises; every failure becomes `[]`. */
  method SearchVectorDb(question: string, topK: Option<int>, search: SearchRequest -> HttpOutcome)
    returns (results: seq<Normalized>, calls: seq<Call>)
    ensures calls == [VectorSearch(SearchRequest(question, topK.GetOr(TopK)))]
    ensures results == SearchResults(search(calls[0].request))
    ensures !search(calls[0].request).Responded? ==> results == []
    ensures search(calls[0].request).Responded? && search(calls[0].request).status != 200 ==>
      results == []
    ensures search(calls[0].request) == Responded(200, NotJson) ==> results == []
    ensures search(calls[0].request) == Responded(200, Json(None)) ==> results == []
    ensures forall raws :: search(calls[0].request) == Responded(200, Json(Some(raws))) ==>
      |results| == |raws| && forall i :: 0 <= i < |raws| ==> results[i] == Normalize(raws[i])
  {
    var k := if topK.None? then TopK else topK.value;
    var request := SearchRequest(question, k);
    calls := [VectorSearch(request)];
    var response := search(request);
    if response.RequestFailed? {
      results := [];
      return;
    }
    if response.status == 200 {
      if response.body.NotJson? {
        results := [];
        return;
      }
      var raw := response.body.results.GetOr([]);
      results := FormatVectorResults(raw);
    } else {
      results := [];
    }
  }
}
