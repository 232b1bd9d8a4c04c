/**
 * The results page: it normalises the URL it was given, posts it to the analysis
 * route and keeps the answer, an error message or nothing; and it feeds the SEO and
 * GEO issues of an answer, tagged with where they came from, to the priority matrix.
 */
module ResultsPage {
  import opened Options
  import opened Sequences
  import opened UrlInput
  import PM = PriorityMatrix

  /** An issue as the page's results type describes it. */
  datatype IssueObject = IssueObject(title: string, description: string, impact: PM.Level, effort: PM.Level)

  /** The parts of an analysis answer the page acts on. */
  datatype AnalysisResults = AnalysisResults(
    score: int,
    issues: seq<IssueObject>,
    recommendations: seq<string>,
    geoScore: int,
    geoIssues: seq<IssueObject>,
    geoRecommendations: seq<string>)

  /**
   * What a request to the analysis route comes back with: a body carrying an error
   * message, a body carrying results, or nothing readable (the request or the JSON
   * decoding threw).
   */
  datatype Reply = ErrorBody(error: string) | ResultsBody(results: AnalysisResults) | Unreadable

  const FailedToAnalyze: string := "Failed to analyze. Please check the URL and try again."

  function TagSeo(issue: IssueObject): PM.PriorityIssue {
    PM.PriorityIssue(issue.title, issue.description, issue.impact, issue.effort, PM.Seo)
  }

  function TagGeo(issue: IssueObject): PM.PriorityIssue {
    PM.PriorityIssue(issue.title, issue.description, issue.impact, issue.effort, PM.Geo)
  }

  /** The issue a priority issue was made from, without its source tag. */
  function Untag(p: PM.PriorityIssue): IssueObject {
    IssueObject(p.title, p.description, p.impact, p.effort)
  }

  /**
   * The list handed to the priority matrix: every SEO issue tagged `seo`, then every
   * GEO issue tagged `geo`, each otherwise unchanged and in its own order.
   */
  function MatrixInput(seoIssues: seq<IssueObject>, geoIssues: seq<IssueObject>): (r: seq<PM.PriorityIssue>)
    ensures |r| == |seoIssues| + |geoIssues|
    ensures forall i :: 0 <= i < |seoIssues| ==> r[i].source == PM.Seo && Untag(r[i]) == seoIssues[i]
    ensures forall i :: 0 <= i < |geoIssues| ==>
      r[|seoIssues| + i].source == PM.Geo && Untag(r[|seoIssues| + i]) == geoIssues[i]
  {
    MapAt(seoIssues, TagSeo);
    MapAt(geoIssues, TagGeo);
    Map(seoIssues, TagSeo) + Map(geoIssues, TagGeo)
  }

  /** The tag does not take part in the placement: an issue lands in the same quadrant from either list. */
  lemma QuadrantIgnoresSource(issue: IssueObject)
    ensures PM.GetQuadrant(TagSeo(issue)) == PM.GetQuadrant(TagGeo(issue))
  {
  }

  /**
   * Each quadrant of the matrix holds that quadrant's SEO issues followed by its GEO
   * issues, and the quadrants together hold every issue of both lists.
   */
  lemma MatrixInputBuckets(seoIssues: seq<IssueObject>, geoIssues: seq<IssueObject>, q: PM.Quadrant)
    ensures PM.Bucket(MatrixInput(seoIssues, geoIssues), q) ==
      PM.Bucket(Map(seoIssues, TagSeo), q) + PM.Bucket(Map(geoIssues, TagGeo), q)
    ensures |PM.Bucket(MatrixInput(seoIssues, geoIssues), PM.QuickWin)|
          + |PM.Bucket(MatrixInput(seoIssues, geoIssues), PM.Strategic)|
          + |PM.Bucket(MatrixInput(seoIssues, geoIssues), PM.NiceToHave)|
          + |PM.Bucket(MatrixInput(seoIssues, geoIssues), PM.Avoid)| == |seoIssues| + |geoIssues|
  {
    PM.BucketAppend(Map(seoIssues, TagSeo), Map(geoIssues, TagGeo), q);
    PM.BucketsPartition(MatrixInput(seoIssues, geoIssues));
  }

  /**
   * The error and the results the page holds once `reply` is in: exactly one of the
   * two is present, the error being the body's own or the fixed failure message.
   */
  function Outcome(reply: Reply): (r: (Option<string>, Option<AnalysisResults>))
    ensures r.0.Some? <==> !reply.ResultsBody?
    ensures r.1.Some? <==> reply.ResultsBody?
    ensures reply.ErrorBody? ==> r.0 == Some(reply.error)
    ensures reply.ResultsBody? ==> r.1 == Some(reply.results)
    ensures reply.Unreadable? ==> r.0 == Some(FailedToAnalyze)
  {
    match reply
    case ErrorBody(message) => (Some(message), None)
    case ResultsBody(data) => (None, Some(data))
    case Unreadable => (Some(FailedToAnalyze), None)
  }

  /** The page's state: the URL field, the loading flag, the error, the results, and the URLs posted so far. */
  class Results {
    var url: string
    var loading: bool
    var error: Option<string>
    var results: Option<AnalysisResults>
    var requests: seq<string>

    constructor ()
      ensures url == "" && !loading && error == None && results == None && requests == []
    {
      url := "";
      loading := false;
      error := None;
      results := None;
      requests := [];
    }

    /**
     * Analyses `rawUrl`, or the URL field when none is given. A blank URL does
     * nothing. Otherwise the normalised URL is posted and, once the reply is in, the
     * page is no longer loading and holds exactly one of: the error the body
     * carries, the results it carries, or the fixed failure message.
     */
    method RunAnalysis(rawUrl: Option<string>, reply: Reply)
      modifies this
      ensures url == old(url)
      ensures NormalizeUrl(rawUrl.GetOr(old(url))) == "" ==>
        loading == old(loading) && error == old(error) && results == old(results) && requests == old(requests)
      ensures NormalizeUrl(rawUrl.GetOr(old(url))) != "" ==>
        && requests == old(requests) + [NormalizeUrl(rawUrl.GetOr(old(url)))]
        && HasHttpScheme(requests[|requests| - 1])
        && !loading
        && (error, results) == Outcome(reply)
    {
      var target := rawUrl.GetOr(url);
      var normalized := NormalizeUrl(target);
      if normalized == "" {
        return;
      }
      loading := true;
      error := None;
      results := None;
      requests := requests + [normalized];
      match reply {
        case ErrorBody(message) =>
          error := Some(message);
        case ResultsBody(data) =>
          results := Some(data);
        case Unreadable =>
          error := Some(FailedToAnalyze);
      }
      loading := false;
    }

    /**
     * On first render, a non-empty `url` query parameter fills the URL field and is
     * analysed; a blank one then changes nothing else.
     */
    method Mount(query: Option<string>, reply: Reply)
      modifies this
      ensures query.GetOr("") == "" ==>
        url == old(url) && loading == old(loading) && error == old(error) && results == old(results)
        && requests == old(requests)
      ensures query.GetOr("") != "" ==> url == query.value
      ensures query.GetOr("") != "" && NormalizeUrl(query.value) == "" ==>
        loading == old(loading) && error == old(error) && results == old(results) && requests == old(requests)
      ensures query.GetOr("") != "" && NormalizeUrl(query.value) != "" ==>
        && requests == old(requests) + [NormalizeUrl(query.value)]
        && HasHttpScheme(requests[|requests| - 1])
        && !loading
        && (error, results) == Outcome(reply)
    {
      var initialUrl := query.GetOr("");
      if initialUrl != "" {
        url := initialUrl;
        RunAnalysis(Some(initialUrl), reply);
      }
    }
  }
}
