/**
 * The SEO scoring rules of the analyze endpoint (POST /api/analyze).
 *
 * Fetching the page and querying its HTML are outside the model: the values the
 * selector queries extract are given as a `Signals` record. From them the endpoint
 * starts at a score of 100, checks the title, the meta description, the Open Graph
 * tags, the H1 headings and the image alt attributes in that order, subtracts a
 * fixed penalty for each violated rule, appends one issue text and one
 * recommendation text per violation, and clamps the score at 0.
 */
module Analyze {
  import opened Options
  import opened Decimal
  import opened Sequences

  /** What the HTML queries extract from the fetched page; a missing tag is "". */
  datatype Signals = Signals(
    title: string,
    description: string,
    ogTitle: string,
    ogDescription: string,
    h1Count: nat,
    h2Count: nat,
    imagesWithoutAlt: nat,
    totalImages: nat)

  /** The JSON body of a successful response. */
  datatype Report = Report(
    score: int,
    title: string,
    titleLength: nat,
    description: string,
    descriptionLength: nat,
    ogTitle: string,
    ogDescription: string,
    h1Count: nat,
    h2Count: nat,
    imagesWithoutAlt: nat,
    totalImages: nat,
    issues: seq<string>,
    recommendations: seq<string>)

  datatype Response =
    | Success(report: Report)
    | Failure(status: nat, error: string)

  /** One violated rule. */
  datatype Finding =
    | MissingTitle | ShortTitle | LongTitle
    | MissingDescription | ShortDescription | LongDescription
    | MissingOpenGraph
    | NoH1 | MultipleH1(count: nat)
    | MissingAlt(count: nat)

  const ShortTitleBelow := 30
  const LongTitleAbove := 60
  const ShortDescriptionBelow := 120
  const LongDescriptionAbove := 160
  const MultipleH1Prefix := "Multiple H1 headings found ("
  const MissingAltSuffix := " images missing alt text"

  function Penalty(f: Finding): nat {
    match f
    case MissingTitle => 15
    case ShortTitle => 10
    case LongTitle => 5
    case MissingDescription => 15
    case ShortDescription => 10
    case LongDescription => 5
    case MissingOpenGraph => 10
    case NoH1 => 10
    case MultipleH1(_) => 5
    case MissingAlt(_) => 10
  }

  /** Position of the rule that produces `f` in the order the rules are checked. */
  function RuleRank(f: Finding): nat {
    match f
    case MissingTitle | ShortTitle | LongTitle => 0
    case MissingDescription | ShortDescription | LongDescription => 1
    case MissingOpenGraph => 2
    case NoH1 | MultipleH1(_) => 3
    case MissingAlt(_) => 4
  }

  const IssueMissingTitle := "Missing title tag"
  const IssueShortTitle := "Title is too short (should be 50-60 characters)"
  const IssueLongTitle := "Title is too long (may be truncated in search results)"
  const IssueMissingDescription := "Missing meta description"
  const IssueShortDescription := "Meta description is too short"
  const IssueLongDescription := "Meta description is too long"
  const IssueMissingOpenGraph := "Missing Open Graph tags for social sharing"
  const IssueNoH1 := "No H1 heading found"

  function IssueText(f: Finding): string {
    match f
    case MissingTitle => IssueMissingTitle
    case ShortTitle => IssueShortTitle
    case LongTitle => IssueLongTitle
    case MissingDescription => IssueMissingDescription
    case ShortDescription => IssueShortDescription
    case LongDescription => IssueLongDescription
    case MissingOpenGraph => IssueMissingOpenGraph
    case NoH1 => IssueNoH1
    case MultipleH1(n) => MultipleH1Prefix + ToDecimal(n) + ")"
    case MissingAlt(n) => ToDecimal(n) + MissingAltSuffix
  }

  const AdviceMissingTitle := "Add a descriptive title tag"
  const AdviceShortTitle := "Expand your title to 50-60 characters for better visibility"
  const AdviceLongTitle := "Shorten title to 50-60 characters"
  const AdviceMissingDescription := "Add a compelling meta description (150-160 characters)"
  const AdviceShortDescription := "Expand description to 150-160 characters"
  const AdviceLongDescription := "Shorten description to 150-160 characters"
  const AdviceMissingOpenGraph := "Add Open Graph meta tags for better social media previews"
  const AdviceNoH1 := "Add exactly one H1 heading with your main keyword"
  const AdviceMultipleH1 := "Use only one H1 heading per page"
  const AdviceMissingAlt := "Add descriptive alt text to all images for accessibility and SEO"

  function RecommendationText(f: Finding): string {
    match f
    case MissingTitle => AdviceMissingTitle
    case ShortTitle => AdviceShortTitle
    case LongTitle => AdviceLongTitle
    case MissingDescription => AdviceMissingDescription
    case ShortDescription => AdviceShortDescription
    case LongDescription => AdviceLongDescription
    case MissingOpenGraph => AdviceMissingOpenGraph
    case NoH1 => AdviceNoH1
    case MultipleH1(_) => AdviceMultipleH1
    case MissingAlt(_) => AdviceMissingAlt
  }

  // The rules, one per field. Title and description are tiered: only the first
  // matching tier (missing, then short, then long) applies.

  function TitleFindings(title: string): seq<Finding> {
    if title == "" then [MissingTitle]
    else if |title| < ShortTitleBelow then [ShortTitle]
    else if |title| > LongTitleAbove then [LongTitle]
    else []
  }

  function DescriptionFindings(description: string): seq<Finding> {
    if description == "" then [MissingDescription]
    else if |description| < ShortDescriptionBelow then [ShortDescription]
    else if |description| > LongDescriptionAbove then [LongDescription]
    else []
  }

  function OpenGraphFindings(ogTitle: string, ogDescription: string): seq<Finding> {
    if ogTitle == "" || ogDescription == "" then [MissingOpenGraph] else []
  }

  function HeadingFindings(h1Count: nat): seq<Finding> {
    if h1Count == 0 then [NoH1] else if h1Count > 1 then [MultipleH1(h1Count)] else []
  }

  function AltFindings(imagesWithoutAlt: nat): seq<Finding> {
    if imagesWithoutAlt > 0 then [MissingAlt(imagesWithoutAlt)] else []
  }

  /**
   * The violated rules of a page, in the order the endpoint checks them: at most one
   * per rule, and none exactly when every rule is met.
   */
  function Findings(s: Signals): (r: seq<Finding>)
    ensures |r| <= 5
    ensures r == [] <==>
      && 30 <= |s.title| <= 60
      && 120 <= |s.description| <= 160
      && s.ogTitle != "" && s.ogDescription != ""
      && s.h1Count == 1
      && s.imagesWithoutAlt == 0
  {
    TitleFindings(s.title)
      + DescriptionFindings(s.description)
      + OpenGraphFindings(s.ogTitle, s.ogDescription)
      + HeadingFindings(s.h1Count)
      + AltFindings(s.imagesWithoutAlt)
  }

  /** Sum of the penalties of `fs`. */
  function Deduction(fs: seq<Finding>): nat {
    if fs == [] then 0 else Penalty(fs[0]) + Deduction(fs[1..])
  }

  function Max(a: int, b: int): int {
    if a >= b then a else b
  }

  lemma {:induction false} DeductionAppend(a: seq<Finding>, b: seq<Finding>)
    ensures Deduction(a + b) == Deduction(a) + Deduction(b)
  {
    if a == [] {
      assert a + b == b;
    } else {
      assert (a + b)[1..] == a[1..] + b;
      DeductionAppend(a[1..], b);
    }
  }

  /** The total deduction is the sum over the five rules, each of which adds at most one finding. */
  lemma DeductionByRule(s: Signals)
    ensures Deduction(Findings(s)) ==
      Deduction(TitleFindings(s.title)) + Deduction(DescriptionFindings(s.description))
      + Deduction(OpenGraphFindings(s.ogTitle, s.ogDescription))
      + Deduction(HeadingFindings(s.h1Count)) + Deduction(AltFindings(s.imagesWithoutAlt))
  {
    var t, d, o, h, a := TitleFindings(s.title), DescriptionFindings(s.description),
      OpenGraphFindings(s.ogTitle, s.ogDescription), HeadingFindings(s.h1Count),
      AltFindings(s.imagesWithoutAlt);
    DeductionAppend(t, d);
    DeductionAppend(t + d, o);
    DeductionAppend(t + d + o, h);
    DeductionAppend(t + d + o + h, a);
  }

  /**
   * The largest possible deduction is 15 + 15 + 10 + 10 + 10 = 60, so the score
   * before clamping already lies in [40, 100] and the clamp at 0 never changes it.
   */
  lemma ScoreBounds(s: Signals)
    ensures 40 <= 100 - Deduction(Findings(s)) <= 100
    ensures Max(0, 100 - Deduction(Findings(s))) == 100 - Deduction(Findings(s))
  {
    DeductionByRule(s);
    DeductionOfAtMostOne(TitleFindings(s.title));
    DeductionOfAtMostOne(DescriptionFindings(s.description));
    DeductionOfAtMostOne(OpenGraphFindings(s.ogTitle, s.ogDescription));
    DeductionOfAtMostOne(HeadingFindings(s.h1Count));
    DeductionOfAtMostOne(AltFindings(s.imagesWithoutAlt));
  }

  lemma DeductionOfAtMostOne(fs: seq<Finding>)
    requires |fs| <= 1
    ensures Deduction(fs) == if fs == [] then 0 else Penalty(fs[0])
  {
    if fs != [] {
      assert fs[1..] == [];
    }
  }

  /**
   * The running state of the scoring section after `found` was recorded on top of
   * `(score, issues, recommendations)`: its penalties subtracted and its texts appended.
   */
  ghost predicate Recorded(found: seq<Finding>,
                           score: int, issues: seq<string>, recommendations: seq<string>,
                           score': int, issues': seq<string>, recommendations': seq<string>)
  {
    && score' == score - Deduction(found)
    && issues' == issues + Map(found, IssueText)
    && recommendations' == recommendations + Map(found, RecommendationText)
  }

  lemma RecordedOne(f: Finding, score: int, issues: seq<string>, recommendations: seq<string>)
    ensures Recorded([f], score, issues, recommendations,
                     score - Penalty(f), issues + [IssueText(f)], recommendations + [RecommendationText(f)])
  {
    assert [f][1..] == [];
    assert Map([f], IssueText) == Map([], IssueText) + [IssueText(f)];
    assert Map([f], RecommendationText) == Map([], RecommendationText) + [RecommendationText(f)];
  }

  lemma RecordedNone(score: int, issues: seq<string>, recommendations: seq<string>)
    ensures Recorded([], score, issues, recommendations, score, issues, recommendations)
  {
  }

  /** Recording `a` and then `b` is recording `a + b`. */
  lemma RecordedChain(a: seq<Finding>, b: seq<Finding>,
                      s0: int, i0: seq<string>, r0: seq<string>,
                      s1: int, i1: seq<string>, r1: seq<string>,
                      s2: int, i2: seq<string>, r2: seq<string>)
    requires Recorded(a, s0, i0, r0, s1, i1, r1)
    requires Recorded(b, s1, i1, r1, s2, i2, r2)
    ensures Recorded(a + b, s0, i0, r0, s2, i2, r2)
  {
    DeductionAppend(a, b);
    MapAppend(a, b, IssueText);
    MapAppend(a, b, RecommendationText);
  }

  // The rule checks of the scoring section, each applied to the running score and lists.

  method CheckTitle(title: string, score: int, issues: seq<string>, recommendations: seq<string>)
    returns (score': int, issues': seq<string>, recommendations': seq<string>)
    ensures Recorded(TitleFindings(title), score, issues, recommendations, score', issues', recommendations')
  {
    score', issues', recommendations' := score, issues, recommendations;
    if title == "" {
      RecordedOne(MissingTitle, score, issues, recommendations);
      score' := score' - 15;
      issues' := issues' + [IssueText(MissingTitle)];
      recommendations' := recommendations' + [RecommendationText(MissingTitle)];
    } else if |title| < 30 {
      RecordedOne(ShortTitle, score, issues, recommendations);
      score' := score' - 10;
      issues' := issues' + [IssueText(ShortTitle)];
      recommendations' := recommendations' + [RecommendationText(ShortTitle)];
    } else if |title| > 60 {
      RecordedOne(LongTitle, score, issues, recommendations);
      score' := score' - 5;
      issues' := issues' + [IssueText(LongTitle)];
      recommendations' := recommendations' + [RecommendationText(LongTitle)];
    } else {
      RecordedNone(score, issues, recommendations);
    }
  }

  method CheckDescription(description: string, score: int, issues: seq<string>, recommendations: seq<string>)
    returns (score': int, issues': seq<string>, recommendations': seq<string>)
    ensures Recorded(DescriptionFindings(description), score, issues, recommendations, score', issues', recommendations')
  {
    score', issues', recommendations' := score, issues, recommendations;
    if description == "" {
      RecordedOne(MissingDescription, score, issues, recommendations);
      score' := score' - 15;
      issues' := issues' + [IssueText(MissingDescription)];
      recommendations' := recommendations' + [RecommendationText(MissingDescription)];
    } else if |description| < 120 {
      RecordedOne(ShortDescription, score, issues, recommendations);
      score' := score' - 10;
      issues' := issues' + [IssueText(ShortDescription)];
      recommendations' := recommendations' + [RecommendationText(ShortDescription)];
    } else if |description| > 160 {
      RecordedOne(LongDescription, score, issues, recommendations);
      score' := score' - 5;
      issues' := issues' + [IssueText(LongDescription)];
      recommendations' := recommendations' + [RecommendationText(LongDescription)];
    } else {
      RecordedNone(score, issues, recommendations);
    }
  }

  method CheckOpenGraph(ogTitle: string, ogDescription: string, score: int, issues: seq<string>, recommendations: seq<string>)
    returns (score': int, issues': seq<string>, recommendations': seq<string>)
    ensures Recorded(OpenGraphFindings(ogTitle, ogDescription), score, issues, recommendations, score', issues', recommendations')
  {
    score', issues', recommendations' := score, issues, recommendations;
    if ogTitle == "" || ogDescription == "" {
      RecordedOne(MissingOpenGraph, score, issues, recommendations);
      score' := score' - 10;
      issues' := issues' + [IssueText(MissingOpenGraph)];
      recommendations' := recommendations' + [RecommendationText(MissingOpenGraph)];
    } else {
      RecordedNone(score, issues, recommendations);
    }
  }

  method CheckHeadings(h1Count: nat, score: int, issues: seq<string>, recommendations: seq<string>)
    returns (score': int, issues': seq<string>, recommendations': seq<string>)
    ensures Recorded(HeadingFindings(h1Count), score, issues, recommendations, score', issues', recommendations')
  {
    score', issues', recommendations' := score, issues, recommendations;
    if h1Count == 0 {
      RecordedOne(NoH1, score, issues, recommendations);
      score' := score' - 10;
      issues' := issues' + [IssueText(NoH1)];
      recommendations' := recommendations' + [RecommendationText(NoH1)];
    } else if h1Count > 1 {
      RecordedOne(MultipleH1(h1Count), score, issues, recommendations);
      score' := score' - 5;
      issues' := issues' + [IssueText(MultipleH1(h1Count))];
      recommendations' := recommendations' + [RecommendationText(MultipleH1(h1Count))];
    } else {
      RecordedNone(score, issues, recommendations);
    }
  }

  method CheckAltText(imagesWithoutAlt: nat, score: int, issues: seq<string>, recommendations: seq<string>)
    returns (score': int, issues': seq<string>, recommendations': seq<string>)
    ensures Recorded(AltFindings(imagesWithoutAlt), score, issues, recommendations, score', issues', recommendations')
  {
    score', issues', recommendations' := score, issues, recommendations;
    if imagesWithoutAlt > 0 {
      RecordedOne(MissingAlt(imagesWithoutAlt), score, issues, recommendations);
      score' := score' - 10;
      issues' := issues' + [IssueText(MissingAlt(imagesWithoutAlt))];
      recommendations' := recommendations' + [RecommendationText(MissingAlt(imagesWithoutAlt))];
    } else {
      RecordedNone(score, issues, recommendations);
    }
  }

  /**
   * The scoring section of the endpoint: starting from 100 and two empty lists, the
   * rules are checked in order, each subtracting its penalty and appending its issue
   * and recommendation in lockstep; then the score is clamped at 0.
   */
  method ScoreSignals(s: Signals) returns (score: int, issues: seq<string>, recommendations: seq<string>)
    ensures score == Max(0, 100 - Deduction(Findings(s)))
    ensures 40 <= score <= 100
    ensures issues == Map(Findings(s), IssueText)
    ensures recommendations == Map(Findings(s), RecommendationText)
  {
    var t, d, o, h, a := TitleFindings(s.title), DescriptionFindings(s.description),
      OpenGraphFindings(s.ogTitle, s.ogDescription), HeadingFindings(s.h1Count),
      AltFindings(s.imagesWithoutAlt);
    score, issues, recommendations := 100, [], [];
    var s1, i1, r1 := CheckTitle(s.title, score, issues, recommendations);
    var s2, i2, r2 := CheckDescription(s.description, s1, i1, r1);
    RecordedChain(t, d, score, issues, recommendations, s1, i1, r1, s2, i2, r2);
    var s3, i3, r3 := CheckOpenGraph(s.ogTitle, s.ogDescription, s2, i2, r2);
    RecordedChain(t + d, o, score, issues, recommendations, s2, i2, r2, s3, i3, r3);
    var s4, i4, r4 := CheckHeadings(s.h1Count, s3, i3, r3);
    RecordedChain(t + d + o, h, score, issues, recommendations, s3, i3, r3, s4, i4, r4);
    var s5, i5, r5 := CheckAltText(s.imagesWithoutAlt, s4, i4, r4);
    RecordedChain(t + d + o + h, a, score, issues, recommendations, s4, i4, r4, s5, i5, r5);
    ScoreBounds(s);
    score, issues, recommendations := s5, i5, r5;
    // The clamp at zero.
    score := Max(0, score);
  }

  /**
   * The endpoint. `url` is the `url` property of the JSON body (None when absent);
   * `page` stands for what fetching and parsing that URL would extract.
   */
  method Post(url: Option<string>, page: Signals) returns (r: Response)
    ensures r.Failure? <==> url == None || url == Some("")
    ensures r.Failure? ==> r.status == 400 && r.error == "URL is required"
    ensures r.Success? ==>
      && r.report.score == 100 - Deduction(Findings(page))
      && r.report.title == page.title && r.report.titleLength == |page.title|
      && r.report.description == page.description && r.report.descriptionLength == |page.description|
      && r.report.ogTitle == page.ogTitle && r.report.ogDescription == page.ogDescription
      && r.report.h1Count == page.h1Count && r.report.h2Count == page.h2Count
      && r.report.imagesWithoutAlt == page.imagesWithoutAlt && r.report.totalImages == page.totalImages
      && |r.report.issues| == |r.report.recommendations| == |Findings(page)|
      && (forall i :: 0 <= i < |r.report.issues| ==>
            r.report.issues[i] == IssueText(Findings(page)[i])
            && r.report.recommendations[i] == RecommendationText(Findings(page)[i]))
  {
    if url == None || url == Some("") {
      return Failure(400, "URL is required");
    }
    var score, issues, recommendations := ScoreSignals(page);
    MapAt(Findings(page), IssueText);
    MapAt(Findings(page), RecommendationText);
    r := Success(Report(
      score,
      page.title, |page.title|,
      page.description, |page.description|,
      page.ogTitle, page.ogDescription,
      page.h1Count, page.h2Count,
      page.imagesWithoutAlt, page.totalImages,
      issues, recommendations));
  }

  // Properties of the rule set.

  /** The findings come in strictly increasing rule order and all rank below `bound`. */
  ghost predicate RankedBelow(fs: seq<Finding>, bound: nat) {
    && (forall i, j :: 0 <= i < j < |fs| ==> RuleRank(fs[i]) < RuleRank(fs[j]))
    && (forall i :: 0 <= i < |fs| ==> RuleRank(fs[i]) < bound)
  }

  /** Appending at most one finding of rank `k` to findings ranked below `k` keeps the order. */
  lemma AppendRanked(fs: seq<Finding>, next: seq<Finding>, k: nat)
    requires RankedBelow(fs, k)
    requires |next| <= 1 && (next != [] ==> RuleRank(next[0]) == k)
    ensures RankedBelow(fs + next, k + 1)
  {
    var r := fs + next;
    forall i, j | 0 <= i < j < |r| ensures RuleRank(r[i]) < RuleRank(r[j]) {
      assert r[i] == fs[i];
      if j < |fs| {
        assert r[j] == fs[j];
      } else {
        assert r[j] == next[0];
      }
    }
    forall i | 0 <= i < |r| ensures RuleRank(r[i]) < k + 1 {
      if i < |fs| {
        assert r[i] == fs[i];
      } else {
        assert r[i] == next[0];
      }
    }
  }

  /** The findings of the rule checked `k`-th. */
  function RuleFindings(s: Signals, k: nat): seq<Finding>
    requires k < 5
  {
    if k == 0 then TitleFindings(s.title)
    else if k == 1 then DescriptionFindings(s.description)
    else if k == 2 then OpenGraphFindings(s.ogTitle, s.ogDescription)
    else if k == 3 then HeadingFindings(s.h1Count)
    else AltFindings(s.imagesWithoutAlt)
  }

  /** The findings of the first `n` rules. */
  function FirstRules(s: Signals, n: nat): seq<Finding>
    requires n <= 5
  {
    if n == 0 then [] else FirstRules(s, n - 1) + RuleFindings(s, n - 1)
  }

  /** Each rule adds at most one finding, of that rule's rank. */
  lemma RuleShape(s: Signals, k: nat)
    requires k < 5
    ensures |RuleFindings(s, k)| <= 1
    ensures RuleFindings(s, k) != [] ==> RuleRank(RuleFindings(s, k)[0]) == k
  {
  }

  lemma {:induction false} FirstRulesRanked(s: Signals, n: nat)
    requires n <= 5
    ensures RankedBelow(FirstRules(s, n), n)
    ensures |FirstRules(s, n)| <= n
  {
    if n > 0 {
      FirstRulesRanked(s, n - 1);
      RuleShape(s, n - 1);
      AppendRanked(FirstRules(s, n - 1), RuleFindings(s, n - 1), n - 1);
    }
  }

  /** Within each field at most one tier fires, and the findings come out in rule order. */
  lemma FindingsInRuleOrder(s: Signals)
    ensures forall i, j :: 0 <= i < j < |Findings(s)| ==> RuleRank(Findings(s)[i]) < RuleRank(Findings(s)[j])
    ensures |Findings(s)| <= 5
  {
    FirstRulesRanked(s, 5);
    var t, d, o, h := TitleFindings(s.title), DescriptionFindings(s.description),
      OpenGraphFindings(s.ogTitle, s.ogDescription), HeadingFindings(s.h1Count);
    assert FirstRules(s, 1) == t;
    assert FirstRules(s, 2) == t + d;
    assert FirstRules(s, 3) == t + d + o;
    assert FirstRules(s, 4) == t + d + o + h;
    assert FirstRules(s, 5) == Findings(s);
  }

  /** Title tiers at their boundaries: lengths 30 to 60 are free, 29 and 61 are not, empty costs most. */
  lemma TitleBoundaries(title: string)
    ensures title == "" ==> Deduction(TitleFindings(title)) == 15
    ensures 0 < |title| < 30 ==> Deduction(TitleFindings(title)) == 10
    ensures |title| > 60 ==> Deduction(TitleFindings(title)) == 5
    ensures TitleFindings(title) == [] <==> 30 <= |title| <= 60
  {
  }

  /** Description tiers: lengths 120 to 160 inclusive are free, 1 to 119 cost 10, above 160 cost 5. */
  lemma DescriptionBoundaries(description: string)
    ensures description == "" ==> Deduction(DescriptionFindings(description)) == 15
    ensures 0 < |description| < 120 ==> Deduction(DescriptionFindings(description)) == 10
    ensures |description| > 160 ==> Deduction(DescriptionFindings(description)) == 5
    ensures DescriptionFindings(description) == [] <==> 120 <= |description| <= 160
  {
  }

  /**
   * A page has no issues exactly when every rule is met, and that is exactly when
   * it scores 100.
   */
  lemma {:induction false} PerfectPage(s: Signals)
    ensures Findings(s) == [] <==>
      && 30 <= |s.title| <= 60
      && 120 <= |s.description| <= 160
      && s.ogTitle != "" && s.ogDescription != ""
      && s.h1Count == 1
      && s.imagesWithoutAlt == 0
    ensures Findings(s) == [] <==> 100 - Deduction(Findings(s)) == 100
  {
    DeductionByRule(s);
    if Findings(s) != [] {
      var fs := Findings(s);
      assert Deduction(fs) >= Penalty(fs[0]) > 0;
    }
  }

  /**
   * A page without title, description, Open Graph tags and H1, with images lacking
   * alt text, gets all five penalties: score 40 with five issues.
   */
  lemma EmptyPage(s: Signals)
    requires s.title == "" && s.description == "" && s.ogTitle == "" && s.h1Count == 0
    requires s.imagesWithoutAlt > 0
    ensures 100 - Deduction(Findings(s)) == 40
    ensures Findings(s) == [MissingTitle, MissingDescription, MissingOpenGraph, NoH1, MissingAlt(s.imagesWithoutAlt)]
  {
    DeductionByRule(s);
  }

  /** The multiple-H1 issue text carries the heading count, which can be read back from it. */
  lemma MultipleH1TextCarriesCount(n: nat)
    ensures var t := IssueText(MultipleH1(n));
      && |t| > |MultipleH1Prefix| + 1
      && t[..|MultipleH1Prefix|] == MultipleH1Prefix
      && t[|t| - 1] == ')'
      && (forall i :: |MultipleH1Prefix| <= i < |t| - 1 ==> IsDigit(t[i]))
      && ValueOf(t[|MultipleH1Prefix|..|t| - 1]) == n
  {
    var t := IssueText(MultipleH1(n));
    assert t[|MultipleH1Prefix|..|t| - 1] == ToDecimal(n);
    ValueOfToDecimal(n);
  }

  /** The missing-alt issue text starts with the number of images lacking alt text. */
  lemma MissingAltTextCarriesCount(n: nat)
    ensures var t := IssueText(MissingAlt(n));
      var k := |t| - |MissingAltSuffix|;
      && 0 < k
      && t[k..] == MissingAltSuffix
      && (forall i :: 0 <= i < k ==> IsDigit(t[i]))
      && ValueOf(t[..k]) == n
  {
    var t := IssueText(MissingAlt(n));
    assert t[..|t| - |MissingAltSuffix|] == ToDecimal(n);
    ValueOfToDecimal(n);
  }
}
