# SEO checker: a Dafny model of its scoring, priority matrix, pages and blog store

This project models the core of the SEO checker web application. The model has these parts:

- **The analysis endpoint** (`POST /api/analyze`, module `Analyze`). It rejects a request without a URL with status 400. Otherwise it scores the fetched page's on-page signals: it starts at 100 and checks five rules in order (title length, meta description length, Open Graph tags, H1 count, image alt text). Each violated rule subtracts a fixed penalty and appends one issue text and one recommendation text. The score is then clamped at 0.
  - The scoring section is imperative: one method per rule, run in sequence by `ScoreSignals`.
  - It is proved against a specification function, `Findings`, the list of violated rules.
  - `Decimal` renders the numbers embedded in two of the issue texts.
- **The priority matrix** (module `PriorityMatrix`). It places each issue in one of four quadrants by impact and effort, then buckets the issues per quadrant in input order. It shows the non-empty buckets in the quadrants' fixed order, or an empty state when there are no issues.
  - Grouping is a loop over the issues that fills a map, as the component does.
  - The ordering uses a stable sort (module `Sorting`), as `Array.prototype.sort` is.
- **URL normalisation** (module `UrlInput`). The home page and the results page carry identical `normalizeUrl` functions, which this module defines once. Normalisation trims the input, turns a blank input into `""`, and prefixes `https://` unless the input already starts with `http://` or `https://` in any letter case.
- **The results page** (modules `ScoreBands` and `ResultsPage`):
  - the colour and label bands of a score;
  - the page state as a class whose `RunAnalysis` method posts the normalised URL and stores the error or the results;
  - the merged SEO and GEO issue list handed to the priority matrix.
- **The home page** (module `HomePage`): a class whose `GoToResults` method navigates to the results page for the normalised URL.
- **The post store** (module `Posts`) and **the blog index** (module `BlogPage`):
  - Post slugs come from the `.mdx` files of the posts directory.
  - A post is read by its slug.
  - All post summaries are listed latest first.
  - The blog index shows the first two featured posts and, as latest posts, the non-featured ones.

The file system, the HTTP fetch and the HTML parser are parameters of the model:
- a directory is absent, or present with its listing and its parsed documents;
- a page is given by the values the selector queries return;
- a reply to the results page is an error body, a results body, or nothing readable.

Two facts the model proves are worth calling out:
- The analysis score can never fall below 40 (the five penalties add up to at most 60). So the clamp at 0 never takes effect, and the on-page score's label is never "Poor" (`Analyze.ScoreBounds`, `ScoreBands.SeoScoreNeverPoor`).
- The blog index's fallback choice between the latest posts and all posts makes no difference: with no featured post, the non-featured posts already are all the posts (`BlogPage.FallbackPosts`).

## Model

| member | source | states |
|---|---|---|
| Analyze.CheckTitle | app/api/analyze/route.js:38-50 | An empty title costs 15, a title under 30 characters costs 10, one over 60 costs 5; the matching issue and recommendation texts are appended and nothing else changes |
| Analyze.CheckDescription | app/api/analyze/route.js:53-65 | An empty meta description costs 15, one under 120 characters 10, one over 160 characters 5, each with its two texts |
| Analyze.CheckOpenGraph | app/api/analyze/route.js:68-72 | A missing og:title or og:description costs 10 and records the Open Graph texts |
| Analyze.CheckHeadings | app/api/analyze/route.js:75-83 | No H1 costs 10; more than one costs 5 and the issue text carries the count |
| Analyze.CheckAltText | app/api/analyze/route.js:86-90 | Any image without alt text costs 10 and the issue text starts with the number of such images |
| Analyze.ScoreSignals | app/api/analyze/route.js:33-93 | The score is 100 minus the penalties of the violated rules, clamped at 0, and lies in [40, 100]; issues and recommendations are the texts of the violated rules in rule order |
| Analyze.Post | app/api/analyze/route.js:8-109 | A missing or empty URL gives status 400 with "URL is required"; otherwise the body echoes the signals, gives the title and description lengths, the score and one issue per recommendation, position by position |
| Analyze.ScoreBounds | app/api/analyze/route.js:33-93 | The deductions total at most 60, so the score before clamping lies in [40, 100] and the clamp at 0 never changes it |
| Analyze.DeductionByRule | app/api/analyze/route.js:33-90 | The total deduction is the sum of the five rules' deductions |
| Analyze.Findings | app/api/analyze/route.js:37-90 | At most one finding per rule, so at most five, and none exactly when the title has 30 to 60 characters, the description 120 to 160, both Open Graph tags are present, there is exactly one H1 and no image lacks alt text |
| Analyze.FindingsInRuleOrder | app/api/analyze/route.js:37-90 | At most one tier of each rule fires, so there are at most five issues, and they come in rule order |
| Analyze.TitleBoundaries | app/api/analyze/route.js:38-50 | The title rule is silent exactly for lengths 30 to 60 inclusive, and costs 15, 10 or 5 for empty, short or long titles |
| Analyze.DescriptionBoundaries | app/api/analyze/route.js:53-65 | The description rule is silent exactly for lengths 120 to 160 inclusive, and costs 15, 10 or 5 for empty, short or long descriptions |
| Analyze.PerfectPage | app/api/analyze/route.js:33-93 | A page has no issues exactly when every rule is met, and exactly then it scores 100 |
| Analyze.EmptyPage | app/api/analyze/route.js:33-93 | A page with no title, description, Open Graph tags or H1, and with images lacking alt text, scores 40 with all five issues |
| Analyze.MultipleH1TextCarriesCount | app/api/analyze/route.js:81 | The multiple-H1 issue text is the fixed prefix, the heading count in decimal and ")", and the count reads back from it |
| Analyze.MissingAltTextCarriesCount | app/api/analyze/route.js:88 | The missing-alt issue text is the image count in decimal followed by the fixed suffix, and the count reads back from it |
| Decimal.ToDecimal | app/api/analyze/route.js:81 | A count renders as a non-empty string of digits without a leading zero |
| Decimal.ValueOfToDecimal | app/api/analyze/route.js:88 | Reading the decimal rendering of a count gives the count back |
| Decimal.ToDecimalInjective | app/api/analyze/route.js:81 | Different counts give different texts |
| Sorting.SortProperties | lib/posts.ts:55-59 | The sort orders by its key, keeps every element with its multiplicity, and keeps elements with equal keys in their original order |
| Sorting.SortOfSorted | components/priority-matrix.tsx:96-98 | Sorting a list already in key order leaves it unchanged |
| PriorityMatrix.Order | components/priority-matrix.tsx:32-81 | The quadrant orders are 1 to 4 in the order the quadrants are declared |
| PriorityMatrix.GetQuadrant | components/priority-matrix.tsx:22-30 | Quick win iff impact is not low and effort is not high; strategic iff impact is not low and effort is high; nice-to-have iff impact is low and effort is not high; avoid iff both are the worse case |
| PriorityMatrix.BucketContents | components/priority-matrix.tsx:91-94 | A bucket holds exactly the issues of its quadrant and keeps their input order |
| PriorityMatrix.BucketsPartition | components/priority-matrix.tsx:84-94 | The four buckets together hold every issue exactly as often as the input does |
| PriorityMatrix.GroupIssues | components/priority-matrix.tsx:84-94 | After the pass every quadrant has an entry, holding exactly that quadrant's bucket |
| PriorityMatrix.NonEmpty | components/priority-matrix.tsx:96-97 | The filter keeps exactly the entries with at least one issue, in their order |
| PriorityMatrix.Quadrants | components/priority-matrix.tsx:96-98 | The cards are exactly the non-empty buckets with their own issues, every non-empty bucket appears, and the cards are in strictly increasing quadrant order, so the sort leaves the filtered entries as they are |
| PriorityMatrix.Render | components/priority-matrix.tsx:100-108 | The empty state shows exactly when there are no issues; otherwise the legend counts each quadrant's issues and the cards are the sorted non-empty buckets |
| UrlInput.TrimStart | app/page.tsx:23 | Removes exactly the leading whitespace and line terminators |
| UrlInput.TrimEnd | app/page.tsx:23 | Removes exactly the trailing whitespace and line terminators |
| UrlInput.Trim | app/page.tsx:23 | The result is a contiguous piece of the input with only whitespace before and after it in the input, and it neither starts nor ends with whitespace |
| UrlInput.TrimOfTrimmed | app/page.tsx:23 | Trimming text that neither starts nor ends with whitespace changes nothing |
| UrlInput.TrimEmpty | app/page.tsx:23-24 | Trimming leaves nothing exactly when the input is all whitespace |
| UrlInput.HttpsPrefixHasScheme | app/page.tsx:26 | Text with `https://` put in front passes the scheme test |
| UrlInput.NormalizeUrl | app/page.tsx:22-29 | Blank input gives ""; input whose trimmed form has an HTTP(S) scheme gives that trimmed form; other input gives `https://` plus the trimmed form; a non-empty result always has a scheme |
| UrlInput.HasHttpScheme | app/page.tsx:25 | The regular expression read character by character: `h`, `t`, `t`, `p` in either case, an optional `s` in either case, then `://`; its reading as a case-insensitive prefix test is the next row |
| UrlInput.HasHttpSchemeIgnoresCase | app/page.tsx:25 | The scheme test holds exactly when the text starts with `http://` or `https://` once its ASCII letters are lower-cased |
| UrlInput.NormalizeIdempotent | app/results/page.tsx:118-125 | Normalising an already normalised URL, as the results page does with the home page's target, changes nothing |
| ScoreBands.ScoreColor | app/results/page.tsx:81-85 | Green text iff the score is at least 80, yellow iff 60 to 79, red iff below 60 |
| ScoreBands.ScoreBgColor | app/results/page.tsx:87-91 | Green panel iff at least 80, yellow iff 60 to 79, red iff below 60 |
| ScoreBands.ScoreLabel | app/results/page.tsx:93-98 | Excellent iff at least 80, Good iff 60 to 79, Needs Work iff 40 to 59, Poor iff below 40 |
| ScoreBands.LabelMonotone | app/results/page.tsx:93-98 | A higher score never gets a worse label |
| ScoreBands.PanelFollowsColor | app/results/page.tsx:81-91 | Two scores share a text colour exactly when they share a panel colour |
| ScoreBands.LabelRefinesColor | app/results/page.tsx:81-98 | Excellent is exactly green, Good exactly yellow, and Needs Work and Poor exactly red |
| ScoreBands.SeoScoreNeverPoor | app/results/page.tsx:93-98 | The score the analysis endpoint computes is never labelled Poor, and a page meeting every rule is Excellent |
| ResultsPage.MatrixInput | app/results/page.tsx:717-731 | The matrix gets every SEO issue tagged seo, then every GEO issue tagged geo, each otherwise unchanged and in order |
| ResultsPage.QuadrantIgnoresSource | components/priority-matrix.tsx:22-30 | An issue lands in the same quadrant whichever list it came from |
| ResultsPage.MatrixInputBuckets | app/results/page.tsx:717-731 | Each quadrant holds its SEO issues followed by its GEO issues, and the quadrants hold all issues of both lists |
| ResultsPage.Outcome | app/results/page.tsx:136-152 | Once a reply is in, exactly one of error and results is present: the body's error, the body's results, or the fixed failure message when the request or the decoding throws |
| ResultsPage.Results.constructor | app/results/page.tsx:102-105 | The page starts with an empty URL, not loading, with no error and no results |
| ResultsPage.Results.RunAnalysis | app/results/page.tsx:127-155 | A blank URL changes nothing; otherwise the normalised URL is posted, loading ends, and the page holds the body's error, the body's results, or the fixed failure message, never both |
| ResultsPage.Results.Mount | app/results/page.tsx:107-116 | Without a non-empty url query parameter nothing changes; with one, the URL field takes it; if it is blank after trimming nothing else changes, otherwise its normalised form is posted and the page ends holding the reply's outcome, as RunAnalysis does |
| HomePage.Home.constructor | app/page.tsx:19-20 | The form starts with an empty URL, not loading, with no navigation |
| HomePage.Home.SetUrl | app/page.tsx:92 | Typing replaces the URL field and changes nothing else |
| HomePage.Home.GoToResults | app/page.tsx:31-36 | A blank URL changes nothing; otherwise the form starts loading and navigates once, to the normalised URL |
| Posts.SlugOf | lib/posts.ts:25 | Putting `.mdx` back on the slug gives the file name |
| Posts.SlugRoundTrip | lib/posts.ts:24-25 | A slug plus `.mdx` is a post file exactly when the slug does not start with an underscore, and its slug is the one it was made from |
| Posts.PostSlugs | lib/posts.ts:22-25 | The slugs are the names, without `.mdx`, of the listed files that end in `.mdx` and do not start with an underscore: their file names form a subsequence of the listing, so the listing order is kept, and each such file gives its slug once per occurrence and no other slug appears |
| Posts.GetAllPostSlugs | lib/posts.ts:20-26 | No slugs when the directory is absent; otherwise the post files' slugs in listing order, one per post file, no more of them than files |
| Posts.GetPostBySlug | lib/posts.ts:28-40 | A post exists exactly when the directory has the slug's `.mdx` file, and then carries the slug, the file's front matter and its body |
| Posts.Collect | lib/posts.ts:44-53 | The summaries are exactly those of the slugs whose post exists, with that post's front matter; their slugs form a subsequence of the given slugs, so their order is kept, and each slug whose post exists gives one summary per occurrence |
| Posts.GetAllPosts | lib/posts.ts:42-60 | The listing holds exactly the existing post files' summaries, runs from the latest publication time to the earliest (undated posts count as time 0), is a permutation of the collected summaries, and keeps the directory order among posts with equal times |
| BlogPage.AllFeatured | app/blog/page.tsx:18 | Exactly the featured posts, in listing order |
| BlogPage.LatestPosts | app/blog/page.tsx:19 | Exactly the posts not featured, in listing order |
| BlogPage.FeaturedPosts | app/blog/page.tsx:18 | The first two featured posts, or all of them when there are fewer |
| BlogPage.FeaturedAndLatestPartition | app/blog/page.tsx:18-19 | Every post is either featured or among the latest posts, and not both |
| BlogPage.FallbackPosts | app/blog/page.tsx:20 | The grid's posts always equal the latest posts: with no featured post, no post is filtered out |
| BlogPage.AllFeaturedNewestFirst | app/blog/page.tsx:18 | Filtering a newest-first listing keeps it newest first |
| BlogPage.FeaturedPrefixIsNewest | app/blog/page.tsx:17-18 | For any newest-first listing, the featured section shows featured posts of the listing, and no featured post left out is later than one shown |
| BlogPage.FeaturedAreMostRecent | app/blog/page.tsx:17-18 | The featured section shows featured posts from the listing, and no featured post left out is later than one shown |

## Left out

- Fetching the page, reading its HTML and running the selector queries are replaced by the `Signals` parameter. The GEO scoring the results page displays is outside the model as well; the page's GEO issues enter only as a parameter.
- The endpoint's 500 reply, for a fetch or parse that throws, is not modelled: the model has no failing fetch.
- Analyze.Post: the URL is an optional string, so a non-string JSON value for `url` (a number, an object, `false`) is not modelled.
- Analyze.CheckTitle: lengths are counted in characters, whereas JavaScript's `length` counts UTF-16 code units, so titles and descriptions with characters outside the Basic Multilingual Plane are measured differently.
- Decimal.ToDecimal: counts of 10^21 and more, which JavaScript renders in exponent notation, are rendered in plain decimal.
- ResultsPage.Results.RunAnalysis: the intermediate state while the request is pending (loading, error and results cleared) is not observable in the model, only the state once the reply is in. An error body whose error text is empty counts as an error; no error the endpoint sends is empty.
- ScoreBands.ScoreColor: scores are integers; the fractional scores a JavaScript number could carry are not modelled.
- HomePage.Home.GoToResults: the target is recorded as the normalised URL; the `encodeURIComponent` escaping of the query string is not modelled.
- The results page's rendering, the React effect scheduling and the router are not modelled. Only the state changes are.
- Posts.GetAllPosts: `publishedAt` is the timestamp its date string denotes, so the `Date` parsing and invalid dates (which compare as NaN) are not modelled.
- Posts.Collect: a `slug` key inside the front matter, which would override the file's slug in the summary, is not modelled.
- Posts.GetPostBySlug: front matter parsing (gray-matter) is replaced by the parsed document in the directory. Slugs holding path separators or `..` are looked up as plain names.
- BlogPage.AllFeatured: `featured` is a boolean; truthy non-boolean values are not modelled.
- ResultsPage.MatrixInput: the page's results type declares its issues as objects with a title, a description, an impact and an effort, and the model follows that type. The analysis endpoint shown sends plain strings instead (app/api/analyze/route.js:34-90) and no `geoIssues` at all. With that endpoint, spreading a string into a priority issue gives an object without `impact` or `effort`, which the quadrant rule places in "avoid". And `results.geoIssues.map` (app/results/page.tsx:725) throws because `geoIssues` is undefined. The model covers neither.
