/**
 * The priority matrix: every issue is placed in one of four quadrants by its impact
 * and the effort to fix it, the issues are bucketed per quadrant in input order, and
 * the non-empty buckets are shown ordered by the quadrants' fixed rank.
 */
module PriorityMatrix {
  import opened Sequences
  import opened Sorting

  datatype Level = High | Medium | Low

  datatype Source = Seo | Geo

  datatype PriorityIssue = PriorityIssue(
    title: string,
    description: string,
    impact: Level,
    effort: Level,
    source: Source)

  datatype Quadrant = QuickWin | Strategic | NiceToHave | Avoid

  /** The quadrants in the order the grouping record declares them. */
  const AllQuadrants: seq<Quadrant> := [QuickWin, Strategic, NiceToHave, Avoid]

  /** The `order` of each quadrant's display configuration. */
  function Order(q: Quadrant): (r: int)
    ensures 1 <= r <= 4 && AllQuadrants[r - 1] == q
  {
    match q
    case QuickWin => 1
    case Strategic => 2
    case NiceToHave => 3
    case Avoid => 4
  }

  /**
   * Medium counts as high impact and as low effort, so only a low-impact issue can
   * fall in the bottom row and only a high-effort issue in the right column.
   */
  function GetQuadrant(issue: PriorityIssue): (q: Quadrant)
    ensures q == QuickWin <==> issue.impact != Low && issue.effort != High
    ensures q == Strategic <==> issue.impact != Low && issue.effort == High
    ensures q == NiceToHave <==> issue.impact == Low && issue.effort != High
    ensures q == Avoid <==> issue.impact == Low && issue.effort == High
  {
    var highImpact := issue.impact == High || issue.impact == Medium;
    var lowEffort := issue.effort == Low || issue.effort == Medium;
    if highImpact && lowEffort then QuickWin
    else if highImpact && !lowEffort then Strategic
    else if !highImpact && lowEffort then NiceToHave
    else Avoid
  }

  /** The issues that belong in quadrant `q`, in input order. */
  function Bucket(issues: seq<PriorityIssue>, q: Quadrant): seq<PriorityIssue> {
    if issues == [] then []
    else (if GetQuadrant(issues[0]) == q then [issues[0]] else []) + Bucket(issues[1..], q)
  }

  lemma {:induction false} BucketAppend(a: seq<PriorityIssue>, b: seq<PriorityIssue>, q: Quadrant)
    ensures Bucket(a + b, q) == Bucket(a, q) + Bucket(b, q)
  {
    if a == [] {
      assert a + b == b;
    } else {
      var ab := a + b;
      assert ab[0] == a[0] && ab[1..] == a[1..] + b;
      BucketAppend(a[1..], b, q);
      assert Bucket(ab, q) == (if GetQuadrant(a[0]) == q then [a[0]] else []) + Bucket(a[1..] + b, q);
    }
  }

  /** A bucket holds exactly the issues of its quadrant, and keeps their input order. */
  lemma {:induction false} BucketContents(issues: seq<PriorityIssue>, q: Quadrant)
    ensures forall x :: x in Bucket(issues, q) <==> x in issues && GetQuadrant(x) == q
    ensures IsSubsequence(Bucket(issues, q), issues)
  {
    if issues != [] {
      BucketContents(issues[1..], q);
      var rest := Bucket(issues[1..], q);
      if GetQuadrant(issues[0]) == q {
        assert ([issues[0]] + rest)[1..] == rest;
      } else {
        assert Bucket(issues, q) == rest;
      }
      assert issues == [issues[0]] + issues[1..];
    }
  }

  /**
   * The four buckets partition the input: every occurrence of an issue lands in
   * exactly one bucket, so the bucket sizes add up to the number of issues.
   */
  lemma {:induction false} BucketsPartition(issues: seq<PriorityIssue>)
    ensures multiset(Bucket(issues, QuickWin)) + multiset(Bucket(issues, Strategic))
          + multiset(Bucket(issues, NiceToHave)) + multiset(Bucket(issues, Avoid)) == multiset(issues)
    ensures |Bucket(issues, QuickWin)| + |Bucket(issues, Strategic)|
          + |Bucket(issues, NiceToHave)| + |Bucket(issues, Avoid)| == |issues|
  {
    if issues != [] {
      var x, tail := issues[0], issues[1..];
      BucketsPartition(tail);
      assert issues == [x] + tail;
      var q := GetQuadrant(x);
      assert Bucket(issues, q) == [x] + Bucket(tail, q);
      forall other: Quadrant | other != q ensures Bucket(issues, other) == Bucket(tail, other) {
      }
    }
  }

  /** `grouped` has an entry for every quadrant, holding that quadrant's bucket of `issues`. */
  ghost predicate HoldsBuckets(grouped: map<Quadrant, seq<PriorityIssue>>, issues: seq<PriorityIssue>) {
    && QuickWin in grouped && grouped[QuickWin] == Bucket(issues, QuickWin)
    && Strategic in grouped && grouped[Strategic] == Bucket(issues, Strategic)
    && NiceToHave in grouped && grouped[NiceToHave] == Bucket(issues, NiceToHave)
    && Avoid in grouped && grouped[Avoid] == Bucket(issues, Avoid)
  }

  /** The grouping record: one list per quadrant, filled by a pass over the issues. */
  method GroupIssues(issues: seq<PriorityIssue>) returns (grouped: map<Quadrant, seq<PriorityIssue>>)
    ensures forall q: Quadrant :: q in grouped && grouped[q] == Bucket(issues, q)
  {
    grouped := map[QuickWin := [], Strategic := [], NiceToHave := [], Avoid := []];
    for i := 0 to |issues|
      invariant HoldsBuckets(grouped, issues[..i])
    {
      var quadrant := GetQuadrant(issues[i]);
      assert issues[..i + 1] == issues[..i] + [issues[i]];
      BucketAppend(issues[..i], [issues[i]], QuickWin);
      BucketAppend(issues[..i], [issues[i]], Strategic);
      BucketAppend(issues[..i], [issues[i]], NiceToHave);
      BucketAppend(issues[..i], [issues[i]], Avoid);
      grouped := grouped[quadrant := grouped[quadrant] + [issues[i]]];
    }
    assert issues[..|issues|] == issues;
    forall q: Quadrant ensures q in grouped && grouped[q] == Bucket(issues, q) {
      match q
      case QuickWin =>
      case Strategic =>
      case NiceToHave =>
      case Avoid =>
    }
  }

  type Entry = (Quadrant, seq<PriorityIssue>)

  function EntryOrder(e: Entry): int {
    Order(e.0)
  }

  /** The non-empty entries, in their order. */
  function NonEmpty(entries: seq<Entry>): (r: seq<Entry>)
    ensures forall e :: e in r <==> e in entries && e.1 != []
    ensures IsSubsequence(r, entries)
  {
    if entries == [] then []
    else if entries[0].1 != [] then
      assert IsSubsequence(NonEmpty(entries[1..]), entries[1..]);
      [entries[0]] + NonEmpty(entries[1..])
    else NonEmpty(entries[1..])
  }

  /** The record's entries, in declaration order: one per quadrant with its bucket. */
  function Entries(issues: seq<PriorityIssue>): seq<Entry> {
    [(QuickWin, Bucket(issues, QuickWin)), (Strategic, Bucket(issues, Strategic)),
     (NiceToHave, Bucket(issues, NiceToHave)), (Avoid, Bucket(issues, Avoid))]
  }


  /** A subsequence of a list with strictly increasing order keeps that property. */
  lemma {:induction false} SubsequenceStrictlyIncreasing(a: seq<Entry>, b: seq<Entry>)
    requires IsSubsequence(a, b)
    requires forall i, j :: 0 <= i < j < |b| ==> EntryOrder(b[i]) < EntryOrder(b[j])
    ensures forall i, j :: 0 <= i < j < |a| ==> EntryOrder(a[i]) < EntryOrder(a[j])
    decreases |b|
  {
    if a != [] {
      var b' := b[1..];
      assert forall i, j :: 0 <= i < j < |b'| ==> EntryOrder(b'[i]) < EntryOrder(b'[j]) by {
        forall i, j | 0 <= i < j < |b'| ensures EntryOrder(b'[i]) < EntryOrder(b'[j]) {
          assert b'[i] == b[i + 1] && b'[j] == b[j + 1];
        }
      }
      if a[0] == b[0] && IsSubsequence(a[1..], b') {
        SubsequenceStrictlyIncreasing(a[1..], b');
        SubsequenceBounds(a[1..], b');
        forall j | 0 < j < |a| ensures EntryOrder(a[0]) < EntryOrder(a[j]) {
          assert a[j] == a[1..][j - 1];
          assert a[j] in b';
          var k :| 0 <= k < |b'| && b'[k] == a[j];
          assert b'[k] == b[k + 1];
        }
        forall i, j | 0 <= i < j < |a| ensures EntryOrder(a[i]) < EntryOrder(a[j]) {
          if i > 0 {
            assert a[i] == a[1..][i - 1] && a[j] == a[1..][j - 1];
          }
        }
      } else {
        SubsequenceStrictlyIncreasing(a, b');
      }
    }
  }

  /** The record's entries come in strictly increasing quadrant order and each holds its quadrant's bucket. */
  lemma EntriesInOrder(issues: seq<PriorityIssue>)
    ensures forall i, j :: 0 <= i < j < |Entries(issues)| ==>
      EntryOrder(Entries(issues)[i]) < EntryOrder(Entries(issues)[j])
    ensures forall e :: e in Entries(issues) ==> e.1 == Bucket(issues, e.0)
    ensures forall q: Quadrant :: Entries(issues)[Order(q) - 1] == (q, Bucket(issues, q))
  {
  }

  /**
   * The quadrant cards shown: the non-empty buckets, sorted by quadrant order. They
   * are exactly the non-empty buckets, each with its own issues, in strictly
   * increasing quadrant order; so the sort leaves them as listed.
   */
  function Quadrants(issues: seq<PriorityIssue>): (r: seq<Entry>)
    ensures r == NonEmpty(Entries(issues))
    ensures forall e :: e in r ==> e.1 == Bucket(issues, e.0) && e.1 != []
    ensures forall q: Quadrant :: Bucket(issues, q) != [] ==> (q, Bucket(issues, q)) in r
    ensures forall i, j :: 0 <= i < j < |r| ==> Order(r[i].0) < Order(r[j].0)
  {
    var entries := Entries(issues);
    EntriesInOrder(issues);
    var visible := NonEmpty(entries);
    SubsequenceStrictlyIncreasing(visible, entries);
    SortOfSorted(visible, EntryOrder);
    NonEmptyBucketsVisible(issues);
    Sort(visible, EntryOrder)
  }

  /** Every non-empty bucket has its entry among the non-empty entries. */
  lemma NonEmptyBucketsVisible(issues: seq<PriorityIssue>)
    ensures forall q: Quadrant :: Bucket(issues, q) != [] ==> (q, Bucket(issues, q)) in NonEmpty(Entries(issues))
  {
    EntriesInOrder(issues);
    forall q: Quadrant | Bucket(issues, q) != [] ensures (q, Bucket(issues, q)) in NonEmpty(Entries(issues)) {
      assert Entries(issues)[Order(q) - 1] in Entries(issues);
    }
  }

  /** What the component renders: the empty state, or the legend with all four counts and the cards. */
  datatype MatrixView =
    | NoIssuesFound
    | Matrix(legend: seq<(Quadrant, nat)>, cards: seq<Entry>)

  /** The grouping record's entries, in declaration order. */
  function EntriesOf(grouped: map<Quadrant, seq<PriorityIssue>>): seq<Entry>
    requires forall q: Quadrant :: q in grouped
  {
    [(QuickWin, grouped[QuickWin]), (Strategic, grouped[Strategic]),
     (NiceToHave, grouped[NiceToHave]), (Avoid, grouped[Avoid])]
  }

  /** A record holding the buckets of `issues` has the entries and the counts of those buckets. */
  lemma EntriesOfBuckets(grouped: map<Quadrant, seq<PriorityIssue>>, issues: seq<PriorityIssue>)
    requires forall q: Quadrant :: q in grouped && grouped[q] == Bucket(issues, q)
    ensures EntriesOf(grouped) == Entries(issues)
    ensures forall i :: 0 <= i < 4 ==> (EntriesOf(grouped)[i].0, |EntriesOf(grouped)[i].1|) == (AllQuadrants[i], |Bucket(issues, AllQuadrants[i])|)
  {
  }

  method Render(issues: seq<PriorityIssue>) returns (view: MatrixView)
    ensures view.NoIssuesFound? <==> issues == []
    ensures view.Matrix? ==>
      && |view.legend| == 4
      && (forall i :: 0 <= i < 4 ==> view.legend[i] == (AllQuadrants[i], |Bucket(issues, AllQuadrants[i])|))
      && view.cards == Quadrants(issues)
  {
    var grouped := GroupIssues(issues);
    EntriesOfBuckets(grouped, issues);
    var quadrants := Sort(NonEmpty(EntriesOf(grouped)), EntryOrder);
    if |issues| == 0 {
      return NoIssuesFound;
    }
    var entries := EntriesOf(grouped);
    var legend := seq(4, i requires 0 <= i < 4 => (entries[i].0, |entries[i].1|));
    view := Matrix(legend, quadrants);
  }
}
