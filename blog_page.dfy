/**
 * The blog index: from the posts listed newest first it shows up to two featured
 * posts, and the non-featured posts as the latest ones.
 */
module BlogPage {
  import opened Options
  import opened Sequences
  import opened Posts

  /** The featured posts, in listing order. */
  function AllFeatured(posts: seq<PostSummary>): (r: seq<PostSummary>)
    ensures forall p :: p in r <==> p in posts && p.meta.featured
    ensures IsSubsequence(r, posts)
  {
    if posts == [] then []
    else if posts[0].meta.featured then
      assert IsSubsequence(AllFeatured(posts[1..]), posts[1..]);
      [posts[0]] + AllFeatured(posts[1..])
    else AllFeatured(posts[1..])
  }

  /** The posts not featured, in listing order: the latest posts section. */
  function LatestPosts(posts: seq<PostSummary>): (r: seq<PostSummary>)
    ensures forall p :: p in r <==> p in posts && !p.meta.featured
    ensures IsSubsequence(r, posts)
  {
    if posts == [] then []
    else if !posts[0].meta.featured then
      assert IsSubsequence(LatestPosts(posts[1..]), posts[1..]);
      [posts[0]] + LatestPosts(posts[1..])
    else LatestPosts(posts[1..])
  }

  /** The first two featured posts, or all of them when there are fewer. */
  function FeaturedPosts(posts: seq<PostSummary>): (r: seq<PostSummary>)
    ensures |r| == if |AllFeatured(posts)| < 2 then |AllFeatured(posts)| else 2
    ensures r == AllFeatured(posts)[..|r|]
  {
    var featured := AllFeatured(posts);
    if |featured| <= 2 then featured else featured[..2]
  }

  /**
   * The posts of the latest-posts grid: the non-featured posts when some post is
   * featured, else all posts. Either way they are the latest posts, because without
   * a featured post no post is filtered out.
   */
  function FallbackPosts(posts: seq<PostSummary>): (r: seq<PostSummary>)
    ensures r == LatestPosts(posts)
  {
    if |FeaturedPosts(posts)| > 0 then LatestPosts(posts)
    else
      FeaturedAndLatestPartition(posts);
      SubsequenceOfSameLength(LatestPosts(posts), posts);
      posts
  }

  /** Every post is either featured or among the latest posts, and not both. */
  lemma {:induction false} FeaturedAndLatestPartition(posts: seq<PostSummary>)
    ensures multiset(AllFeatured(posts)) + multiset(LatestPosts(posts)) == multiset(posts)
    ensures |AllFeatured(posts)| + |LatestPosts(posts)| == |posts|
  {
    if posts != [] {
      FeaturedAndLatestPartition(posts[1..]);
      assert posts == [posts[0]] + posts[1..];
    }
  }

  /** In a newest-first listing the first post is no earlier than any other. */
  lemma HeadIsLatest(posts: seq<PostSummary>)
    requires posts != []
    requires forall i, j :: 0 <= i < j < |posts| ==> Timestamp(posts[i]) >= Timestamp(posts[j])
    ensures forall p :: p in posts[1..] ==> Timestamp(posts[0]) >= Timestamp(p)
  {
    forall p | p in posts[1..] ensures Timestamp(posts[0]) >= Timestamp(p) {
      var k :| 0 <= k < |posts[1..]| && posts[1..][k] == p;
      assert posts[k + 1] == p;
    }
  }

  /** A newest-first listing stays newest first when a post no earlier than all of it is put in front. */
  lemma ConsNewestFirst(head: PostSummary, rest: seq<PostSummary>)
    requires forall i, j :: 0 <= i < j < |rest| ==> Timestamp(rest[i]) >= Timestamp(rest[j])
    requires forall p :: p in rest ==> Timestamp(head) >= Timestamp(p)
    ensures forall i, j :: 0 <= i < j < |[head] + rest| ==>
      Timestamp(([head] + rest)[i]) >= Timestamp(([head] + rest)[j])
  {
    var r := [head] + rest;
    forall i, j | 0 <= i < j < |r| ensures Timestamp(r[i]) >= Timestamp(r[j]) {
      assert r[j] == rest[j - 1] && rest[j - 1] in rest;
      if i > 0 {
        assert r[i] == rest[i - 1];
      }
    }
  }

  /** Filtering keeps the newest-first order. */
  lemma {:induction false} AllFeaturedNewestFirst(posts: seq<PostSummary>)
    requires forall i, j :: 0 <= i < j < |posts| ==> Timestamp(posts[i]) >= Timestamp(posts[j])
    ensures forall i, j :: 0 <= i < j < |AllFeatured(posts)| ==>
      Timestamp(AllFeatured(posts)[i]) >= Timestamp(AllFeatured(posts)[j])
  {
    if posts != [] {
      var tail := posts[1..];
      assert forall i, j :: 0 <= i < j < |tail| ==> Timestamp(tail[i]) >= Timestamp(tail[j]) by {
        forall i, j | 0 <= i < j < |tail| ensures Timestamp(tail[i]) >= Timestamp(tail[j]) {
          assert tail[i] == posts[i + 1] && tail[j] == posts[j + 1];
        }
      }
      AllFeaturedNewestFirst(tail);
      if posts[0].meta.featured {
        HeadIsLatest(posts);
        ConsNewestFirst(posts[0], AllFeatured(tail));
      }
    }
  }

  /**
   * In a newest-first listing, the featured section shows featured posts of the
   * listing, and no featured post left out is later than one shown.
   */
  lemma FeaturedPrefixIsNewest(posts: seq<PostSummary>)
    requires forall i, j :: 0 <= i < j < |posts| ==> Timestamp(posts[i]) >= Timestamp(posts[j])
    ensures forall i, j :: 0 <= i < |FeaturedPosts(posts)| <= j < |AllFeatured(posts)| ==>
      Timestamp(AllFeatured(posts)[i]) >= Timestamp(AllFeatured(posts)[j])
    ensures forall p :: p in FeaturedPosts(posts) ==> p in posts && p.meta.featured
  {
    AllFeaturedNewestFirst(posts);
    var shown := FeaturedPosts(posts);
    forall p | p in shown ensures p in AllFeatured(posts) {
      var k :| 0 <= k < |shown| && shown[k] == p;
      assert AllFeatured(posts)[k] == p;
    }
  }

  /**
   * On the blog index, the featured section shows the most recent featured posts:
   * every featured post left out was published no later than every one shown.
   */
  lemma FeaturedAreMostRecent(dir: Option<Directory>)
    ensures forall i, j :: 0 <= i < |FeaturedPosts(GetAllPosts(dir))| <= j < |AllFeatured(GetAllPosts(dir))| ==>
      Timestamp(AllFeatured(GetAllPosts(dir))[i]) >= Timestamp(AllFeatured(GetAllPosts(dir))[j])
    ensures forall p :: p in FeaturedPosts(GetAllPosts(dir)) ==> p in GetAllPosts(dir) && p.meta.featured
  {
    FeaturedPrefixIsNewest(GetAllPosts(dir));
  }
}
