/**
 * The blog's post store: the `.mdx` files of the posts directory give the slugs, a
 * slug gives its post, and the summaries of all posts are listed newest first.
 *
 * The file system is a parameter: the directory is absent, or present with the file
 * names its listing returns, in listing order, and the parsed document (front matter
 * and body) of every file that exists in it.
 */
module Posts {
  import opened Options
  import opened Sequences
  import opened Sorting

  /**
   * The front matter of a post. `publishedAt` holds the millisecond timestamp its
   * date string denotes, and is absent when the date is missing or empty.
   */
  datatype Frontmatter = Frontmatter(
    title: string,
    excerpt: Option<string>,
    category: Option<string>,
    readTime: Option<string>,
    publishedAt: Option<int>,
    featured: bool)

  datatype Document = Document(frontmatter: Frontmatter, content: string)

  datatype Directory = Directory(listing: seq<string>, documents: map<string, Document>)

  /** A post read by its slug. */
  datatype Post = Post(slug: string, content: string, frontmatter: Frontmatter)

  /** The summary listed for a post: its slug and its front matter. */
  datatype PostSummary = PostSummary(slug: string, meta: Frontmatter)

  const Mdx: string := ".mdx"

  /** The file is a post: it ends in `.mdx` and does not start with an underscore. */
  predicate IsPostFile(file: string) {
    && |file| >= |Mdx| && file[|file| - |Mdx|..] == Mdx
    && !(|file| >= 1 && file[0] == '_')
  }

  /** The file name without its `.mdx` ending. */
  function SlugOf(file: string): (slug: string)
    requires IsPostFile(file)
    ensures slug + Mdx == file
  {
    assert file == file[..|file| - |Mdx|] + file[|file| - |Mdx|..];
    file[..|file| - |Mdx|]
  }

  /** Adding the ending and taking it off again gives back the slug. */
  lemma SlugRoundTrip(slug: string)
    ensures IsPostFile(slug + Mdx) <==> !(|slug| >= 1 && slug[0] == '_')
    ensures IsPostFile(slug + Mdx) ==> SlugOf(slug + Mdx) == slug
  {
    assert (slug + Mdx)[|slug|..] == Mdx;
  }

  /** The file name of a slug. */
  function AddMdx(slug: string): string {
    slug + Mdx
  }

  /** Only the slug itself names the same file as the slug. */
  lemma SameFileSameSlug(a: string, b: string)
    requires a + Mdx == b + Mdx
    ensures a == b
  {
    assert a == (a + Mdx)[..|a|] && b == (b + Mdx)[..|b|];
  }

  /** Every post file among `files` gives its slug once per occurrence, and no other slug occurs. */
  ghost predicate OnePerPostFile(slugs: seq<string>, files: seq<string>) {
    forall s :: multiset(slugs)[s] == if IsPostFile(s + Mdx) then multiset(files)[s + Mdx] else 0
  }

  /**
   * The slugs of the post files among `files`: their file names are taken from
   * `files` in its order, and every post file gives its slug once per occurrence.
   */
  function PostSlugs(files: seq<string>): (slugs: seq<string>)
    ensures |slugs| <= |files|
    ensures forall s :: s in slugs <==> s + Mdx in files && IsPostFile(s + Mdx)
    ensures IsSubsequence(Map(slugs, AddMdx), files)
    ensures OnePerPostFile(slugs, files)
  {
    if files == [] then []
    else
      var rest := PostSlugs(files[1..]);
      var slugs := if IsPostFile(files[0]) then [SlugOf(files[0])] + rest else rest;
      PostSlugsStep(files[0], files[1..], rest);
      assert files == [files[0]] + files[1..];
      PostFileMembership(slugs, files);
      slugs
  }

  /** One more file in front of the listing adds its slug in front when it is a post file. */
  lemma PostSlugsStep(file: string, tail: seq<string>, rest: seq<string>)
    requires |rest| <= |tail| && IsSubsequence(Map(rest, AddMdx), tail) && OnePerPostFile(rest, tail)
    ensures var slugs := if IsPostFile(file) then [SlugOf(file)] + rest else rest;
      |slugs| <= |[file] + tail| && IsSubsequence(Map(slugs, AddMdx), [file] + tail) && OnePerPostFile(slugs, [file] + tail)
  {
    if IsPostFile(file) {
      MapCons(SlugOf(file), rest, AddMdx);
      SubsequenceCons(file, Map(rest, AddMdx), tail);
      PostFileCounted(file, tail, rest);
    } else {
      SubsequenceSkip(file, Map(rest, AddMdx), tail);
      OtherFileSkipped(file, tail, rest);
    }
  }

  /** Counting the slugs of the post files settles which slugs occur. */
  lemma PostFileMembership(slugs: seq<string>, files: seq<string>)
    requires OnePerPostFile(slugs, files)
    ensures forall s :: s in slugs <==> s + Mdx in files && IsPostFile(s + Mdx)
  {
    forall s ensures s in slugs <==> s + Mdx in files && IsPostFile(s + Mdx) {
      assert s in slugs <==> s in multiset(slugs);
      assert s + Mdx in files <==> s + Mdx in multiset(files);
    }
  }

  lemma PostFileCounted(file: string, tail: seq<string>, rest: seq<string>)
    requires IsPostFile(file)
    requires OnePerPostFile(rest, tail)
    ensures OnePerPostFile([SlugOf(file)] + rest, [file] + tail)
  {
    var slug := SlugOf(file);
    forall s ensures multiset([slug] + rest)[s] == if IsPostFile(s + Mdx) then multiset([file] + tail)[s + Mdx] else 0 {
      if s + Mdx == file {
        SameFileSameSlug(s, slug);
      } else {
        assert s != slug;
      }
    }
  }

  lemma OtherFileSkipped(file: string, tail: seq<string>, rest: seq<string>)
    requires !IsPostFile(file)
    requires OnePerPostFile(rest, tail)
    ensures OnePerPostFile(rest, [file] + tail)
  {
    forall s ensures multiset(rest)[s] == if IsPostFile(s + Mdx) then multiset([file] + tail)[s + Mdx] else 0 {
      if IsPostFile(s + Mdx) {
        assert s + Mdx != file;
      }
    }
  }

  /** The slugs of all posts; none when the directory does not exist. */
  function GetAllPostSlugs(dir: Option<Directory>): (slugs: seq<string>)
    ensures dir.None? ==> slugs == []
    ensures dir.Some? ==> |slugs| <= |dir.value.listing|
    ensures forall s :: s in slugs <==> dir.Some? && s + Mdx in dir.value.listing && IsPostFile(s + Mdx)
    ensures dir.Some? ==> IsSubsequence(Map(slugs, AddMdx), dir.value.listing)
    ensures dir.Some? ==> OnePerPostFile(slugs, dir.value.listing)
  {
    match dir
    case None => []
    case Some(d) => PostSlugs(d.listing)
  }

  /** The post stored under `slug`, if its file exists. */
  function GetPostBySlug(dir: Option<Directory>, slug: string): (post: Option<Post>)
    ensures post.Some? <==> dir.Some? && slug + Mdx in dir.value.documents
    ensures post.Some? ==>
      && post.value.slug == slug
      && post.value.frontmatter == dir.value.documents[slug + Mdx].frontmatter
      && post.value.content == dir.value.documents[slug + Mdx].content
  {
    match dir
    case None => None
    case Some(d) =>
      if slug + Mdx in d.documents then
        var doc := d.documents[slug + Mdx];
        Some(Post(slug, doc.content, doc.frontmatter))
      else None
  }

  /** The slug a summary is listed under. */
  function SlugOfSummary(p: PostSummary): string {
    p.slug
  }

  /** Every slug among `slugs` whose post exists occurs in `listed` as often, and no other slug does. */
  ghost predicate OnePerExistingPost(dir: Option<Directory>, listed: seq<string>, slugs: seq<string>) {
    forall s :: multiset(listed)[s] == if GetPostBySlug(dir, s).Some? then multiset(slugs)[s] else 0
  }

  /**
   * The summaries of the slugs whose post exists: their slugs are taken from `slugs`
   * in its order, and every slug whose post exists gives one summary per occurrence.
   */
  function Collect(dir: Option<Directory>, slugs: seq<string>): (posts: seq<PostSummary>)
    ensures |posts| <= |slugs|
    ensures forall p :: p in posts <==>
      p.slug in slugs && GetPostBySlug(dir, p.slug).Some? && p.meta == GetPostBySlug(dir, p.slug).value.frontmatter
    ensures IsSubsequence(Map(posts, SlugOfSummary), slugs)
    ensures OnePerExistingPost(dir, Map(posts, SlugOfSummary), slugs)
  {
    if slugs == [] then []
    else
      var rest := Collect(dir, slugs[1..]);
      var found := GetPostBySlug(dir, slugs[0]);
      var posts := if found.Some? then [PostSummary(slugs[0], found.value.frontmatter)] + rest else rest;
      CollectStep(dir, slugs[0], slugs[1..], rest);
      assert slugs == [slugs[0]] + slugs[1..];
      posts
  }

  /** One more slug in front adds its summary in front when its post exists. */
  lemma CollectStep(dir: Option<Directory>, slug: string, tail: seq<string>, rest: seq<PostSummary>)
    requires |rest| <= |tail|
    requires forall p :: p in rest <==>
      p.slug in tail && GetPostBySlug(dir, p.slug).Some? && p.meta == GetPostBySlug(dir, p.slug).value.frontmatter
    requires IsSubsequence(Map(rest, SlugOfSummary), tail)
    requires OnePerExistingPost(dir, Map(rest, SlugOfSummary), tail)
    ensures var found := GetPostBySlug(dir, slug);
      var posts := if found.Some? then [PostSummary(slug, found.value.frontmatter)] + rest else rest;
      && |posts| <= |[slug] + tail|
      && (forall p :: p in posts <==>
        p.slug in [slug] + tail && GetPostBySlug(dir, p.slug).Some? && p.meta == GetPostBySlug(dir, p.slug).value.frontmatter)
      && IsSubsequence(Map(posts, SlugOfSummary), [slug] + tail)
      && OnePerExistingPost(dir, Map(posts, SlugOfSummary), [slug] + tail)
  {
    var found := GetPostBySlug(dir, slug);
    if found.Some? {
      var p := PostSummary(slug, found.value.frontmatter);
      MapCons(p, rest, SlugOfSummary);
      SubsequenceCons(slug, Map(rest, SlugOfSummary), tail);
      FoundCounted(dir, slug, tail, Map(rest, SlugOfSummary));
    } else {
      SubsequenceSkip(slug, Map(rest, SlugOfSummary), tail);
      MissingSkipped(dir, slug, tail, Map(rest, SlugOfSummary));
    }
    CollectStepMembers(dir, slug, tail, rest);
  }

  lemma FoundCounted(dir: Option<Directory>, slug: string, tail: seq<string>, listed: seq<string>)
    requires GetPostBySlug(dir, slug).Some?
    requires OnePerExistingPost(dir, listed, tail)
    ensures OnePerExistingPost(dir, [slug] + listed, [slug] + tail)
  {
  }

  lemma MissingSkipped(dir: Option<Directory>, slug: string, tail: seq<string>, listed: seq<string>)
    requires GetPostBySlug(dir, slug).None?
    requires OnePerExistingPost(dir, listed, tail)
    ensures OnePerExistingPost(dir, listed, [slug] + tail)
  {
  }

  lemma CollectStepMembers(dir: Option<Directory>, slug: string, tail: seq<string>, rest: seq<PostSummary>)
    requires forall p :: p in rest <==>
      p.slug in tail && GetPostBySlug(dir, p.slug).Some? && p.meta == GetPostBySlug(dir, p.slug).value.frontmatter
    ensures var found := GetPostBySlug(dir, slug);
      var posts := if found.Some? then [PostSummary(slug, found.value.frontmatter)] + rest else rest;
      forall p :: p in posts <==>
        p.slug in [slug] + tail && GetPostBySlug(dir, p.slug).Some? && p.meta == GetPostBySlug(dir, p.slug).value.frontmatter
  {
  }

  /** The time a post sorts by: its publication timestamp, or 0 without one. */
  function Timestamp(p: PostSummary): int {
    p.meta.publishedAt.GetOr(0)
  }

  /** The sort key that puts later posts first. */
  function NewestFirst(p: PostSummary): int {
    -Timestamp(p)
  }

  /**
   * The summaries of all posts, sorted by publication time, latest first. The listing
   * holds every post file that exists, with its front matter, and nothing else; it
   * runs from the latest post to the earliest; it is a permutation of the collected
   * summaries; and posts published at the same time (or without a date) keep the
   * directory's order.
   */
  function GetAllPosts(dir: Option<Directory>): (r: seq<PostSummary>)
    ensures forall p :: p in r <==>
      && dir.Some?
      && p.slug + Mdx in dir.value.listing && IsPostFile(p.slug + Mdx)
      && p.slug + Mdx in dir.value.documents
      && p.meta == dir.value.documents[p.slug + Mdx].frontmatter
    ensures forall i, j :: 0 <= i < j < |r| ==> Timestamp(r[i]) >= Timestamp(r[j])
    ensures multiset(r) == multiset(Collect(dir, GetAllPostSlugs(dir)))
    ensures forall k :: WithKey(r, NewestFirst, k) == WithKey(Collect(dir, GetAllPostSlugs(dir)), NewestFirst, k)
  {
    var collected := Collect(dir, GetAllPostSlugs(dir));
    SortProperties(collected, NewestFirst);
    SameMembers(Sort(collected, NewestFirst), collected);
    Sort(collected, NewestFirst)
  }

  /** Two lists with the same elements counted with multiplicity have the same members. */
  lemma SameMembers(a: seq<PostSummary>, b: seq<PostSummary>)
    requires multiset(a) == multiset(b)
    ensures forall p :: p in a <==> p in b
  {
    forall p ensures p in a <==> p in b {
      assert p in a <==> p in multiset(a);
      assert p in b <==> p in multiset(b);
    }
  }
}
