/**
 * The blog listing page (scripts/blog.js): the case-insensitive tag filter over the
 * loaded post list, the grid of post cards that link to the single-post page, and the
 * `active` marker of the filter buttons.
 */
module Blog {
  import opened JsRuntime
  import opened SiteData
  import Common
  import BlogTemplate

  const AllTag := "all"
  const PostPage := "blog-template.html"
  const CardHrefPrefix := "blog-template.html?id="

  // ---------------------------------------------------------------------
  // filterBlogs

  /** `blog.tags.some(t => t.toLowerCase() === tag.toLowerCase())`. */
  predicate HasTag(post: Post, tag: string): (b: bool)
    ensures tag in post.tags ==> b
    ensures b ==> post.tags != []
  {
    exists k :: 0 <= k < |post.tags| && Lower(post.tags[k]) == Lower(tag)
  }

  /** `r` is `s` with some elements dropped and the rest kept in order. */
  predicate IsSubsequence<T(==)>(r: seq<T>, s: seq<T>)
    decreases |s|
  {
    r == [] || (s != [] && ((r[0] == s[0] && IsSubsequence(r[1..], s[1..])) || IsSubsequence(r, s[1..])))
  }

  /** `allBlogs.filter(blog => HasTag(blog, tag))`. */
  function FilterByTag(posts: seq<Post>, tag: string): (r: seq<Post>)
    ensures forall p :: p in r <==> p in posts && HasTag(p, tag)
    ensures IsSubsequence(r, posts)
  {
    if posts == [] then []
    else if HasTag(posts[0], tag) then [posts[0]] + FilterByTag(posts[1..], tag)
    else FilterByTag(posts[1..], tag)
  }

  /** The list `filterBlogs(tag)` displays: everything for exactly `'all'`, else the tag filter. */
  function FilterBlogs(allBlogs: seq<Post>, tag: string): (r: seq<Post>)
    ensures tag == AllTag ==> r == allBlogs
    ensures tag != AllTag ==> forall p :: p in r <==> p in allBlogs && HasTag(p, tag)
    ensures IsSubsequence(r, allBlogs)
  {
    if tag == AllTag then SubsequenceOfSelf(allBlogs); allBlogs else FilterByTag(allBlogs, tag)
  }

  lemma {:induction false} SubsequenceOfSelf<T>(s: seq<T>)
    ensures IsSubsequence(s, s)
  {
    if s != [] {
      SubsequenceOfSelf(s[1..]);
    }
  }

  /** Filtering twice by the same tag is filtering once. */
  lemma {:induction false} FilterIdempotent(posts: seq<Post>, tag: string)
    ensures FilterByTag(FilterByTag(posts, tag), tag) == FilterByTag(posts, tag)
  {
    if posts != [] {
      FilterIdempotent(posts[1..], tag);
      if HasTag(posts[0], tag) {
        assert ([posts[0]] + FilterByTag(posts[1..], tag))[1..] == FilterByTag(posts[1..], tag);
      }
    }
  }

  /** Filtering distributes over concatenation, so the relative order of the kept posts is the list's order. */
  lemma {:induction false} FilterAppend(a: seq<Post>, b: seq<Post>, tag: string)
    ensures FilterByTag(a + b, tag) == FilterByTag(a, tag) + FilterByTag(b, tag)
  {
    if a == [] {
      assert a + b == b;
    } else {
      assert (a + b)[0] == a[0];
      assert (a + b)[1..] == a[1..] + b;
      FilterAppend(a[1..], b, tag);
    }
  }

  /** When every post carries the tag nothing is dropped; when none does, nothing is kept. */
  lemma {:induction false} FilterExtremes(posts: seq<Post>, tag: string)
    ensures (forall i :: 0 <= i < |posts| ==> HasTag(posts[i], tag)) ==> FilterByTag(posts, tag) == posts
    ensures (forall i :: 0 <= i < |posts| ==> !HasTag(posts[i], tag)) ==> FilterByTag(posts, tag) == []
  {
    if posts != [] {
      FilterExtremes(posts[1..], tag);
      assert forall i :: 1 <= i < |posts| ==> posts[1..][i - 1] == posts[i];
      if HasTag(posts[0], tag) {
        assert [posts[0]] + posts[1..] == posts;
      }
    }
  }

  /** Tags that differ only in letter case select the same posts. */
  lemma {:induction false} FilterIgnoresCase(posts: seq<Post>, t1: string, t2: string)
    requires Lower(t1) == Lower(t2)
    ensures FilterByTag(posts, t1) == FilterByTag(posts, t2)
  {
    if posts != [] {
      FilterIgnoresCase(posts[1..], t1, t2);
      assert HasTag(posts[0], t1) == HasTag(posts[0], t2);
    }
  }

  /** Only the exact string `'all'` shows everything: `'ALL'` is an ordinary tag filter. */
  lemma AllIsCaseSensitive(p: Post)
    requires p.tags == []
    ensures FilterBlogs([p], AllTag) == [p] && FilterBlogs([p], "ALL") == []
  {
    assert !HasTag(p, "ALL");
  }

  // ---------------------------------------------------------------------
  // displayBlogs

  /** What one `.blog-card` shows; `href` is where clicking it navigates. */
  datatype Card = Card(
    href: string,
    thumbnail: string,
    alt: string,
    date: string,
    readTime: string,
    title: string,
    description: string,
    tags: seq<string>)

  /**
   * One card: it links to the post page with the query string `?id=<id>`, shows the title both as
   * the heading and as the thumbnail's alternative text, and carries the post's tags.
   */
  function RenderCard(post: Post, formatDate: string -> string): (c: Card)
    ensures c.href == PostPage + ("?id=" + post.id)
    ensures c.title == c.alt == post.title && c.tags == post.tags
    ensures c.date == formatDate(post.date) && c.description == post.description
  {
    Card(CardHrefPrefix + post.id, post.thumbnail, post.title, formatDate(post.date), post.readTime,
      post.title, post.description, post.tags)
  }

  /** One card per post, in the list's order, each linking to its post by id. */
  function RenderCards(posts: seq<Post>, formatDate: string -> string): (cards: seq<Card>)
    ensures |cards| == |posts|
    ensures forall i :: 0 <= i < |posts| ==>
      cards[i].href == CardHrefPrefix + posts[i].id && cards[i].title == posts[i].title
      && cards[i].tags == posts[i].tags
  {
    seq(|posts|, i requires 0 <= i < |posts| => RenderCard(posts[i], formatDate))
  }

  /** The query string `?id=<id>` yields `id` when the id needs no URL escaping. */
  lemma IdQueryReadsBack(id: string, decode: string -> string)
    requires forall i :: 0 <= i < |id| ==> id[i] != '&' && id[i] != '#' && id[i] != '+'
    requires decode(id) == id
    ensures Common.GetUrlParameter("?id=" + id, BlogTemplate.IdParam, decode) == id
  {
    var search := "?id=" + id;
    assert search[1..3] == BlogTemplate.IdParam;
    assert Common.KeyAt(search, BlogTemplate.IdParam, 0);
    assert search[4..] == id;
    Common.ParameterIsFirstValue(search, BlogTemplate.IdParam, decode, 0, id);
    assert Common.PlusToSpace(id) == id;
  }

  /**
   * Following a card reaches a post with the card's id: the card's query string `?id=<id>`
   * yields `id` again, and the post page shows the first post with that id, which is the
   * card's own post when no earlier post shares its id. This holds when the id needs no URL
   * escaping (no `&`, `#` or `+`, and decoding leaves it alone).
   */
  lemma CardOpensItsPost(posts: seq<Post>, k: nat, formatDate: string -> string, decode: string -> string)
    requires k < |posts| && posts[k].id != ""
    requires forall i :: 0 <= i < |posts[k].id| ==> posts[k].id[i] != '&' && posts[k].id[i] != '#' && posts[k].id[i] != '+'
    requires decode(posts[k].id) == posts[k].id
    ensures RenderCards(posts, formatDate)[k].href == PostPage + ("?id=" + posts[k].id)
    ensures var found := BlogTemplate.FindPost(posts, posts[k].id);
      found.Some? && found.value <= k
      && BlogTemplate.PostOutcome(Common.GetUrlParameter("?id=" + posts[k].id, BlogTemplate.IdParam, decode),
           Loaded(posts)) == BlogTemplate.ShowPost(posts[found.value])
    ensures (forall j :: 0 <= j < k ==> posts[j].id != posts[k].id) ==>
      BlogTemplate.PostOutcome(Common.GetUrlParameter("?id=" + posts[k].id, BlogTemplate.IdParam, decode),
        Loaded(posts)) == BlogTemplate.ShowPost(posts[k])
  {
    IdQueryReadsBack(posts[k].id, decode);
    var found := BlogTemplate.FindPost(posts, posts[k].id);
    assert found.Some?;
    BlogTemplate.FirstMatchIsShown(posts[k].id, posts, found.value);
  }

  // ---------------------------------------------------------------------
  // The page

  /**
   * The blog listing: the loaded posts, the grid, the "no posts" block (whose text says
   * the load failed once `noPostsFailure` is set) and the loading indicator, each of which
   * may be missing, and the `data-filter` value and `active` mark of each filter button.
   */
  class BlogPage {
    var allBlogs: seq<Post>
    const hasGrid: bool
    var gridHidden: bool
    var cards: seq<Card>
    const hasNoPosts: bool
    var noPostsHidden: bool
    var noPostsFailure: bool
    const hasLoading: bool
    var loadingHidden: bool
    const filterValues: seq<string>
    const active: array<bool>

    /** Each filter button has its `active` mark. */
    predicate Valid() {
      active.Length == |filterValues|
    }

    constructor (hasGrid: bool, hasNoPosts: bool, hasLoading: bool, filterValues: seq<string>, initialActive: seq<bool>)
      requires |initialActive| == |filterValues|
      ensures Valid() && fresh(active) && active[..] == initialActive
      ensures this.hasGrid == hasGrid && this.hasNoPosts == hasNoPosts && this.hasLoading == hasLoading
      ensures this.filterValues == filterValues && allBlogs == [] && cards == []
      ensures !gridHidden && noPostsHidden && !noPostsFailure && !loadingHidden
    {
      allBlogs := [];
      this.hasGrid := hasGrid;
      gridHidden := false;
      cards := [];
      this.hasNoPosts := hasNoPosts;
      noPostsHidden := true;
      noPostsFailure := false;
      this.hasLoading := hasLoading;
      loadingHidden := false;
      this.filterValues := filterValues;
      active := new bool[|filterValues|](i requires 0 <= i < |initialActive| => initialActive[i]);
    }

    /** `displayBlogs(blogs)`: nothing without a grid; an empty list shows "no posts". */
    method DisplayBlogs(blogs: seq<Post>, formatDate: string -> string)
      modifies this`gridHidden, this`noPostsHidden, this`cards
      ensures !hasGrid ==>
        gridHidden == old(gridHidden) && noPostsHidden == old(noPostsHidden) && cards == old(cards)
      ensures hasGrid && blogs == [] ==>
        gridHidden && (hasNoPosts ==> !noPostsHidden) && cards == old(cards)
      ensures hasGrid && blogs != [] ==>
        !gridHidden && (hasNoPosts ==> noPostsHidden) && cards == RenderCards(blogs, formatDate)
      ensures !hasNoPosts ==> noPostsHidden == old(noPostsHidden)
    {
      if !hasGrid {
        return;
      }
      if blogs == [] {
        gridHidden := true;
        if hasNoPosts {
          noPostsHidden := false;
        }
        return;
      }
      gridHidden := false;
      if hasNoPosts {
        noPostsHidden := true;
      }
      cards := RenderCards(blogs, formatDate);
    }

    /** `loadBlogs()` given what the fetch of the post list produced. */
    method LoadBlogs(fetched: Fetched<Post>, formatDate: string -> string)
      modifies this`allBlogs, this`loadingHidden, this`noPostsHidden, this`noPostsFailure,
        this`gridHidden, this`cards
      ensures hasLoading ==> loadingHidden
      ensures !hasLoading ==> loadingHidden == old(loadingHidden)
      ensures fetched.LoadFailed? ==>
        allBlogs == old(allBlogs) && gridHidden == old(gridHidden) && cards == old(cards)
        && (hasNoPosts ==> !noPostsHidden && noPostsFailure)
        && (!hasNoPosts ==> noPostsHidden == old(noPostsHidden) && noPostsFailure == old(noPostsFailure))
      ensures fetched.Loaded? ==> allBlogs == fetched.items && noPostsFailure == old(noPostsFailure)
      ensures fetched.Loaded? && fetched.items == [] ==>
        gridHidden == old(gridHidden) && cards == old(cards)
        && (hasNoPosts ==> !noPostsHidden) && (!hasNoPosts ==> noPostsHidden == old(noPostsHidden))
      ensures fetched.Loaded? && fetched.items != [] && hasGrid ==>
        !gridHidden && (hasNoPosts ==> noPostsHidden) && cards == RenderCards(fetched.items, formatDate)
      ensures fetched.Loaded? && !hasGrid ==>
        (gridHidden == old(gridHidden) && cards == old(cards)
         && (fetched.items != [] ==> noPostsHidden == old(noPostsHidden)))
    {
      match fetched {
        case LoadFailed =>
          if hasLoading {
            loadingHidden := true;
          }
          if hasNoPosts {
            noPostsHidden := false;
            noPostsFailure := true;
          }
        case Loaded(items) =>
          allBlogs := items;
          if hasLoading {
            loadingHidden := true;
          }
          if items == [] {
            if hasNoPosts {
              noPostsHidden := false;
            }
          } else {
            DisplayBlogs(items, formatDate);
          }
      }
    }

    /**
     * A click on filter button `k`: every button loses `active`, button `k` gains it, and the
     * posts of `filterBlogs` for its `data-filter` value are displayed; the loaded list stays as it was.
     */
    method ClickFilter(k: nat, formatDate: string -> string)
      requires Valid() && k < active.Length
      modifies active, this`gridHidden, this`noPostsHidden, this`cards
      ensures forall i :: 0 <= i < active.Length ==> (active[i] <==> i == k)
      ensures allBlogs == old(allBlogs)
      ensures var shown := FilterBlogs(allBlogs, filterValues[k]);
        && (!hasGrid ==> gridHidden == old(gridHidden) && noPostsHidden == old(noPostsHidden) && cards == old(cards))
        && (hasGrid && shown == [] ==> gridHidden && (hasNoPosts ==> !noPostsHidden) && cards == old(cards))
        && (hasGrid && shown != [] ==>
              !gridHidden && (hasNoPosts ==> noPostsHidden) && cards == RenderCards(shown, formatDate))
        && (!hasNoPosts ==> noPostsHidden == old(noPostsHidden))
    {
      var i := 0;
      while i < active.Length
        invariant 0 <= i <= active.Length
        invariant forall j :: 0 <= j < i ==> !active[j]
        modifies active
      {
        active[i] := false;
        i := i + 1;
      }
      active[k] := true;
      DisplayBlogs(FilterBlogs(allBlogs, filterValues[k]), formatDate);
    }
  }

  /** Clicking the same filter button twice shows the same cards both times. */
  method ClickFilterTwice(page: BlogPage, k: nat, formatDate: string -> string)
    returns (first: seq<Card>, second: seq<Card>)
    requires page.Valid() && k < page.active.Length
    modifies page, page.active
    ensures first == second == page.cards
  {
    page.ClickFilter(k, formatDate);
    first := page.cards;
    page.ClickFilter(k, formatDate);
    second := page.cards;
  }
}
