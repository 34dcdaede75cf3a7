/**
 * The single-post page (scripts/blog-template.js): the post named by the `id`
 * URL parameter is looked up in the loaded list and shown, or the "not found"
 * view is shown instead; the share buttons link to three fixed share endpoints.
 */
module BlogTemplate {
  import opened JsRuntime
  import opened SiteData
  import Common

  const IdParam := "id"
  const TitleSuffix := " - Jo's Portfolio"
  const TwitterPrefix := "https://twitter.com/intent/tweet?text="
  const TwitterUrlField := "&url="
  const FacebookPrefix := "https://www.facebook.com/sharer/sharer.php?u="
  const LinkedInPrefix := "https://www.linkedin.com/sharing/share-offsite/?url="

  // ---------------------------------------------------------------------
  // Lookup

  /** `blogs.find(b => b.id === id)`, as the index of the post found. */
  function FindPost(posts: seq<Post>, id: string): (r: Option<nat>)
    ensures r.Some? ==> (r.value < |posts| && posts[r.value].id == id
      && forall j :: 0 <= j < r.value ==> posts[j].id != id)
    ensures r.None? ==> forall j :: 0 <= j < |posts| ==> posts[j].id != id
  {
    if posts == [] then None
    else if posts[0].id == id then Some(0)
    else match FindPost(posts[1..], id)
      case None => None
      case Some(k) => Some(k + 1)
  }

  /** The view `loadBlogPost` settles on. */
  datatype Outcome = ShowPost(post: Post) | NotFound

  /** The outcome for the `id` parameter's value `postId` and what the fetch of the post list produced. */
  function PostOutcome(postId: string, fetched: Fetched<Post>): (o: Outcome)
    ensures postId == "" || fetched.LoadFailed? ==> o == NotFound
    ensures o == NotFound && fetched.Loaded? && postId != "" ==>
      forall j :: 0 <= j < |fetched.items| ==> fetched.items[j].id != postId
    ensures o.ShowPost? ==> postId != "" && fetched.Loaded? && o.post in fetched.items && o.post.id == postId
  {
    if postId == "" then NotFound
    else match fetched
      case LoadFailed => NotFound
      case Loaded(posts) =>
        match FindPost(posts, postId)
        case None => NotFound
        case Some(k) => ShowPost(posts[k])
  }

  /** A missing or empty `id` gives "not found" whatever the post list holds. */
  lemma EmptyIdIgnoresList(f1: Fetched<Post>, f2: Fetched<Post>)
    ensures PostOutcome("", f1) == PostOutcome("", f2) == NotFound
  {
  }

  /** The post shown is the first one in the list whose id is the requested id. */
  lemma FirstMatchIsShown(postId: string, posts: seq<Post>, k: nat)
    requires postId != "" && k < |posts| && posts[k].id == postId
    requires forall j :: 0 <= j < k ==> posts[j].id != postId
    ensures PostOutcome(postId, Loaded(posts)) == ShowPost(posts[k])
  {
  }

  // ---------------------------------------------------------------------
  // Page title and share links

  /** `${post.title} - Jo's Portfolio`: ends with the site suffix, and the post title reads back from it. */
  function PageTitle(title: string): (t: string)
    ensures |t| >= |TitleSuffix| && t[|t| - |TitleSuffix|..] == TitleSuffix && t[..|t| - |TitleSuffix|] == title
  {
    title + TitleSuffix
  }

  datatype ShareLinks = ShareLinks(twitter: string, facebook: string, linkedIn: string)

  /**
   * The three share links for `title` and the page address `url`; `enc` stands for `encodeURIComponent`.
   * Each link is its service's fixed prefix followed by fields that read back: the encoded address
   * closes all three links, and the Twitter link carries the encoded title right after its prefix.
   */
  function ShareLinksFor(title: string, url: string, enc: string -> string): (r: ShareLinks)
    ensures |r.facebook| == |FacebookPrefix| + |enc(url)|
      && r.facebook[..|FacebookPrefix|] == FacebookPrefix && r.facebook[|FacebookPrefix|..] == enc(url)
    ensures |r.linkedIn| == |LinkedInPrefix| + |enc(url)|
      && r.linkedIn[..|LinkedInPrefix|] == LinkedInPrefix && r.linkedIn[|LinkedInPrefix|..] == enc(url)
    ensures var p, e := |TwitterPrefix|, |enc(title)|;
      |r.twitter| == p + e + |TwitterUrlField| + |enc(url)|
      && r.twitter[..p] == TwitterPrefix && r.twitter[p..p + e] == enc(title)
      && r.twitter[p + e..p + e + |TwitterUrlField|] == TwitterUrlField
      && r.twitter[p + e + |TwitterUrlField|..] == enc(url)
  {
    ShareLinks(
      TwitterPrefix + enc(title) + TwitterUrlField + enc(url),
      FacebookPrefix + enc(url),
      LinkedInPrefix + enc(url))
  }

  /** Offset of the first `&` in `s`, or `|s|` when there is none. */
  function FirstAmp(s: string): nat {
    if s == [] || s[0] == '&' then 0 else 1 + FirstAmp(s[1..])
  }

  lemma {:induction false} FirstAmpAfter(a: string, rest: string)
    requires '&' !in a
    ensures FirstAmp(a + ['&'] + rest) == |a|
  {
    if a != [] {
      assert (a + ['&'] + rest)[1..] == a[1..] + ['&'] + rest;
      FirstAmpAfter(a[1..], rest);
    }
  }

  /**
   * The Twitter link is its fixed prefix, the encoded title, `&url=` and the encoded address;
   * because an encoded component never contains `&`, the link determines both encoded fields.
   */
  lemma ShareLinksDetermineFields(t1: string, u1: string, t2: string, u2: string, enc: string -> string)
    requires '&' !in enc(t1) && '&' !in enc(t2)
    requires ShareLinksFor(t1, u1, enc).twitter == ShareLinksFor(t2, u2, enc).twitter
    ensures enc(t1) == enc(t2) && enc(u1) == enc(u2)
  {
    var a1, a2 := enc(t1), enc(t2);
    var l := ShareLinksFor(t1, u1, enc).twitter;
    var p := |TwitterPrefix|;
    AmpAfterField(l, p, a1);
    AmpAfterField(l, p, a2);
    FirstAmpAfter(a1, l[p + |a1| + 1..]);
    FirstAmpAfter(a2, l[p + |a2| + 1..]);
  }

  /** A Twitter link splits, after its prefix, into the encoded title, `&` and the rest. */
  lemma AmpAfterField(l: string, p: nat, a: string)
    requires p + |a| + |TwitterUrlField| <= |l|
    requires l[p..p + |a|] == a && l[p + |a|..p + |a| + |TwitterUrlField|] == TwitterUrlField
    ensures l[p..] == a + ['&'] + l[p + |a| + 1..]
  {
    assert l[p + |a|] == TwitterUrlField[0];
  }

  // ---------------------------------------------------------------------
  // The page

  /** What `displayBlogPost` writes into the page. */
  datatype PostView = PostView(
    documentTitle: string,
    blogTitle: string,
    thumbnailSrc: string,
    thumbnailAlt: string,
    title: string,
    date: string,
    readTime: string,
    tagBadges: seq<string>,
    body: string,
    shares: ShareLinks)

  /** The complete view of `post`; `formatDate` stands for the locale date formatting. */
  function RenderPost(post: Post, url: string, enc: string -> string, formatDate: string -> string): (v: PostView)
    ensures v.documentTitle == v.blogTitle == PageTitle(post.title)
    ensures v.tagBadges == post.tags
  {
    PostView(PageTitle(post.title), PageTitle(post.title), post.thumbnail, post.title, post.title,
      formatDate(post.date), post.readTime, post.tags, post.content, ShareLinksFor(post.title, url, enc))
  }

  /**
   * The post page: the loading indicator, the post content and the "not found" block (each
   * may be missing), whether the `#blogTitle` element exists, and what the page shows.
   */
  class PostPage {
    const hasLoading: bool
    var loadingHidden: bool
    const hasContent: bool
    var contentHidden: bool
    const hasNotFound: bool
    var notFoundHidden: bool
    const hasBlogTitle: bool
    var view: PostView

    constructor (hasLoading: bool, hasContent: bool, hasNotFound: bool, hasBlogTitle: bool, initial: PostView)
      ensures this.hasLoading == hasLoading && this.hasContent == hasContent
      ensures this.hasNotFound == hasNotFound && this.hasBlogTitle == hasBlogTitle
      ensures !loadingHidden && contentHidden && notFoundHidden && view == initial
    {
      this.hasLoading := hasLoading;
      this.hasContent := hasContent;
      this.hasNotFound := hasNotFound;
      this.hasBlogTitle := hasBlogTitle;
      loadingHidden := false;
      contentHidden := true;
      notFoundHidden := true;
      view := initial;
    }

    /** Loading hidden, content hidden and "not found" visible, as far as the page has them. */
    predicate ShowsNotFound()
      reads this
    {
      (hasLoading ==> loadingHidden) && (hasContent ==> contentHidden) && (hasNotFound ==> !notFoundHidden)
    }

    /** `showPostNotFound()`: reaches the not-found view, and changes nothing once it is there. */
    method ShowPostNotFound()
      modifies this`loadingHidden, this`contentHidden, this`notFoundHidden
      ensures ShowsNotFound()
      ensures !hasLoading ==> loadingHidden == old(loadingHidden)
      ensures !hasContent ==> contentHidden == old(contentHidden)
      ensures !hasNotFound ==> notFoundHidden == old(notFoundHidden)
      ensures old(ShowsNotFound()) ==>
        loadingHidden == old(loadingHidden) && contentHidden == old(contentHidden)
        && notFoundHidden == old(notFoundHidden)
    {
      if hasLoading {
        loadingHidden := true;
      }
      if hasContent {
        contentHidden := true;
      }
      if hasNotFound {
        notFoundHidden := false;
      }
    }

    /**
     * `displayBlogPost(post)`. Without `#blogTitle` the statement that writes it throws after
     * the document title was set; `threw` reports that.
     */
    method DisplayBlogPost(post: Post, url: string, enc: string -> string, formatDate: string -> string)
      returns (threw: bool)
      modifies this`contentHidden, this`notFoundHidden, this`view
      ensures threw <==> hasContent && !hasBlogTitle
      ensures !hasContent ==>
        (contentHidden == old(contentHidden) && notFoundHidden == old(notFoundHidden) && view == old(view))
      ensures hasContent ==>
        (!contentHidden && (hasNotFound ==> notFoundHidden)
         && (!hasNotFound ==> notFoundHidden == old(notFoundHidden)))
      ensures hasContent && hasBlogTitle ==> view == RenderPost(post, url, enc, formatDate)
      ensures threw ==> view == old(view).(documentTitle := PageTitle(post.title))
    {
      if !hasContent {
        return false;
      }
      contentHidden := false;
      if hasNotFound {
        notFoundHidden := true;
      }
      view := view.(documentTitle := PageTitle(post.title));
      if !hasBlogTitle {
        return true;
      }
      view := RenderPost(post, url, enc, formatDate);
      return false;
    }

    /**
     * `loadBlogPost()` for the query string `search`, the result of fetching the post list and
     * the page address `url`; `decode` stands for `decodeURIComponent`.
     */
    method LoadBlogPost(search: string, fetched: Fetched<Post>, url: string,
                        decode: string -> string, enc: string -> string, formatDate: string -> string)
      modifies this`loadingHidden, this`contentHidden, this`notFoundHidden, this`view
      ensures var o := PostOutcome(Common.GetUrlParameter(search, IdParam, decode), fetched);
        && (o == NotFound ==> ShowsNotFound() && view == old(view))
        && (o.ShowPost? && hasContent && hasBlogTitle ==>
              (hasLoading ==> loadingHidden) && !contentHidden && (hasNotFound ==> notFoundHidden)
              && view == RenderPost(o.post, url, enc, formatDate))
        && (o.ShowPost? && hasContent && !hasBlogTitle ==>
              ShowsNotFound() && view == old(view).(documentTitle := PageTitle(o.post.title)))
        && (o.ShowPost? && !hasContent ==>
              (hasLoading ==> loadingHidden) && contentHidden == old(contentHidden)
              && notFoundHidden == old(notFoundHidden) && view == old(view))
      ensures !hasLoading ==> loadingHidden == old(loadingHidden)
    {
      var postId := Common.GetUrlParameter(search, IdParam, decode);
      if postId == "" {
        ShowPostNotFound();
        return;
      }
      match fetched {
        case LoadFailed =>
          if hasLoading {
            loadingHidden := true;
          }
          ShowPostNotFound();
        case Loaded(posts) =>
          var found := FindPost(posts, postId);
          if hasLoading {
            loadingHidden := true;
          }
          if found.None? {
            ShowPostNotFound();
            return;
          }
          var threw := DisplayBlogPost(posts[found.value], url, enc, formatDate);
          if threw {
            if hasLoading {
              loadingHidden := true;
            }
            ShowPostNotFound();
          }
      }
    }
  }
}
