/**
 * The post-listing page (`PostsTemplate`): which tab is selected, the post
 * views built from the page's raw edges, where a tab click navigates, the
 * search filter and the state that keeps it in sync with the search term, the
 * post-count subtitle and the scroll offset that centres the selected tab.
 */
module PostsTemplate {
  import opened Wrappers
  import opened Text

  // ---------------------------------------------------------------------------
  // Data
  // ---------------------------------------------------------------------------

  /**
   * The markdown node of one edge, as the build-time query supplies it. Only
   * the title is modelled; the rest of the node is not read by this page.
   */
  datatype MarkdownNode = MarkdownNode(title: string)

  /** One element of the page's `edges`. */
  datatype Edge = Edge(node: MarkdownNode)

  /**
   * A post view (`PostClass`): only its `title` matters to this page; the node
   * it was built from is kept whole.
   */
  datatype PostView = PostView(title: string, node: MarkdownNode)

  /** `new PostClass(node)`. */
  function NewPost(node: MarkdownNode): PostView {
    PostView(node.title, node)
  }

  // ---------------------------------------------------------------------------
  // Selected tab
  // ---------------------------------------------------------------------------

  /**
   * `categories.findIndex(category => category === currentCategory)`: the least
   * index holding the current category, or -1 when no index does.
   */
  function FindIndex(categories: seq<string>, current: string): (r: int)
    ensures -1 <= r < |categories|
    ensures r == -1 <==> current !in categories
    ensures r >= 0 ==> categories[r] == current
    ensures forall j :: 0 <= j < r ==> categories[j] != current
  {
    if categories == [] then -1
    else if categories[0] == current then 0
    else
      var k := FindIndex(categories[1..], current);
      if k == -1 then -1 else k + 1
  }

  // ---------------------------------------------------------------------------
  // Posts
  // ---------------------------------------------------------------------------

  /** `edges.map(({ node }) => new PostClass(node))`: one view per edge, in order. */
  function ToPosts(edges: seq<Edge>): (posts: seq<PostView>)
    ensures |posts| == |edges|
    ensures forall i :: 0 <= i < |edges| ==> posts[i] == NewPost(edges[i].node)
  {
    if edges == [] then [] else [NewPost(edges[0].node)] + ToPosts(edges[1..])
  }

  // ---------------------------------------------------------------------------
  // Tab navigation
  // ---------------------------------------------------------------------------

  /** The page a listing path addresses. */
  datatype Route = AllPosts | CategoryPage(category: string) | Elsewhere

  const PostsPath: string := "/posts"

  /** Reads a path back as a listing route: `/posts`, or `/posts/` followed by a label. */
  function RouteOf(path: string): Route {
    if path == PostsPath then AllPosts
    else if PostsPath + "/" <= path then CategoryPage(path[|PostsPath| + 1..])
    else Elsewhere
  }

  /**
   * `onTabIndexChange(value)`: the path handed to `navigate`. Tab 0 is the
   * all-posts listing; any other tab is the listing of its own label.
   */
  function TabPath(categories: seq<string>, value: nat): (path: string)
    requires value < |categories|
    ensures RouteOf(path) == if value == 0 then AllPosts else CategoryPage(categories[value])
  {
    if value == 0 then PostsPath
    else
      var path := PostsPath + "/" + categories[value];
      assert path[|PostsPath| + 1..] == categories[value];
      path
  }

  /**
   * Two tabs navigate to the same page exactly when both are tab 0, or neither
   * is and they carry the same label.
   */
  lemma TabPathSame(categories: seq<string>, i: nat, j: nat)
    requires i < |categories| && j < |categories|
    ensures TabPath(categories, i) == TabPath(categories, j) <==>
      (i == 0 && j == 0) || (i != 0 && j != 0 && categories[i] == categories[j])
  {
  }

  // ---------------------------------------------------------------------------
  // Search filter
  // ---------------------------------------------------------------------------

  /** `post.title.toLowerCase().includes(searchTerm.toLowerCase())`. */
  predicate Matches(post: PostView, term: string) {
    Includes(Lower(post.title), Lower(term))
  }

  /** `posts.filter(post => Matches(post, term))`. */
  function Filter(posts: seq<PostView>, term: string): seq<PostView> {
    if posts == [] then []
    else (if Matches(posts[0], term) then [posts[0]] else []) + Filter(posts[1..], term)
  }

  /** `a` is `b` with some elements dropped and the rest in their original order. */
  ghost predicate IsSubsequence<T>(a: seq<T>, b: seq<T>) {
    if a == [] then true
    else if b == [] then false
    else (a[0] == b[0] && IsSubsequence(a[1..], b[1..])) || IsSubsequence(a, b[1..])
  }

  /** A post matches exactly when its lowered title contains the lowered term at some offset. */
  lemma MatchesIff(post: PostView, term: string)
    ensures Matches(post, term) <==> exists i :: OccursAt(Lower(post.title), Lower(term), i)
  {
    assert Matches(post, term) == Includes(Lower(post.title), Lower(term));
    IncludesIff(Lower(post.title), Lower(term));
  }

  /** A post is shown exactly when it is one of the posts and it matches the term. */
  lemma {:induction false} FilterMembers(posts: seq<PostView>, term: string, p: PostView)
    ensures p in Filter(posts, term) <==> p in posts && Matches(p, term)
  {
    if posts != [] {
      FilterMembers(posts[1..], term, p);
      assert posts == [posts[0]] + posts[1..];
    }
  }

  /** The shown posts keep the order of the posts they come from. */
  lemma {:induction false} FilterIsSubsequence(posts: seq<PostView>, term: string)
    ensures IsSubsequence(Filter(posts, term), posts)
  {
    if posts != [] {
      FilterIsSubsequence(posts[1..], term);
      var rest := Filter(posts[1..], term);
      if Matches(posts[0], term) {
        var shown := [posts[0]] + rest;
        assert Filter(posts, term) == shown;
        assert shown[0] == posts[0] && shown[1..] == rest;
      } else {
        assert Filter(posts, term) == rest;
      }
    }
  }

  /** Filtering a concatenation filters each part separately. */
  lemma {:induction false} FilterAppend(xs: seq<PostView>, ys: seq<PostView>, term: string)
    ensures Filter(xs + ys, term) == Filter(xs, term) + Filter(ys, term)
  {
    if xs == [] {
      assert xs + ys == ys;
    } else {
      assert (xs + ys)[1..] == xs[1..] + ys;
      FilterAppend(xs[1..], ys, term);
    }
  }

  /** The empty search term shows every post. */
  lemma {:induction false} FilterEmptyTerm(posts: seq<PostView>)
    ensures Filter(posts, "") == posts
  {
    if posts != [] {
      IncludesEmpty(Lower(posts[0].title));
      FilterEmptyTerm(posts[1..]);
    }
  }

  /** Filtering the shown posts again with the same term changes nothing. */
  lemma {:induction false} FilterIdempotent(posts: seq<PostView>, term: string)
    ensures Filter(Filter(posts, term), term) == Filter(posts, term)
  {
    if posts != [] {
      var rest := Filter(posts[1..], term);
      FilterIdempotent(posts[1..], term);
      if Matches(posts[0], term) {
        var shown := [posts[0]] + rest;
        assert Filter(posts, term) == shown;
        assert shown[0] == posts[0] && shown[1..] == rest;
      } else {
        assert Filter(posts, term) == rest;
      }
    }
  }

  /** Only the lowered term matters: terms that differ only in ASCII case show the same posts. */
  lemma {:induction false} FilterIgnoresCase(posts: seq<PostView>, t1: string, t2: string)
    requires Lower(t1) == Lower(t2)
    ensures Filter(posts, t1) == Filter(posts, t2)
  {
    if posts != [] {
      FilterIgnoresCase(posts[1..], t1, t2);
    }
  }

  /** Lowering the search term beforehand shows the same posts. */
  lemma FilterLoweredTerm(posts: seq<PostView>, term: string)
    ensures Filter(posts, Lower(term)) == Filter(posts, term)
  {
    LowerIdempotent(term);
    FilterIgnoresCase(posts, Lower(term), term);
  }

  // ---------------------------------------------------------------------------
  // Subtitle
  // ---------------------------------------------------------------------------

  /** `${n} post${n < 2 ? '' : 's'}`. */
  function CountLabel(n: nat): string {
    Decimal(n) + " post" + (if n < 2 then "" else "s")
  }

  /** The label is the count in decimal, a space, and "post" when the count is below 2, else "posts". */
  lemma CountLabelShape(n: nat)
    ensures CountLabel(n) == Decimal(n) + " " + (if n < 2 then "post" else "posts")
    ensures CountLabel(n)[|CountLabel(n)| - 1] == 's' <==> n >= 2
  {
  }

  /** In a digit string followed by a space, the first space is the one after the digits. */
  lemma FirstSpaceAfterDigits(a: string, x: string)
    requires AllDigits(a)
    ensures (a + " " + x)[|a|] == ' '
    ensures forall k :: 0 <= k < |a| ==> (a + " " + x)[k] != ' '
  {
  }

  /** A digit string followed by a space: the space marks where the digits end. */
  lemma DigitsBeforeSpace(a: string, x: string, b: string, y: string)
    requires AllDigits(a) && AllDigits(b)
    requires a + " " + x == b + " " + y
    ensures a == b
  {
    FirstSpaceAfterDigits(a, x);
    FirstSpaceAfterDigits(b, y);
    assert |a| == |b|;
    assert a == (a + " " + x)[..|a|];
    assert b == (b + " " + y)[..|b|];
  }

  /** Different post counts give different labels: the label determines the count. */
  lemma CountLabelInjective(m: nat, n: nat)
    requires CountLabel(m) == CountLabel(n)
    ensures m == n
  {
    CountLabelShape(m);
    CountLabelShape(n);
    DigitsBeforeSpace(Decimal(m), if m < 2 then "post" else "posts", Decimal(n), if n < 2 then "post" else "posts");
    DecimalInjective(m, n);
  }

  // ---------------------------------------------------------------------------
  // Centring the selected tab
  // ---------------------------------------------------------------------------

  /** The measured box of one tab element (`offsetLeft`, `offsetWidth`, whole pixels). */
  datatype TabBox = TabBox(offsetLeft: int, offsetWidth: int)

  /** The tab strip element: its own `offsetWidth` and its tab children in order. */
  datatype TabStrip = TabStrip(offsetWidth: int, tabs: seq<TabBox>)

  /**
   * `tabLeft - (containerWidth - tabWidth) / 2`: the horizontal scroll offset
   * that puts the tab's centre at the centre of the visible strip.
   */
  function CenteringOffset(tabLeft: int, tabWidth: int, containerWidth: int): (offset: real)
    ensures tabLeft as real + tabWidth as real / 2.0 - offset == containerWidth as real / 2.0
  {
    tabLeft as real - (containerWidth - tabWidth) as real / 2.0
  }

  /** The centring offset is the only scroll offset that centres the tab. */
  lemma CenteringOffsetUnique(tabLeft: int, tabWidth: int, containerWidth: int, offset: real)
    requires tabLeft as real + tabWidth as real / 2.0 - offset == containerWidth as real / 2.0
    ensures offset == CenteringOffset(tabLeft, tabWidth, containerWidth)
  {
  }

  /** A tab at offset 100, 50 wide, in a strip 300 wide scrolls to -25. */
  lemma CenteringOffsetExample()
    ensures CenteringOffset(100, 50, 300) == -25.0
  {
  }

  /**
   * The mount effect: no scroll when the strip is not mounted (`ref.current`
   * is null); otherwise the offset that centres the tab at `index`.
   */
  function InitialScroll(strip: Option<TabStrip>, index: int): (left: Option<real>)
    requires strip.Some? ==> 0 <= index < |strip.value.tabs|
    ensures left.None? <==> strip.None?
    ensures left.Some? ==>
      var tab := strip.value.tabs[index];
      tab.offsetLeft as real + tab.offsetWidth as real / 2.0 - left.value == strip.value.offsetWidth as real / 2.0
  {
    match strip
    case None => None
    case Some(s) => Some(CenteringOffset(s.tabs[index].offsetLeft, s.tabs[index].offsetWidth, s.offsetWidth))
  }

  // ---------------------------------------------------------------------------
  // The page's state
  // ---------------------------------------------------------------------------

  /**
   * One mounted listing page. The page context and what is derived from it
   * are fixed; the search term and the shown posts change together.
   */
  class PostsPage {
    const categories: seq<string>
    const currentCategory: string
    const currentTabIndex: int
    const posts: seq<PostView>
    var searchTerm: string
    var filteredPosts: seq<PostView>

    /** The shown posts are always the posts filtered by the current term. */
    ghost predicate Valid()
      reads this
    {
      currentTabIndex == FindIndex(categories, currentCategory) &&
      filteredPosts == Filter(posts, searchTerm)
    }

    /** Mounting: the term starts empty and every post is shown. */
    constructor (categories: seq<string>, currentCategory: string, edges: seq<Edge>)
      ensures Valid()
      ensures this.categories == categories && this.currentCategory == currentCategory
      ensures posts == ToPosts(edges)
      ensures searchTerm == "" && filteredPosts == posts
    {
      this.categories := categories;
      this.currentCategory := currentCategory;
      currentTabIndex := FindIndex(categories, currentCategory);
      var views := ToPosts(edges);
      posts := views;
      searchTerm := "";
      filteredPosts := views;
      FilterEmptyTerm(views);
    }

    /**
     * A new search term: the shown posts are recomputed from all posts, never
     * from the previously shown ones.
     */
    method SetSearchTerm(term: string)
      requires Valid()
      modifies this
      ensures Valid()
      ensures searchTerm == term
      ensures filteredPosts == Filter(posts, term)
    {
      searchTerm := term;
      filteredPosts := Filter(posts, term);
    }

    /** `categories[currentTabIndex]`: the heading is the current category itself. */
    function CategoryTitle(): (title: string)
      reads this
      requires Valid() && currentCategory in categories
      ensures title == currentCategory
    {
      categories[currentTabIndex]
    }

    /** The subtitle counts all posts of the category, not only the shown ones. */
    function Subtitle(): (s: string)
      reads this
      ensures s == Decimal(|posts|) + " " + (if |posts| < 2 then "post" else "posts")
      ensures s[|s| - 1] == 's' <==> |posts| >= 2
    {
      CountLabelShape(|posts|);
      CountLabel(|posts|)
    }
  }

  /**
   * The strip renders one tab per category, so when the current category is
   * found the mount effect can index the strip's tabs with the page's tab index,
   * and the offset it computes centres the current category's tab.
   */
  lemma InitialScrollAtCurrentTab(page: PostsPage, strip: TabStrip)
    requires page.Valid() && page.currentCategory in page.categories
    requires |strip.tabs| == |page.categories|
    ensures 0 <= page.currentTabIndex < |strip.tabs|
    ensures page.categories[page.currentTabIndex] == page.currentCategory
    ensures InitialScroll(Some(strip), page.currentTabIndex) ==
      Some(CenteringOffset(strip.tabs[page.currentTabIndex].offsetLeft, strip.tabs[page.currentTabIndex].offsetWidth, strip.offsetWidth))
  {
  }

  /**
   * Narrowing the search and then clearing it shows every post again: the
   * list is rebuilt from all posts, so nothing hidden by the first term is lost.
   */
  method SearchThenClear(page: PostsPage, term: string)
    requires page.Valid()
    modifies page
    ensures page.Valid() && page.searchTerm == ""
    ensures page.filteredPosts == page.posts
  {
    page.SetSearchTerm(term);
    page.SetSearchTerm("");
    FilterEmptyTerm(page.posts);
  }
}
