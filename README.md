# Post listing and SEO head of a personal blog, in Dafny

This project models the client-side logic of a blog's post-listing page and
of its SEO head component.

The listing page (`PostsTemplate`) receives a list of categories, the current
category and the raw post edges of that category. From these it does six things:

- It finds the selected tab with `findIndex`.
- It maps every edge to a post view.
- It turns a tab click into a navigation path: `/posts` for tab 0, `/posts/<category>` otherwise.
- It keeps a search term and the posts whose lowered title contains the lowered term.
- It shows a post-count subtitle ("1 post", "3 posts").
- On mount, it scrolls the tab strip so the selected tab is centred.

The SEO component (`Seo`) picks the page title and description. When a value
is missing or empty it falls back to the site's. It then emits a fixed,
ordered list of eight meta tags.

Files:

- `wrappers.dfy`: module `Wrappers`, an `Option` type.
- `text.dfy`: module `Text`. `Lower` is ASCII lowering (`toLowerCase`).
  `Includes` is substring search (`includes`), proved equal to "occurs at
  some offset". `Decimal` is the decimal form of a count (`${n}`), with its
  parse round trip.
- `posts_template.dfy`: module `PostsTemplate`. The pure pieces of the page
  are functions with lemmas about them:
  - `FindIndex` models the tab lookup (line 25).
  - `NewPost` and `ToPosts` model the posts mapping (line 28).
  - `TabPath` models the navigation target (lines 31-32).
  - `Matches` and `Filter` model the search filter (line 41).
  - `CountLabel` models the subtitle (line 57).
  - `CenteringOffset` and `InitialScroll` model the scroll offset (lines 46-50).

  The class `PostsPage` holds `searchTerm` and `filteredPosts`, which
  `SetSearchTerm` changes together (lines 37-43).
- `seo.dfy`: module `Seo`. `MetaDescription` and `MetaTitle` model the
  fallbacks (lines 44-45), built on `OrElse` for JavaScript's `||`.
  `SeoHead` builds the head record and its meta list (lines 47-86).
  `ContentsOf` lists the contents of the tags with a given key, and the
  lemmas about it say which tags carry which content.

## Model

| member | source | states |
|---|---|---|
| PostsTemplate.FindIndex | src/templates/posts-template/index.tsx:24-27 | the result is the least index holding the current category, or -1 exactly when the category is absent |
| PostsTemplate.ToPosts | src/templates/posts-template/index.tsx:28 | one post view per edge: same length, and view i is built from edge i's node |
| PostsTemplate.TabPath | src/templates/posts-template/index.tsx:30-33 | the path read back as a route is the all-posts listing for tab 0 and the listing of `categories[value]` for any other tab |
| PostsTemplate.TabPathSame | src/templates/posts-template/index.tsx:30-33 | two tabs navigate to the same path iff both are tab 0, or neither is and their labels are equal |
| Text.LowerChar | src/templates/posts-template/index.tsx:41 | lowering never yields an upper-case ASCII letter, and it changes only 'A'..'Z', each by the fixed case distance |
| Text.Lower | src/templates/posts-template/index.tsx:41 | lowering keeps the length and lowers each character in place |
| Text.IncludesIff | src/templates/posts-template/index.tsx:41 | `includes` holds iff the needle occurs at some offset of the haystack as a contiguous block |
| PostsTemplate.MatchesIff | src/templates/posts-template/index.tsx:41 | a post matches iff its lowered title contains the lowered term at some offset |
| PostsTemplate.FilterMembers | src/templates/posts-template/index.tsx:41 | a post is in the filtered list iff it is one of the posts and it matches the term |
| PostsTemplate.FilterIsSubsequence | src/templates/posts-template/index.tsx:41 | the filtered list is a subsequence of the posts: order is kept |
| PostsTemplate.FilterAppend | src/templates/posts-template/index.tsx:41 | filtering a concatenation is the concatenation of the filtered parts |
| PostsTemplate.FilterEmptyTerm | src/templates/posts-template/index.tsx:37-41 | the empty term keeps every post, so the initial `filteredPosts = posts` agrees with the filter |
| PostsTemplate.FilterIdempotent | src/templates/posts-template/index.tsx:41 | filtering the filtered list again with the same term changes nothing |
| PostsTemplate.FilterIgnoresCase | src/templates/posts-template/index.tsx:41 | two terms that lower to the same string show the same posts |
| PostsTemplate.FilterLoweredTerm | src/templates/posts-template/index.tsx:41 | lowering the term beforehand shows the same posts |
| PostsTemplate.PostsPage.constructor | src/templates/posts-template/index.tsx:21-38 | on mount, the tab index is `FindIndex`, the posts are `ToPosts(edges)`, the term is empty and every post is shown, and the page invariant holds |
| PostsTemplate.PostsPage.SetSearchTerm | src/templates/posts-template/index.tsx:37-43 | the new term is stored and the shown posts are the filter of all posts by it, so the invariant `filteredPosts == Filter(posts, searchTerm)` is kept |
| PostsTemplate.SearchThenClear | src/templates/posts-template/index.tsx:37-43 | narrowing and then clearing the search shows every post again, because the list is rebuilt from all posts |
| PostsTemplate.PostsPage.CategoryTitle | src/templates/posts-template/index.tsx:56 | when the current category is among the categories, the heading is that category |
| PostsTemplate.PostsPage.Subtitle | src/templates/posts-template/index.tsx:57 | the subtitle is exactly the decimal count of all posts, a space, then "post" below 2 posts and "posts" otherwise; it ends in 's' iff there are at least 2 posts |
| PostsTemplate.CountLabelShape | src/templates/posts-template/index.tsx:57 | the label is the decimal count, a space, then "post" below 2 and "posts" otherwise |
| PostsTemplate.CountLabelInjective | src/templates/posts-template/index.tsx:57 | different counts give different labels |
| Text.Decimal | src/templates/posts-template/index.tsx:57 | the count is rendered as digits only, with no leading zero unless it is 0 |
| Text.DecimalRoundTrip | src/templates/posts-template/index.tsx:57 | reading the rendered digits back gives the count |
| PostsTemplate.CenteringOffset | src/templates/posts-template/index.tsx:49 | after scrolling by the offset, the tab's centre sits at half the strip's width |
| PostsTemplate.CenteringOffsetUnique | src/templates/posts-template/index.tsx:49 | the centring offset is the only offset that centres the tab |
| PostsTemplate.CenteringOffsetExample | src/templates/posts-template/index.tsx:49 | a tab at 100, 50 wide, in a strip 300 wide gives offset -25 |
| PostsTemplate.InitialScroll | src/templates/posts-template/index.tsx:46-50 | no scroll when the strip is not mounted; otherwise an offset that centres the selected tab |
| PostsTemplate.InitialScrollAtCurrentTab | src/templates/posts-template/index.tsx:46-50 | with one tab per category and the current category found, the page's tab index is a valid tab, that tab is the current category's, and the mount effect scrolls to centre it |
| Seo.OrElse | src/components/Seo/index.tsx:44-45 | `value \|\| fallback`: the value when present and non-empty, the fallback when absent or empty |
| Seo.MetaTitleChoice | src/components/Seo/index.tsx:45 | the page title is the given title when non-empty and the site title otherwise; it is non-empty iff one of the two is |
| Seo.MetaDescriptionChoice | src/components/Seo/index.tsx:44 | the description is the given one when present and non-empty and the site's otherwise; it is non-empty iff one of the two is |
| Seo.SeoHead | src/components/Seo/index.tsx:47-86 | exactly 8 meta tags whose keys are the fixed list, in order; `lang` is "en"; the default title is the site title; the title is the page title |
| Seo.SeoTitleTags | src/components/Seo/index.tsx:53-60 | `og:title` and `og:site_title` each occur once, and both carry the page title |
| Seo.SeoDescriptionTags | src/components/Seo/index.tsx:61-68 | `description` and `og:description` each occur once, and both carry the page description |
| Seo.SeoAuthorTags | src/components/Seo/index.tsx:69-76 | the `og:author` tags are exactly the author's name and then the nickname |
| Seo.SeoFixedTags | src/components/Seo/index.tsx:77-84 | `og:image` is the site image and `og:type` is always "website", each once |

## Left out

- Rendering is left out: JSX, styled components, `PostCard`, `Layout`, the tab's `isSelected` flag and the search input element. They are markup only.
- `navigate` is an external router call. `TabPath` returns the path it would be given.
- `useStaticQuery`/GraphQL are inputs here: the site metadata is a `SiteMetadata` parameter. Helmet's writes to the document head are external; `SeoHead` returns the props it receives.
- Text.Lower: JavaScript's `toLowerCase` folds all of Unicode. The model lowers ASCII letters only and keeps every other character.
- PostsTemplate.PostsPage.SetSearchTerm: React commits the new term in one render and the recomputed list in the next (a `useEffect`). The model updates both fields in one step, so the brief render that shows the new term with the old list is not modelled.
- `posts` is rebuilt from `edges` on every render. The page context does not change while the page is mounted, so the model computes it once, in the constructor.
- `PostClass` is not part of this model. A post view keeps the title, which the page reads, and the node it was built from.
- PostsTemplate.NewPost: the post view's title is assumed to be the node's title. `PostClass` and the node's type are not part of this model, so the node carries only a title and the rest of `PostClass` is not modelled.
- The scroll offset is computed only once, on mount. The model has the arithmetic, with whole-pixel `offsetLeft`/`offsetWidth` and an exact `real` result. DOM measurement, `scrollTo` and the browser clamping the offset to the scroll range are external.
- `currentTabIndex == -1` is not modelled where the page indexes with it: `children[-1]` and `categories[-1]` are `undefined` in JavaScript. The heading then renders empty, and reading `offsetLeft` of `undefined` in the mount effect throws a TypeError, so the page fails instead of scrolling. `CategoryTitle` and `InitialScroll` require a found category. `FindIndex` itself still returns -1.
- `onTabIndexChange` with a value outside the categories would navigate to `/posts/undefined`. Tabs are generated from the categories, so `TabPath` requires an index in range.
- The theme toggle only forwards a click to an external dark-mode context, so it is not modelled. The site configuration is static data, so it is not modelled either.
