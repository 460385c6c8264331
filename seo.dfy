/**
 * The SEO head (`Seo`): the page title and description, each falling back to
 * the site's own when missing or empty, and the fixed list of meta tags handed
 * to the document head.
 */
module Seo {
  import opened Wrappers

  // ---------------------------------------------------------------------------
  // Data
  // ---------------------------------------------------------------------------

  datatype Author = Author(name: string, nickname: string)

  /** The site metadata the static query returns. */
  datatype SiteMetadata = SiteMetadata(title: string, description: string, author: Author, ogImage: string)

  /** A meta tag is keyed either by `property` (Open Graph) or by `name`. */
  datatype MetaKey = Property(property: string) | Name(name: string)

  datatype Meta = Meta(key: MetaKey, content: string)

  /** What the component hands to the document head. */
  datatype Head = Head(lang: string, title: string, defaultTitle: string, meta: seq<Meta>)

  // ---------------------------------------------------------------------------
  // Fallbacks
  // ---------------------------------------------------------------------------

  /**
   * JavaScript's `value || fallback` on an optional string: an absent value and
   * the empty string are both falsy.
   */
  function OrElse(value: Option<string>, fallback: string): (r: string)
    ensures r == fallback || value == Some(r)
    ensures value.Some? && value.value != "" ==> r == value.value
    ensures value.None? || value == Some("") ==> r == fallback
  {
    match value
    case Some(v) => if v != "" then v else fallback
    case None => fallback
  }

  /** `description || site.siteMetadata.description`. */
  function MetaDescription(description: Option<string>, site: SiteMetadata): string {
    OrElse(description, site.description)
  }

  /** `title || site.siteMetadata.title`. */
  function MetaTitle(title: string, site: SiteMetadata): string {
    OrElse(Some(title), site.title)
  }

  /** The page's title is its own when it has one, and the site's otherwise. */
  lemma MetaTitleChoice(title: string, site: SiteMetadata)
    ensures MetaTitle(title, site) == (if title != "" then title else site.title)
    ensures MetaTitle(title, site) != "" <==> title != "" || site.title != ""
  {
  }

  /** The page's description is its own when given and non-empty, and the site's otherwise. */
  lemma MetaDescriptionChoice(description: Option<string>, site: SiteMetadata)
    ensures MetaDescription(description, site) ==
      (if description.Some? && description.value != "" then description.value else site.description)
    ensures MetaDescription(description, site) != "" <==>
      (description.Some? && description.value != "") || site.description != ""
  {
  }

  // ---------------------------------------------------------------------------
  // The head
  // ---------------------------------------------------------------------------

  /** The keys of the meta list, in the order the component writes them. */
  const MetaKeys: seq<MetaKey> := [
    Property("og:title"), Property("og:site_title"), Name("description"), Property("og:description"),
    Property("og:author"), Property("og:author"), Property("og:image"), Property("og:type")
  ]

  function Keys(meta: seq<Meta>): (keys: seq<MetaKey>)
    ensures |keys| == |meta|
    ensures forall i :: 0 <= i < |meta| ==> keys[i] == meta[i].key
  {
    if meta == [] then [] else [meta[0].key] + Keys(meta[1..])
  }

  /** The content a single tag contributes for `key`: its content if it has that key, else nothing. */
  function Pick(m: Meta, key: MetaKey): seq<string> {
    if m.key == key then [m.content] else []
  }

  /** The contents of every tag with the given key, in list order. */
  function ContentsOf(meta: seq<Meta>, key: MetaKey): (contents: seq<string>)
    ensures |contents| <= |meta|
  {
    if meta == [] then [] else Pick(meta[0], key) + ContentsOf(meta[1..], key)
  }

  /** Peels the tag at position `i` off the front of the suffix starting there. */
  lemma ContentsOfSuffix(meta: seq<Meta>, key: MetaKey, i: nat)
    requires i < |meta|
    ensures ContentsOf(meta[i..], key) == Pick(meta[i], key) + ContentsOf(meta[i + 1..], key)
  {
    assert meta[i..][1..] == meta[i + 1..];
  }

  /** The contents for any key of an eight-tag list, tag by tag. */
  lemma ContentsOfEight(meta: seq<Meta>, key: MetaKey)
    requires |meta| == 8
    ensures ContentsOf(meta, key) ==
      Pick(meta[0], key) + (Pick(meta[1], key) + (Pick(meta[2], key) + (Pick(meta[3], key) +
      (Pick(meta[4], key) + (Pick(meta[5], key) + (Pick(meta[6], key) + Pick(meta[7], key)))))))
  {
    assert meta[0..] == meta;
    assert meta[8..] == [];
    ContentsOfSuffix(meta, key, 7);
    assert ContentsOf(meta[7..], key) == Pick(meta[7], key);
    ContentsOfSuffix(meta, key, 6);
    ContentsOfSuffix(meta, key, 5);
    ContentsOfSuffix(meta, key, 4);
    ContentsOfSuffix(meta, key, 3);
    ContentsOfSuffix(meta, key, 2);
    ContentsOfSuffix(meta, key, 1);
    ContentsOfSuffix(meta, key, 0);
  }

  /** `<Seo description={description} title={title} />` over the given site metadata. */
  function SeoHead(description: Option<string>, title: string, site: SiteMetadata): (h: Head)
    ensures |h.meta| == 8 && Keys(h.meta) == MetaKeys
    ensures h.lang == "en" && h.defaultTitle == site.title
    ensures h.title == MetaTitle(title, site)
  {
    var metaDescription := MetaDescription(description, site);
    var metaTitle := MetaTitle(title, site);
    Head(
      "en",
      metaTitle,
      site.title,
      [
        Meta(Property("og:title"), metaTitle),
        Meta(Property("og:site_title"), metaTitle),
        Meta(Name("description"), metaDescription),
        Meta(Property("og:description"), metaDescription),
        Meta(Property("og:author"), site.author.name),
        Meta(Property("og:author"), site.author.nickname),
        Meta(Property("og:image"), site.ogImage),
        Meta(Property("og:type"), "website")
      ])
  }

  /** Both title tags carry the page title, and nothing else carries those keys. */
  lemma SeoTitleTags(description: Option<string>, title: string, site: SiteMetadata)
    ensures var meta := SeoHead(description, title, site).meta;
      ContentsOf(meta, Property("og:title")) == [MetaTitle(title, site)] &&
      ContentsOf(meta, Property("og:site_title")) == [MetaTitle(title, site)]
  {
    var meta := SeoHead(description, title, site).meta;
    ContentsOfEight(meta, Property("og:title"));
    ContentsOfEight(meta, Property("og:site_title"));
  }

  /** Both description tags carry the page description. */
  lemma SeoDescriptionTags(description: Option<string>, title: string, site: SiteMetadata)
    ensures var meta := SeoHead(description, title, site).meta;
      ContentsOf(meta, Name("description")) == [MetaDescription(description, site)] &&
      ContentsOf(meta, Property("og:description")) == [MetaDescription(description, site)]
  {
    var meta := SeoHead(description, title, site).meta;
    ContentsOfEight(meta, Name("description"));
    ContentsOfEight(meta, Property("og:description"));
  }

  /** There are two author tags: the author's name first, the nickname second. */
  lemma SeoAuthorTags(description: Option<string>, title: string, site: SiteMetadata)
    ensures ContentsOf(SeoHead(description, title, site).meta, Property("og:author")) ==
      [site.author.name, site.author.nickname]
  {
    var meta := SeoHead(description, title, site).meta;
    ContentsOfEight(meta, Property("og:author"));
  }

  /** The image tag is the site's image and the type tag is always "website". */
  lemma SeoFixedTags(description: Option<string>, title: string, site: SiteMetadata)
    ensures var meta := SeoHead(description, title, site).meta;
      ContentsOf(meta, Property("og:image")) == [site.ogImage] &&
      ContentsOf(meta, Property("og:type")) == ["website"]
  {
    var meta := SeoHead(description, title, site).meta;
    ContentsOfEight(meta, Property("og:image"));
    ContentsOfEight(meta, Property("og:type"));
  }
}
