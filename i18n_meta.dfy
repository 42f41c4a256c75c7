/**
  The internationalised page API: Open Graph locale tags, `<link rel="alternate"
  hreflang>` records for the alternate versions of a page, the translate-or-literal
  choice for the title and description, and the bundle handed to the head manager.
 */
module I18nMeta {
  import opened Tags
  import Internals

  /** One alternate version of the current page. */
  datatype LocaleDescriptor = LocaleDescriptor(routePath: string, locale: string)

  /** A `<link>` record: the absolute URL, the language code and the relation. */
  datatype AlternateLink = AlternateLink(href: string, hreflang: string, rel: string)

  /** What the head manager receives for an internationalised page. */
  datatype MetaBundle = MetaBundle(title: string, meta: map<string, Tag>, link: map<string, AlternateLink>)

  const AltPrefix: string := "og-alt-"
  const CurrentPrefix: string := "og-alt-current-"
  const LinkPrefix: string := "alt-"
  const OgLocale: string := "og:locale"
  const OgLocaleAlternate: string := "og:locale:alternate"

  /** An `og:locale:alternate` property whose content is the locale code, never a URL. */
  function AlternateTag(locale: string): Tag
  {
    Tag(PropertyAttr, OgLocaleAlternate, Content(locale))
  }

  /** The `og:locale` property whose content is the current locale code. */
  function CurrentTag(current: string): Tag
  {
    Tag(PropertyAttr, OgLocale, Content(current))
  }

  /** The key `og-alt-<locale>` of an alternate tag; different locales get different keys. */
  function AltKey(locale: string): (k: string)
    ensures k == AltPrefix + locale && k[|AltPrefix|..] == locale
  {
    AltPrefix + locale
  }

  function AlternateTags(locales: seq<string>): map<string, Tag>
  {
    map l | l in locales :: AltKey(l) := AlternateTag(l)
  }

  lemma AlternateTagsSnoc(locales: seq<string>, l: string)
    ensures AlternateTags(locales + [l]) == AlternateTags(locales)[AltKey(l) := AlternateTag(l)]
  {
    var lhs := AlternateTags(locales + [l]);
    var rhs := AlternateTags(locales)[AltKey(l) := AlternateTag(l)];
    forall k ensures k in lhs <==> k in rhs {
      if k in rhs && k != AltKey(l) {
        var l' :| l' in locales && AltKey(l') == k;
        assert l' in locales + [l];
      }
    }
    assert lhs.Keys == rhs.Keys;
  }

  /** What `generateLocaleMetaTags(current, locales)` returns. */
  function LocaleMetaTags(current: string, locales: seq<string>): map<string, Tag>
  {
    AlternateTags(locales)[CurrentPrefix + current := CurrentTag(current)]
  }

  /**
    `generateLocaleMetaTags`: one `og:locale:alternate` tag per locale, then the
    `og:locale` tag of the current page, written last.
   */
  method GenerateLocaleMetaTags(current: string, locales: seq<string>)
    returns (meta: map<string, Tag>)
    ensures meta == LocaleMetaTags(current, locales)
    ensures forall k :: k in meta <==> k == CurrentPrefix + current || exists l :: l in locales && k == AltPrefix + l
  {
    meta := map[];
    for i := 0 to |locales|
      invariant meta == AlternateTags(locales[..i])
    {
      var locale := locales[i];
      meta := meta[AltPrefix + locale := AlternateTag(locale)];
      assert locales[..i + 1] == locales[..i] + [locale];
      AlternateTagsSnoc(locales[..i], locale);
    }
    assert locales[..|locales|] == locales;
    meta := meta[CurrentPrefix + current := CurrentTag(current)];
  }

  /** Every key of the locale tags starts with `og-alt-`. */
  lemma LocaleKeysPrefixed(current: string, locales: seq<string>)
    ensures forall k :: k in LocaleMetaTags(current, locales) ==> HasPrefix(AltPrefix, k)
  {
    forall k | k in LocaleMetaTags(current, locales)
      ensures HasPrefix(AltPrefix, k)
    {
      if k == CurrentPrefix + current {
        assert k[..|AltPrefix|] == AltPrefix;
      } else {
        var l :| l in locales && k == AltPrefix + l;
        assert k[..|AltPrefix|] == AltPrefix;
      }
    }
  }

  /** The key of the current tag is the key an alternate `current-<current>` would get. */
  lemma CurrentKeyIsAltKey(current: string)
    ensures CurrentPrefix + current == AltPrefix + ("current-" + current)
  {
  }

  /**
    Each listed locale `l` has the key `og-alt-l` with content `l` and property
    `og:locale:alternate`, unless `l` is `current-<current>`, whose key the
    current tag takes over.
   */
  lemma LocaleMetaAlternates(current: string, locales: seq<string>, l: string)
    requires l in locales && l != "current-" + current
    ensures AltPrefix + l in LocaleMetaTags(current, locales)
    ensures LocaleMetaTags(current, locales)[AltPrefix + l] == AlternateTag(l)
  {
    CurrentKeyIsAltKey(current);
    assert AltKey(l) in AlternateTags(locales);
    if AltPrefix + l == CurrentPrefix + current {
      PrefixInjective(AltPrefix, l, "current-" + current);
    }
  }

  /**
    There is always exactly one `og:locale` tag: keyed `og-alt-current-<current>`,
    with the current locale as content, even when the list is empty.
   */
  lemma LocaleMetaCurrent(current: string, locales: seq<string>)
    ensures CurrentPrefix + current in LocaleMetaTags(current, locales)
    ensures LocaleMetaTags(current, locales)[CurrentPrefix + current] == CurrentTag(current)
    ensures forall k :: k in LocaleMetaTags(current, locales) &&
                        LocaleMetaTags(current, locales)[k].tagName == OgLocale ==>
                          k == CurrentPrefix + current
  {
    assert |OgLocaleAlternate| != |OgLocale|;
  }

  /** A locale listed twice yields one entry: the entry count is the number of distinct locales. */
  lemma AlternateTagsCount(locales: seq<string>)
    ensures |AlternateTags(locales)| == |Distinct(locales)|
  {
    var alt := AlternateTags(locales);
    assert alt.Keys == set x | x in Distinct(locales) :: AltPrefix + x;
    PrefixedCard(AltPrefix, Distinct(locales));
  }

  /**
    The locale tags count one entry per distinct locale plus the `og:locale`
    entry, which replaces the alternate of a locale named `current-<current>`.
   */
  lemma LocaleMetaCount(current: string, locales: seq<string>)
    ensures "current-" + current !in locales ==>
              |LocaleMetaTags(current, locales)| == |Distinct(locales)| + 1
    ensures "current-" + current in locales ==>
              |LocaleMetaTags(current, locales)| == |Distinct(locales)|
  {
    AlternateTagsCount(locales);
    CurrentKeyIsAltKey(current);
    var alt := AlternateTags(locales);
    if CurrentPrefix + current in alt {
      var l :| l in locales && AltPrefix + l == CurrentPrefix + current;
      PrefixInjective(AltPrefix, l, "current-" + current);
    }
  }

  /** The collision: an `og-alt-current-en` alternate is replaced by the `og:locale` tag. */
  lemma CurrentLocaleCollision()
    ensures LocaleMetaTags("en", ["current-en"]) == map["og-alt-current-en" := CurrentTag("en")]
  {
    assert AltKey("current-en") == "og-alt-current-en";
    assert CurrentPrefix + "en" == "og-alt-current-en";
    assert AlternateTags(["current-en"]).Keys == {"og-alt-current-en"};
    assert LocaleMetaTags("en", ["current-en"]).Keys == {"og-alt-current-en"};
  }

  /** The link record for one alternate version: absolute URL, language, `alternate`. */
  function LinkFor(domain: string, d: LocaleDescriptor): AlternateLink
  {
    AlternateLink(domain + d.routePath, d.locale, "alternate")
  }

  /** What `generateLocaleLinks(domain, locales)` returns: the entries written in list order. */
  function LocaleLinks(domain: string, locales: seq<LocaleDescriptor>): map<string, AlternateLink>
    decreases |locales|
  {
    if locales == [] then map[]
    else
      var last := locales[|locales| - 1];
      LocaleLinks(domain, locales[..|locales| - 1])[LinkPrefix + last.locale := LinkFor(domain, last)]
  }

  /** `generateLocaleLinks`: one `alt-<locale>` link per descriptor, written in list order. */
  method GenerateLocaleLinks(domain: string, locales: seq<LocaleDescriptor>)
    returns (links: map<string, AlternateLink>)
    ensures links == LocaleLinks(domain, locales)
    ensures locales == [] ==> links == map[]
  {
    links := map[];
    for i := 0 to |locales|
      invariant links == LocaleLinks(domain, locales[..i])
    {
      var d := locales[i];
      links := links[LinkPrefix + d.locale := AlternateLink(domain + d.routePath, d.locale, "alternate")];
      assert locales[..i + 1][..i] == locales[..i];
    }
    assert locales[..|locales|] == locales;
  }

  /** The set of locale codes named in a descriptor list. */
  function LocaleCodes(locales: seq<LocaleDescriptor>): set<string>
  {
    set d | d in locales :: d.locale
  }

  /** The links have a key `alt-<l>` exactly for the locales `l` in the list. */
  lemma {:induction false} LocaleLinksKeys(domain: string, locales: seq<LocaleDescriptor>)
    ensures LocaleLinks(domain, locales).Keys == set l | l in LocaleCodes(locales) :: LinkPrefix + l
    decreases |locales|
  {
    if locales != [] {
      var init := locales[..|locales| - 1];
      LocaleLinksKeys(domain, init);
      assert locales == init + [locales[|locales| - 1]];
      assert LocaleCodes(locales) == LocaleCodes(init) + {locales[|locales| - 1].locale};
    }
  }

  /**
    When a locale appears more than once, the last descriptor with that locale
    decides the link: `href = domain + routePath`, `hreflang = locale`,
    `rel = "alternate"`.
   */
  lemma {:induction false} LocaleLinksLastWins(domain: string, locales: seq<LocaleDescriptor>, i: nat)
    requires i < |locales|
    requires forall j :: i < j < |locales| ==> locales[j].locale != locales[i].locale
    ensures LinkPrefix + locales[i].locale in LocaleLinks(domain, locales)
    ensures LocaleLinks(domain, locales)[LinkPrefix + locales[i].locale] == LinkFor(domain, locales[i])
    decreases |locales|
  {
    var n := |locales| - 1;
    if i < n {
      var init := locales[..n];
      LocaleLinksLastWins(domain, init, i);
      if LinkPrefix + locales[n].locale == LinkPrefix + locales[i].locale {
        PrefixInjective(LinkPrefix, locales[n].locale, locales[i].locale);
      }
    }
  }

  /** The link count equals the number of distinct locales. */
  lemma LocaleLinksCount(domain: string, locales: seq<LocaleDescriptor>)
    ensures |LocaleLinks(domain, locales)| == |LocaleCodes(locales)|
  {
    LocaleLinksKeys(domain, locales);
    PrefixedCard(LinkPrefix, LocaleCodes(locales));
  }

  /** The title or description: its translation when `te` knows the key, the input itself otherwise. */
  function Translated(te: string -> bool, t: string -> string, pathOrContent: string): (r: string)
    ensures te(pathOrContent) ==> r == t(pathOrContent)
    ensures !te(pathOrContent) ==> r == pathOrContent
  {
    if te(pathOrContent) then t(pathOrContent) else pathOrContent
  }

  /** The locale code of each descriptor, in order. */
  function LocaleList(locales: seq<LocaleDescriptor>): (codes: seq<string>)
    ensures |codes| == |locales|
    ensures forall i :: 0 <= i < |locales| ==> codes[i] == locales[i].locale
  {
    seq(|locales|, i requires 0 <= i < |locales| => locales[i].locale)
  }

  /**
    The bundle the `usePageSocialMetaI18n` producer returns for the current
    route path and locale: the title, the page tags merged with the locale
    tags, and the alternate links.
   */
  function PageSocialMetaI18n(
    domain: string, routePath: string, current: string,
    te: string -> bool, t: string -> string,
    titlePathOrContent: string, descriptionPathOrContent: string,
    locales: seq<LocaleDescriptor>): (b: MetaBundle)
    ensures te(titlePathOrContent) ==> b.title == t(titlePathOrContent)
    ensures !te(titlePathOrContent) ==> b.title == titlePathOrContent
    ensures b.meta.Keys == {"og:title", "description", "og:description", "og:url"}
                           + LocaleMetaTags(current, LocaleList(locales)).Keys
    ensures b.link.Keys == set l | l in LocaleCodes(locales) :: LinkPrefix + l
  {
    LocaleLinksKeys(domain, locales);
    var title := Translated(te, t, titlePathOrContent);
    var description := Translated(te, t, descriptionPathOrContent);
    MetaBundle(
      title,
      Internals.PageSocialMetaTags(domain, title, description, routePath)
        + LocaleMetaTags(current, LocaleList(locales)),
      LocaleLinks(domain, locales))
  }

  /** No page key starts with `og-alt-`, so no locale tag can replace a page tag. */
  lemma PageKeysNotPrefixed(domain: string, title: string, description: string, path: string)
    ensures forall k :: k in Internals.PageSocialMetaTags(domain, title, description, path) ==>
                          !HasPrefix(AltPrefix, k)
  {
    assert !HasPrefix(AltPrefix, "og:title") by { assert "og:title"[2] != AltPrefix[2]; }
    assert !HasPrefix(AltPrefix, "og:url") by { assert |"og:url"| < |AltPrefix|; }
    assert !HasPrefix(AltPrefix, "og:description") by { assert "og:description"[2] != AltPrefix[2]; }
    assert !HasPrefix(AltPrefix, "description") by { assert "description"[0] != AltPrefix[0]; }
  }

  /** No page tag is an `og:locale` tag. */
  lemma PageTagsNotOgLocale(domain: string, title: string, description: string, path: string)
    ensures forall k :: k in Internals.PageSocialMetaTags(domain, title, description, path) ==>
                          Internals.PageSocialMetaTags(domain, title, description, path)[k].tagName != OgLocale
  {
    var page := Internals.PageSocialMetaTags(domain, title, description, path);
    assert |"og:title"| != |OgLocale| && |"description"| != |OgLocale|;
    assert |"og:description"| != |OgLocale| && |"og:url"| != |OgLocale|;
  }

  /**
    The merged meta keeps every page tag and every locale tag unchanged and
    holds nothing else.
   */
  lemma MergedMetaKeepsBoth(
    domain: string, routePath: string, current: string,
    te: string -> bool, t: string -> string,
    titlePathOrContent: string, descriptionPathOrContent: string,
    locales: seq<LocaleDescriptor>)
    ensures var b := PageSocialMetaI18n(domain, routePath, current, te, t,
                                         titlePathOrContent, descriptionPathOrContent, locales);
            var page := Internals.PageSocialMetaTags(domain, b.title,
                          Translated(te, t, descriptionPathOrContent), routePath);
            var localeTags := LocaleMetaTags(current, LocaleList(locales));
            && b.meta.Keys == page.Keys + localeTags.Keys
            && page.Keys !! localeTags.Keys
            && (forall k :: k in page ==> b.meta[k] == page[k])
            && (forall k :: k in localeTags ==> b.meta[k] == localeTags[k])
  {
    var title := Translated(te, t, titlePathOrContent);
    var description := Translated(te, t, descriptionPathOrContent);
    var page := Internals.PageSocialMetaTags(domain, title, description, routePath);
    var localeTags := LocaleMetaTags(current, LocaleList(locales));
    PageKeysNotPrefixed(domain, title, description, routePath);
    LocaleKeysPrefixed(current, LocaleList(locales));
  }

  /**
    The bundle's title is the translated-or-literal title, and the `og:title`
    and description tags carry the same translated-or-literal values.
   */
  lemma BundleTitleAndDescription(
    domain: string, routePath: string, current: string,
    te: string -> bool, t: string -> string,
    titlePathOrContent: string, descriptionPathOrContent: string,
    locales: seq<LocaleDescriptor>)
    ensures var b := PageSocialMetaI18n(domain, routePath, current, te, t,
                                         titlePathOrContent, descriptionPathOrContent, locales);
            && b.title == (if te(titlePathOrContent) then t(titlePathOrContent) else titlePathOrContent)
            && b.meta["og:title"] == Tag(PropertyAttr, "og:title", Content(b.title))
            && b.meta["description"].body == Content(Translated(te, t, descriptionPathOrContent))
            && b.meta["og:description"].body == Content(Translated(te, t, descriptionPathOrContent))
            && b.meta["og:url"] == Tag(PropertyAttr, "og:url", Content(domain + routePath))
  {
    MergedMetaKeepsBoth(domain, routePath, current, te, t,
                        titlePathOrContent, descriptionPathOrContent, locales);
  }

  /**
    Each time the producer runs it reads the current locale afresh: the bundle
    has exactly one `og:locale` tag and its content is that locale.
   */
  lemma BundleTracksCurrentLocale(
    domain: string, routePath: string, current: string,
    te: string -> bool, t: string -> string,
    titlePathOrContent: string, descriptionPathOrContent: string,
    locales: seq<LocaleDescriptor>)
    ensures var b := PageSocialMetaI18n(domain, routePath, current, te, t,
                                         titlePathOrContent, descriptionPathOrContent, locales);
            && CurrentPrefix + current in b.meta
            && b.meta[CurrentPrefix + current] == CurrentTag(current)
            && forall k :: k in b.meta && b.meta[k].tagName == OgLocale ==> k == CurrentPrefix + current
  {
    var title := Translated(te, t, titlePathOrContent);
    var description := Translated(te, t, descriptionPathOrContent);
    var page := Internals.PageSocialMetaTags(domain, title, description, routePath);
    var localeTags := LocaleMetaTags(current, LocaleList(locales));
    var merged := page + localeTags;
    assert PageSocialMetaI18n(domain, routePath, current, te, t,
                              titlePathOrContent, descriptionPathOrContent, locales).meta == merged;
    LocaleMetaCurrent(current, LocaleList(locales));
    PageTagsNotOgLocale(domain, title, description, routePath);
  }
}
