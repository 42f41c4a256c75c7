/**
  The older mixin API: a `metaTag` that always uses `name=`, its two social
  composers, its own domain resolver, and the layout mixin whose title
  template records the last rendered title.
 */
module MetaMixin {
  import opened Tags
  import Internals

  /**
    The site origin: `APP_DOMAIN` when `process`, `process.env` and the
    variable exist and the value is truthy (a non-empty string), otherwise the
    browser origin. `None` stands for any missing link in that chain.
   */
  function Domain(env: Option<string>, origin: string): (d: string)
    ensures env.Some? && env.value != "" ==> d == env.value
    ensures env.None? || env.value == "" ==> d == origin
  {
    if env.Some? && env.value != "" then env.value else origin
  }

  /** The mixin's resolver and the newer one agree on every input. */
  lemma DomainAgreesWithInternals(env: Option<string>, origin: string)
    ensures Domain(env, origin) == Internals.Domain(env, origin)
  {
  }

  /** What the mixin's `metaTag(names, value)` returns. */
  function MetaTags(names: Names, value: string): map<string, Tag>
  {
    map n | n in NameList(names) :: Tag(NameAttr, n, Content(value))
  }

  /** The mixin's `metaTag`: one `{ name, content }` record per name, even for `og:*` names. */
  method MetaTag(names: Names, value: string) returns (m: map<string, Tag>)
    ensures m == MetaTags(names, value)
    ensures forall n :: n in m <==> n in NameList(names)
    ensures forall n :: n in m ==> m[n] == Tag(NameAttr, n, Content(value))
  {
    var ns := NameList(names);
    m := map[];
    for i := 0 to |ns|
      invariant m == MetaTags(Many(ns[..i]), value)
    {
      m := m[ns[i] := Tag(NameAttr, ns[i], Content(value))];
    }
    assert ns[..|ns|] == ns;
  }

  /**
    The mixin's `metaTag` is the newer `metaTag` with the attribute forced to
    `name`; in particular a single name is a one-element list and an empty
    list gives an empty map.
   */
  lemma MetaTagsIsForcedName(names: Names, name: string, value: string)
    ensures MetaTags(names, value) == Internals.MetaTags(names, Content(value), Internals.ForceName)
    ensures MetaTags(Single(name), value) == MetaTags(Many([name]), value)
                                         == map[name := Tag(NameAttr, name, Content(value))]
    ensures MetaTags(Many([]), value) == map[]
  {
    var m := MetaTags(names, value);
    var forced := Internals.MetaTags(names, Content(value), Internals.ForceName);
    assert m.Keys == forced.Keys;
    assert MetaTags(Many([]), value).Keys == {};
    assert MetaTags(Single(name), value).Keys == {name};
    assert MetaTags(Many([name]), value).Keys == {name};
  }

  /** The mixin's `layoutSocialMetaTags`: the title as literal content, all with `name=`. */
  function LayoutSocialMetaTags(domain: string, title: string): (m: map<string, Tag>)
    ensures m.Keys == {"og:title", "og:type", "og:image"}
    ensures m["og:title"] == Tag(NameAttr, "og:title", Content(title))
    ensures m["og:type"] == Tag(NameAttr, "og:type", Content("website"))
    ensures m["og:image"] == Tag(NameAttr, "og:image", Content(domain + Internals.SocialCoverPath))
  {
    var titleTag := MetaTags(Single("og:title"), title);
    var typeTag := MetaTags(Single("og:type"), "website");
    var imageTag := MetaTags(Single("og:image"), domain + Internals.SocialCoverPath);
    assert titleTag.Keys == {"og:title"};
    assert typeTag.Keys == {"og:type"};
    assert imageTag.Keys == {"og:image"};
    titleTag + typeTag + imageTag
  }

  /** The mixin's `pageSocialMetaTags`: description pair and URL, and no `og:title`. */
  function PageSocialMetaTags(domain: string, description: string, path: string): (m: map<string, Tag>)
    ensures m.Keys == {"description", "og:description", "og:url"}
    ensures "og:title" !in m
    ensures m["description"] == Tag(NameAttr, "description", Content(description))
    ensures m["og:description"] == Tag(NameAttr, "og:description", Content(description))
    ensures m["og:url"] == Tag(NameAttr, "og:url", Content(domain + path))
  {
    var descriptionTags := MetaTags(Many(["description", "og:description"]), description);
    var urlTag := MetaTags(Single("og:url"), domain + path);
    assert descriptionTags.Keys == {"description", "og:description"};
    assert urlTag.Keys == {"og:url"};
    descriptionTags + urlTag
  }

  /** What `PageMetaMixin(title, description).meta()` returns. */
  datatype PageBundle = PageBundle(title: string, meta: map<string, Tag>)

  /**
    `PageMetaMixin(title, description).meta()` on the current route: the title
    goes to the document title only, never to an `og:title` tag.
   */
  function PageMeta(domain: string, routePath: string, title: string, description: string): (b: PageBundle)
    ensures b.title == title
    ensures b.meta.Keys == {"description", "og:description", "og:url"}
    ensures b.meta["description"] == Tag(NameAttr, "description", Content(description))
    ensures b.meta["og:description"] == Tag(NameAttr, "og:description", Content(description))
    ensures b.meta["og:url"] == Tag(NameAttr, "og:url", Content(domain + routePath))
  {
    PageBundle(title, PageSocialMetaTags(domain, description, routePath))
  }

  /**
    `LayoutMetaMixin(titleTemplateFn)`: the component's `metaTitle` field,
    updated each time the head manager applies the title template.
   */
  class LayoutMeta {
    var metaTitle: string
    const titleTemplateFn: TemplateFn

    /** The mixin's `data()`: `metaTitle` starts empty; the template defaults to the identity. */
    constructor(titleTemplateFn: TemplateFn := (title: string) => title)
      ensures metaTitle == ""
      ensures this.titleTemplateFn == titleTemplateFn
    {
      metaTitle := "";
      this.titleTemplateFn := titleTemplateFn;
    }

    /** `titleTemplate(title)`: stores the templated title in `metaTitle` and returns it. */
    method TitleTemplate(title: string) returns (r: string)
      modifies this
      ensures metaTitle == titleTemplateFn(title)
      ensures r == metaTitle
    {
      metaTitle := titleTemplateFn(title);
      r := metaTitle;
    }

    /** The `meta` part of the mixin's `meta()`: the layout tags for the last templated title. */
    function Meta(domain: string): (m: map<string, Tag>)
      reads this
      ensures m.Keys == {"og:title", "og:type", "og:image"}
      ensures m["og:title"] == Tag(NameAttr, "og:title", Content(metaTitle))
    {
      LayoutSocialMetaTags(domain, metaTitle)
    }
  }

  /**
    With the default template the layout's first render has an empty
    `og:title`; after the head manager applies `titleTemplate(x)`, it returns
    `x` and the next render carries `x`.
   */
  method DefaultTitleTemplate(domain: string, title: string)
    returns (before: map<string, Tag>, r: string, after: map<string, Tag>)
    ensures "og:title" in before && before["og:title"].body == Content("")
    ensures r == title
    ensures "og:title" in after && after["og:title"] == Tag(NameAttr, "og:title", Content(title))
  {
    var layout := new LayoutMeta();
    before := layout.Meta(domain);
    r := layout.TitleTemplate(title);
    after := layout.Meta(domain);
  }
}
