/**
  The descriptor builder of the composition-function API: the domain resolver,
  `metaTag` with its name/property classification, and the two Open Graph
  composers built on it.
 */
module Internals {
  import opened Tags

  /** The third argument of `metaTag`; `Auto` is its default. */
  datatype AttributeMode = Auto | ForceName | ForceProperty

  /**
    The five names that take `name=` in `Auto` mode: application-name, author,
    description, generator and keywords, all of them standard metadata names of
    the HTML Living Standard (section 4.2.5.1). Every other name, the standard's
    other metadata names included, takes `property=`.
   */
  const Html5Properties: seq<string> :=
    ["application-name", "author", "description", "generator", "keywords"]

  const SocialCoverPath: string := "/social-cover.jpg"

  /**
    The site origin: the `META_APP_DOMAIN` environment value when it is a
    non-empty string (JavaScript `||` also skips the empty string), otherwise
    the browser origin.
   */
  function Domain(env: Option<string>, origin: string): (d: string)
    ensures env.Some? && env.value != "" ==> d == env.value
    ensures env.None? || env.value == "" ==> d == origin
  {
    if env.Some? && env.value != "" then env.value else origin
  }

  /** The attribute a single tag name gets; decided per name, never per call. */
  function KindFor(name: string, mode: AttributeMode): AttributeKind
  {
    match mode
    case ForceName => NameAttr
    case ForceProperty => PropertyAttr
    case Auto => if name in Html5Properties then NameAttr else PropertyAttr
  }

  function TagFor(name: string, value: Body, mode: AttributeMode): Tag
  {
    Tag(KindFor(name, mode), name, value)
  }

  /** What `metaTag(names, value, mode)` returns: one descriptor keyed by each name. */
  function MetaTags(names: Names, value: Body, mode: AttributeMode := Auto): map<string, Tag>
  {
    map n | n in NameList(names) :: TagFor(n, value, mode)
  }

  /**
    `metaTag`: normalises the names to a list and writes one descriptor per
    name into the result, later names overwriting equal earlier ones.
   */
  method MetaTag(names: Names, value: Body, mode: AttributeMode := Auto)
    returns (m: map<string, Tag>)
    ensures m == MetaTags(names, value, mode)
    ensures forall n :: n in m <==> n in NameList(names)
    ensures forall n :: n in m ==> m[n].tagName == n && m[n].body == value
    ensures forall n :: n in m ==>
              (m[n].kind == NameAttr <==>
                 mode == ForceName || (mode == Auto && n in Html5Properties))
  {
    var ns := NameList(names);
    m := map[];
    for i := 0 to |ns|
      invariant m == MetaTags(Many(ns[..i]), value, mode)
    {
      var kind := if mode != Auto then KindFor(ns[i], mode)
                  else if ns[i] in Html5Properties then NameAttr
                  else PropertyAttr;
      m := m[ns[i] := Tag(kind, ns[i], value)];
    }
    assert ns[..|ns|] == ns;
  }

  /** A single string name behaves exactly like a one-element list. */
  lemma SingleNameIsOneElementList(name: string, value: Body, mode: AttributeMode)
    ensures MetaTags(Single(name), value, mode) == MetaTags(Many([name]), value, mode)
    ensures MetaTags(Single(name), value, mode) == map[name := TagFor(name, value, mode)]
  {
    var m := MetaTags(Single(name), value, mode);
    assert m.Keys == {name};
  }

  /** An empty name list yields an empty map. */
  lemma EmptyNamesEmptyMap(value: Body, mode: AttributeMode)
    ensures MetaTags(Many([]), value, mode) == map[]
  {
    assert MetaTags(Many([]), value, mode).Keys == {};
  }

  /**
    Calling `metaTag` on a list is the same as merging one call per part of
    the list: classification of one name never leaks into another.
   */
  lemma MetaTagsSplit(a: seq<string>, b: seq<string>, value: Body, mode: AttributeMode)
    ensures MetaTags(Many(a + b), value, mode)
         == MetaTags(Many(a), value, mode) + MetaTags(Many(b), value, mode)
  {
    var whole := MetaTags(Many(a + b), value, mode);
    var merged := MetaTags(Many(a), value, mode) + MetaTags(Many(b), value, mode);
    forall n ensures n in whole <==> n in merged {
      assert n in a + b <==> n in a || n in b;
    }
    assert whole.Keys == merged.Keys;
  }

  /** In `Auto` mode a name gets `name=` exactly when it is on the allowlist. */
  lemma AutoKindIffAllowlisted(names: Names, value: Body, n: string)
    requires n in NameList(names)
    ensures n in MetaTags(names, value)
    ensures MetaTags(names, value)[n].kind == NameAttr <==> n in Html5Properties
    ensures MetaTags(names, value)[n].kind == PropertyAttr <==> n !in Html5Properties
  {
  }

  /** An explicit override applies to every entry, whatever the allowlist says. */
  lemma OverrideAppliesToAll(names: Names, value: Body, mode: AttributeMode)
    requires mode != Auto
    ensures forall n :: n in MetaTags(names, value, mode) ==>
              MetaTags(names, value, mode)[n].kind
                == (if mode == ForceName then NameAttr else PropertyAttr)
  {
  }

  /**
    `["description", "og:description"]` in `Auto` mode gives `name="description"`
    and `property="og:description"`, both with the same content.
   */
  lemma DescriptionPair(description: string)
    ensures MetaTags(Many(["description", "og:description"]), Content(description))
         == map["description" := Tag(NameAttr, "description", Content(description)),
                "og:description" := Tag(PropertyAttr, "og:description", Content(description))]
  {
    var m := MetaTags(Many(["description", "og:description"]), Content(description));
    assert "og:description" !in Html5Properties;
    assert m.Keys == {"description", "og:description"};
  }

  /**
    `layoutSocialMetaTags`: site-wide defaults: the title as a template, the
    type `website` and the absolute URL of the cover image.
   */
  function LayoutSocialMetaTags(domain: string, titleTemplateFn: TemplateFn): (m: map<string, Tag>)
    ensures m.Keys == {"og:title", "og:type", "og:image"}
    ensures m["og:title"] == Tag(PropertyAttr, "og:title", Template(titleTemplateFn))
    ensures m["og:type"] == Tag(PropertyAttr, "og:type", Content("website"))
    ensures m["og:image"] == Tag(PropertyAttr, "og:image", Content(domain + SocialCoverPath))
  {
    SingleNameIsOneElementList("og:title", Template(titleTemplateFn), Auto);
    SingleNameIsOneElementList("og:type", Content("website"), Auto);
    SingleNameIsOneElementList("og:image", Content(domain + SocialCoverPath), Auto);
    MetaTags(Single("og:title"), Template(titleTemplateFn))
    + MetaTags(Single("og:type"), Content("website"))
    + MetaTags(Single("og:image"), Content(domain + SocialCoverPath))
  }

  /**
    `pageSocialMetaTags`: per-route tags: the title, the description under both
    its HTML and its Open Graph name, and the absolute URL of the page.
   */
  function PageSocialMetaTags(domain: string, title: string, description: string, path: string)
    : (m: map<string, Tag>)
    ensures m.Keys == {"og:title", "description", "og:description", "og:url"}
    ensures m["og:title"] == Tag(PropertyAttr, "og:title", Content(title))
    ensures m["description"] == Tag(NameAttr, "description", Content(description))
    ensures m["og:description"] == Tag(PropertyAttr, "og:description", Content(description))
    ensures m["og:url"] == Tag(PropertyAttr, "og:url", Content(domain + path))
  {
    PageTagsShape(domain, title, description, path);
    MetaTags(Single("og:title"), Content(title))
    + MetaTags(Many(["description", "og:description"]), Content(description))
    + MetaTags(Single("og:url"), Content(domain + path))
  }

  lemma PageTagsShape(domain: string, title: string, description: string, path: string)
    ensures MetaTags(Single("og:title"), Content(title))
            + MetaTags(Many(["description", "og:description"]), Content(description))
            + MetaTags(Single("og:url"), Content(domain + path))
         == map["og:title" := Tag(PropertyAttr, "og:title", Content(title)),
                "description" := Tag(NameAttr, "description", Content(description)),
                "og:description" := Tag(PropertyAttr, "og:description", Content(description)),
                "og:url" := Tag(PropertyAttr, "og:url", Content(domain + path))]
  {
    SingleNameIsOneElementList("og:title", Content(title), Auto);
    DescriptionPair(description);
    SingleNameIsOneElementList("og:url", Content(domain + path), Auto);
    var titleTag := map["og:title" := Tag(PropertyAttr, "og:title", Content(title))];
    var descriptionTags := map["description" := Tag(NameAttr, "description", Content(description)),
                               "og:description" := Tag(PropertyAttr, "og:description", Content(description))];
    var urlTag := map["og:url" := Tag(PropertyAttr, "og:url", Content(domain + path))];
    assert "og:title" !in Html5Properties && "og:url" !in Html5Properties;
    assert titleTag + descriptionTags
        == titleTag["description" := descriptionTags["description"]]
                   ["og:description" := descriptionTags["og:description"]];
    assert titleTag + descriptionTags + urlTag
        == map["og:title" := Tag(PropertyAttr, "og:title", Content(title)),
               "description" := Tag(NameAttr, "description", Content(description)),
               "og:description" := Tag(PropertyAttr, "og:description", Content(description)),
               "og:url" := Tag(PropertyAttr, "og:url", Content(domain + path))];
  }
}
