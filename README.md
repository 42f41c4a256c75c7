# Meta-tag descriptor builder, modelled in Dafny

This project models the core of a Quasar app extension that builds social-sharing
meta-tag descriptors. From tag names, a value and the site domain it builds a map
from keys to `<meta>` records. It also builds Open Graph locale tags and
`<link rel="alternate" hreflang>` records for the alternate-language versions of a
page.

The model has four modules:

- `Tags` (`tags.dfy`) holds the shared values. `Tag(kind, tagName, body)` is one
  `<meta>` record. `kind` is `name=` or `property=`. `body` is either a literal
  `Content` or a deferred `Template`. `Names` is a single name or a list of names.
  Two small lemmas say that prefixing keys with a fixed string never merges two
  keys.
- `Internals` (`internals.dfy`) models
  `src/helpers/internals.ts`. It covers the domain resolver and `metaTag`, which
  classifies each name as `name=` or `property=`. The five names
  application-name, author, description, generator and keywords get `name=`.
  Every other name gets `property=`, including the other standard metadata names
  of section 4.2.5.1 of the HTML Living Standard. `metaTag` is a method
  with a loop, proved against the map comprehension `MetaTags`. The module also
  holds the Open Graph composers `LayoutSocialMetaTags` and `PageSocialMetaTags`.
- `I18nMeta` (`i18n_meta.dfy`) models `src/helpers/index.ts`. It covers the
  `og:locale` / `og:locale:alternate` tags of the Open Graph protocol's "Optional
  Metadata" section, built by a loop (`GenerateLocaleMetaTags`). It covers the
  alternate links, also built by a loop (`GenerateLocaleLinks`). It covers the
  translate-or-literal choice for title and description, and the bundle that the
  `usePageSocialMetaI18n` producer returns.
- `MetaMixin` (`meta_mixin.dfy`) models `src/mixins/meta.ts`. Its `metaTag` always
  uses `name=`. It has its own two composers and its own domain resolver. The
  class `LayoutMeta` holds the `metaTitle` field that `titleTemplate` updates.

The host framework's inputs are plain parameters. These are the resolved domain,
the route path, the current locale, the translator pair `te`/`t`, and the
environment value with the browser origin. Template functions are opaque values
of type `string -> string`. Only where they are placed matters.

Behaviour the model follows from the code:

- The `og:locale` tag is always written, keyed `og-alt-current-<current>`. The
  loop writes it after the alternates. So a listed locale spelled
  `current-<current>` has its alternate replaced by the `og:locale` tag. Its key
  `og-alt-current-<current>` is the same key. `CurrentLocaleCollision` shows this
  for `en`, and `LocaleMetaAlternates` and `LocaleMetaCount` state the exact rule.
- When a locale appears twice, the later entry wins in both the locale tags and
  the links. For the tags both entries are equal anyway. For the links the last
  descriptor's `routePath` decides the `href` (`LocaleLinksLastWins`).
- The domain falls back to the browser origin when the environment value is
  missing. It also falls back when the value is the empty string, because of `||`.
- The mixin's `metaTag` gives every name `name=`, `og:*` names included. It equals
  the newer `metaTag` with the attribute forced to `name` (`MetaTagsIsForcedName`).
- The mixin's `PageMetaMixin` passes `(description, path)` to its own two-argument
  `pageSocialMetaTags`. The arguments are not swapped in these files.
- The layout mixin renders `og:title` from `metaTitle`. That field is `""` until
  the head manager has applied `titleTemplate` once (`DefaultTitleTemplate`).

## Model

| member | source | states |
|---|---|---|
| Tags.NameList | src/helpers/internals.ts:48 | a single string name becomes the one-element list `[name]`; a list is used as given |
| Internals.Domain | src/helpers/internals.ts:5-10 | the result is the `META_APP_DOMAIN` value when it is a non-empty string, and the browser origin when the value is missing or empty |
| Internals.MetaTag | src/helpers/internals.ts:43-80 | the loop's map equals the comprehension `MetaTags`; its keys are exactly the given names; each entry carries its own name and the given content or template unchanged; it has `name=` iff the mode is `name`, or the mode is `auto` and the name is on the HTML allowlist |
| Internals.SingleNameIsOneElementList | src/helpers/internals.ts:48 | a single name gives the same map as the one-element list, namely exactly one entry keyed by that name |
| Internals.EmptyNamesEmptyMap | src/helpers/internals.ts:63-77 | an empty name list yields an empty map |
| Internals.MetaTagsSplit | src/helpers/internals.ts:63-77 | a call on the list `a + b` equals the union of the calls on `a` and on `b`, so no classification carries over between names |
| Internals.AutoKindIffAllowlisted | src/helpers/internals.ts:35-70 | in the default `auto` mode a listed name gets `name=` iff it is one of the five standard metadata names, and `property=` otherwise |
| Internals.OverrideAppliesToAll | src/helpers/internals.ts:65-67 | with an explicit `name` or `property` mode every entry uses that attribute, whatever the allowlist says |
| Internals.DescriptionPair | src/helpers/internals.ts:30 | `["description", "og:description"]` yields exactly `name="description"` and `property="og:description"`, both with the same content |
| Internals.LayoutSocialMetaTags | src/helpers/internals.ts:12-21 | exactly the keys `og:title`, `og:type`, `og:image`, all `property=`; `og:title` carries the template function, `og:type` the content `website`, `og:image` the content `domain + "/social-cover.jpg"` |
| Internals.PageSocialMetaTags | src/helpers/internals.ts:23-33 | exactly the keys `og:title`, `description`, `og:description`, `og:url`; `og:title` has the title as content, `description` is `name=` and `og:description` is `property=`, both with the description, and `og:url` is `domain + path` |
| I18nMeta.GenerateLocaleMetaTags | src/helpers/index.ts:23-41 | the loop's map equals `LocaleMetaTags`; its keys are exactly `og-alt-<l>` for each listed locale plus `og-alt-current-<current>` |
| I18nMeta.LocaleKeysPrefixed | src/helpers/index.ts:28-35 | every key of the locale tags starts with `og-alt-` |
| I18nMeta.LocaleMetaAlternates | src/helpers/index.ts:26-32 | each listed locale `l` other than `current-<current>` has the key `og-alt-l`, with content `l` (the code, not a URL) and property `og:locale:alternate` |
| I18nMeta.LocaleMetaCurrent | src/helpers/index.ts:34-38 | the key `og-alt-current-<current>` always holds `property="og:locale"` with the current locale as content, even for an empty list, and no other key holds an `og:locale` tag |
| I18nMeta.AlternateTagsCount | src/helpers/index.ts:26-32 | the alternates number exactly the distinct locales, so a locale listed twice gives one entry |
| I18nMeta.LocaleMetaCount | src/helpers/index.ts:26-38 | the locale tags number the distinct locales plus one, or exactly the distinct locales when `current-<current>` is listed and its key is taken over |
| I18nMeta.CurrentLocaleCollision | src/helpers/index.ts:28-38 | with current locale `en` and the list `["current-en"]`, the result has the single entry `og-alt-current-en`, holding the `og:locale` tag |
| I18nMeta.GenerateLocaleLinks | src/helpers/index.ts:43-55 | the loop's map equals `LocaleLinks`, the writes in list order; an empty list gives an empty map |
| I18nMeta.LocaleLinksKeys | src/helpers/index.ts:46-52 | the links have a key `alt-<l>` exactly for the locales `l` named in the list |
| I18nMeta.LocaleLinksLastWins | src/helpers/index.ts:46-52 | the last descriptor with a given locale decides its link: `href = domain + routePath`, `hreflang = locale`, `rel = "alternate"` |
| I18nMeta.LocaleLinksCount | src/helpers/index.ts:46-52 | the number of links equals the number of distinct locales |
| I18nMeta.Translated | src/helpers/index.ts:72-77 | the result is `t(x)` when `te(x)` holds, and the raw input `x` otherwise |
| I18nMeta.LocaleList | src/helpers/index.ts:80-83 | the list of locale codes has one code per descriptor, in order |
| I18nMeta.PageSocialMetaI18n | src/helpers/index.ts:67-93 | the producer's bundle: the title is `t(x)` when `te(x)` holds and `x` otherwise; the meta keys are the four page keys plus the locale keys; the link keys are `alt-<l>` for the listed locales. `MergedMetaKeepsBoth`, `BundleTitleAndDescription` and `BundleTracksCurrentLocale` add that both tag sets survive the merge unchanged, that the text tags carry the translated-or-literal values, and that there is exactly one `og:locale` tag, for the locale of that run |
| I18nMeta.PageKeysNotPrefixed | src/helpers/index.ts:87-90 | none of the page keys `og:title`, `description`, `og:description`, `og:url` starts with `og-alt-` |
| I18nMeta.MergedMetaKeepsBoth | src/helpers/index.ts:85-92 | the merged meta has exactly the page keys and the locale keys; the two sets are disjoint, and every page tag and every locale tag appears unchanged |
| I18nMeta.BundleTitleAndDescription | src/helpers/index.ts:72-88 | the bundle title is the translation when one exists and the literal otherwise; `og:title`, `description` and `og:description` carry those same values, and `og:url` is `domain + routePath` |
| I18nMeta.BundleTracksCurrentLocale | src/helpers/index.ts:79-90 | each run of the producer yields exactly one `og:locale` tag, whose content is the current locale passed to that run |
| MetaMixin.Domain | src/mixins/meta.ts:47-54 | the result is `APP_DOMAIN` when it is present and non-empty, and the browser origin otherwise |
| MetaMixin.DomainAgreesWithInternals | src/mixins/meta.ts:47-54 | the mixin's domain resolver returns the same value as the newer `domain()` for every environment value and origin |
| MetaMixin.MetaTag | src/mixins/meta.ts:55-66 | the loop's map has exactly the given names as keys, and each entry is `{name: key, content: value}`, even for `og:*` names |
| MetaMixin.MetaTagsIsForcedName | src/mixins/meta.ts:55-66 | the mixin `metaTag` equals the newer `metaTag` with the attribute forced to `name`; a single name equals the one-element list, and an empty list gives an empty map |
| MetaMixin.LayoutSocialMetaTags | src/mixins/meta.ts:31-38 | exactly the keys `og:title` (content: the title), `og:type` (`website`) and `og:image` (`domain + "/social-cover.jpg"`), all `name=` |
| MetaMixin.PageSocialMetaTags | src/mixins/meta.ts:40-45 | exactly the keys `description`, `og:description`, `og:url` and no `og:title`; `og:url` is `domain + path` |
| MetaMixin.PageMeta | src/mixins/meta.ts:23-29 | the page mixin's bundle keeps the title as the document title only; its tags are exactly `description` and `og:description`, both `name=` with the description argument, and `og:url = domain + routePath` |
| MetaMixin.LayoutMeta.constructor | src/mixins/meta.ts:4-10 | `metaTitle` starts as `""`; the template function is the given one, and the identity by default |
| MetaMixin.LayoutMeta.TitleTemplate | src/mixins/meta.ts:13-16 | after `titleTemplate(x)`, `metaTitle == titleTemplateFn(x)`, and the call returns that same value |
| MetaMixin.LayoutMeta.Meta | src/mixins/meta.ts:11-19 | the layout tags are built from the current `metaTitle`: `og:title` carries it as `name=` content |
| MetaMixin.DefaultTitleTemplate | src/mixins/meta.ts:4-19 | with the default template the first render's `og:title` is empty; `titleTemplate(x)` returns `x`, and the next render's `og:title` is `x` |

## Left out

- `src/meta.ts` (`useLayoutSocialMeta`, `usePageSocialMeta`) is not part of this model. Those functions only pass the composers' output to Quasar's `useMeta`, and the composers are modelled.
- `src/helpers/i18n-shim.ts` (type declarations only) and `src/index.js` (build configuration) are not part of this model.
- Reactivity is left out. This covers `useMeta(() => ...)` re-running on a locale change, Vue's `data()`, `this.$route` and `useI18n()`. The producer is a function of its inputs, so re-running it with a new locale is calling it again (`BundleTracksCurrentLocale`).
- `usePageSocialMetaI18n` resolves the domain for the links once, at setup, and the domain for `og:url` on every run. The model passes one resolved domain to both.
- The reads of `process.env` and `window.location.origin` are parameters. The exception raised when `window` is undefined is an environment effect and is left out.
- Template function bodies are opaque. Only their placement under `template` instead of `content` is modelled.
- The `titleTemplate` closure that `LayoutMetaMixin`'s `meta()` returns is modelled as the method `LayoutMeta.TitleTemplate`. The identity of that closure object is not modelled.
- Property order inside the JavaScript records is not modelled, and neither is the insertion order of keys. Each record is a value and each collection of records is a map.
- Calling a composer twice with the same inputs gives the same result, because every composer is a Dafny function. This needs no separate lemma.
