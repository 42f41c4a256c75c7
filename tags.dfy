/**
  The values shared by every meta-tag builder: the descriptor records handed to
  the page head, the way a caller names the tags, and the optional environment
  value used to resolve the site domain.
 */
module Tags {

  datatype Option<+T> = None | Some(value: T)

  /** A template function the head manager applies later; never inspected here. */
  type TemplateFn = string -> string

  /** Which attribute of `<meta>` carries the tag name. */
  datatype AttributeKind = NameAttr | PropertyAttr

  /** The value part of a descriptor: a literal `content` or a deferred `template`. */
  datatype Body = Content(content: string) | Template(template: TemplateFn)

  /**
    One `<meta>` descriptor: `{ name: tagName, ... }` or `{ property: tagName, ... }`,
    followed by either `content` or `template`.
   */
  datatype Tag = Tag(kind: AttributeKind, tagName: string, body: Body)

  /** The first argument of `metaTag`: one tag name or a list of them. */
  datatype Names = Single(name: string) | Many(names: seq<string>)

  /** The name list a `metaTag` call iterates over. */
  function NameList(names: Names): (ns: seq<string>)
    ensures names.Single? ==> ns == [names.name]
    ensures names.Many? ==> ns == names.names
  {
    match names
    case Single(n) => [n]
    case Many(ns) => ns
  }

  /** The set of distinct names in a list. */
  function Distinct(ns: seq<string>): set<string>
  {
    set n | n in ns
  }

  predicate HasPrefix(prefix: string, s: string)
  {
    |prefix| <= |s| && s[..|prefix|] == prefix
  }

  /** Prefixing a key with a fixed string never merges two different keys. */
  lemma PrefixInjective(prefix: string, a: string, b: string)
    requires prefix + a == prefix + b
    ensures a == b
  {
    assert a == (prefix + a)[|prefix|..];
    assert b == (prefix + b)[|prefix|..];
  }

  /** The keys `prefix + x` for `x` in `s` are exactly as many as the elements of `s`. */
  lemma {:induction false} PrefixedCard(prefix: string, s: set<string>)
    ensures |set x | x in s :: prefix + x| == |s|
    decreases |s|
  {
    if s != {} {
      var y :| y in s;
      var rest := s - {y};
      PrefixedCard(prefix, rest);
      var img := set x | x in s :: prefix + x;
      var restImg := set x | x in rest :: prefix + x;
      assert img == restImg + {prefix + y};
      forall z | z in rest
        ensures prefix + z != prefix + y
      {
        if prefix + z == prefix + y {
          PrefixInjective(prefix, z, y);
        }
      }
      assert prefix + y !in restImg;
    } else {
      assert (set x | x in s :: prefix + x) == {};
    }
  }
}
