/**
 * Translation lookup: a dotted key is split into segments and walked through
 * the nested message table of the current locale; anything that does not end
 * on a string gives back the key itself.
 */
module Translation {
  import opened Interfaces

  /** A message table: a string, or an object of named sub-tables. */
  datatype Tree = Leaf(text: string) | Node(children: map<string, Tree>)

  datatype Locale = En | Pt

  /** The message tables of the two locales. */
  datatype Catalog = Catalog(en: Tree, pt: Tree)

  function Table(c: Catalog, locale: Locale): (t: Tree)
  {
    match locale
    case En => c.en
    case Pt => c.pt
  }

  const Separator := '.'

  /** `s.split(".")`: empty segments are kept, and there is always at least one segment. */
  function Split(s: string): (r: seq<string>)
    ensures |r| >= 1
    ensures forall i :: 0 <= i < |r| ==> Separator !in r[i]
    decreases |s|
  {
    if s == [] then [""]
    else
      var rest := Split(s[1..]);
      if s[0] == Separator then [""] + rest
      else [[s[0]] + rest[0]] + rest[1..]
  }

  /** The inverse of Split: the segments joined by dots. */
  function Join(segs: seq<string>): (s: string)
    requires |segs| >= 1
    decreases |segs|
  {
    if |segs| == 1 then segs[0] else segs[0] + [Separator] + Join(segs[1..])
  }

  /** Splitting and joining gives back the key. */
  lemma {:induction false} JoinSplit(s: string)
    ensures Join(Split(s)) == s
    decreases |s|
  {
    if s != [] {
      var rest := Split(s[1..]);
      JoinSplit(s[1..]);
      if s[0] == Separator {
        assert ([""] + rest)[1..] == rest;
      } else if |rest| == 1 {
        assert [s[0]] + s[1..] == s;
      } else {
        var r := [[s[0]] + rest[0]] + rest[1..];
        assert r[1..] == rest[1..];
        assert Join(rest) == rest[0] + [Separator] + Join(rest[1..]);
        assert [s[0]] + s[1..] == s;
      }
    }
  }

  /** A prefix without dots merges into the first segment. */
  lemma {:induction false} SplitPrefix(a: string, rest: string)
    requires Separator !in a
    ensures Split(a + rest) == [a + Split(rest)[0]] + Split(rest)[1..]
    decreases |a|
  {
    if a == [] {
      assert a + rest == rest;
      assert a + Split(rest)[0] == Split(rest)[0];
      assert [Split(rest)[0]] + Split(rest)[1..] == Split(rest);
    } else {
      assert (a + rest)[0] == a[0];
      assert (a + rest)[1..] == a[1..] + rest;
      SplitPrefix(a[1..], rest);
      assert [a[0]] + (a[1..] + Split(rest)[0]) == a + Split(rest)[0];
    }
  }

  /** Joining segments that hold no dot and splitting again gives back the segments. */
  lemma {:induction false} SplitJoin(segs: seq<string>)
    requires |segs| >= 1
    requires forall i :: 0 <= i < |segs| ==> Separator !in segs[i]
    ensures Split(Join(segs)) == segs
    decreases |segs|
  {
    if |segs| == 1 {
      SplitPrefix(segs[0], "");
      assert segs[0] + "" == segs[0];
    } else {
      SplitJoin(segs[1..]);
      var tail := [Separator] + Join(segs[1..]);
      assert segs[0] + [Separator] + Join(segs[1..]) == segs[0] + tail;
      SplitPrefix(segs[0], tail);
      assert tail[0] == Separator && tail[1..] == Join(segs[1..]);
      assert Split(tail) == [""] + segs[1..];
      assert segs[0] + "" == segs[0];
      assert [segs[0]] + segs[1..] == segs;
    }
  }

  /**
   * `table[k1][k2]...[kn]`: the value reached by indexing with the segments
   * one after the other, None as soon as an index hits a string or a missing name.
   */
  function Subtree(t: Tree, path: seq<string>): (r: Option<Tree>)
    decreases |path|
  {
    if path == [] then Some(t)
    else match Subtree(t, path[..|path| - 1])
      case Some(Node(m)) => if path[|path| - 1] in m then Some(m[path[|path| - 1]]) else None
      case _ => None
  }

  /** Indexing by a first segment and then by the rest is indexing by the whole path. */
  lemma {:induction false} SubtreeCons(t: Tree, k: string, path: seq<string>)
    ensures Subtree(t, [k] + path)
         == match t
            case Node(m) => if k in m then Subtree(m[k], path) else None
            case Leaf(_) => None
    decreases |path|
  {
    if path == [] {
      assert ([k] + path)[..0] == [];
    } else {
      var init := path[..|path| - 1];
      assert ([k] + path)[..|[k] + path| - 1] == [k] + init;
      SubtreeCons(t, k, init);
    }
  }

  /**
   * The lookup loop, written as recursion over the remaining segments:
   * `value` is the loop variable, `key` the original key.
   */
  function Walk(value: Tree, keys: seq<string>, key: string): (r: string)
    ensures Subtree(value, keys).Some? && Subtree(value, keys).value.Leaf? ==> r == Subtree(value, keys).value.text
    ensures !(Subtree(value, keys).Some? && Subtree(value, keys).value.Leaf?) ==> r == key
    decreases |keys|
  {
    if keys == [] then
      match value
      case Leaf(s) => s
      case Node(_) => key
    else
      SubtreeCons(value, keys[0], keys[1..]);
      assert [keys[0]] + keys[1..] == keys;
      match value
      case Node(m) => if keys[0] in m then Walk(m[keys[0]], keys[1..], key) else key
      case Leaf(_) => key
  }

  /** The text for `key` in the given locale: the string at the key's path, or else the key. */
  function Translate(c: Catalog, locale: Locale, key: string): (r: string)
    ensures var t := Subtree(Table(c, locale), Split(key));
            t.Some? && t.value.Leaf? ==> r == t.value.text
    ensures var t := Subtree(Table(c, locale), Split(key));
            !(t.Some? && t.value.Leaf?) ==> r == key
  {
    Walk(Table(c, locale), Split(key), key)
  }

  /** A string stored under segments s1 ... sn is what the key "s1.s2...sn" translates to. */
  lemma TranslateStoredText(c: Catalog, locale: Locale, segs: seq<string>, text: string)
    requires |segs| >= 1
    requires forall i :: 0 <= i < |segs| ==> Separator !in segs[i]
    requires Subtree(Table(c, locale), segs) == Some(Leaf(text))
    ensures Translate(c, locale, Join(segs)) == text
  {
    SplitJoin(segs);
  }

  /** A key whose first segment is missing from the table comes back unchanged. */
  lemma TranslateMissingFirstSegment(c: Catalog, locale: Locale, key: string)
    requires Table(c, locale).Node? && Split(key)[0] !in Table(c, locale).children
    ensures Translate(c, locale, key) == key
  {
  }

  /** `t` of the translation hook: translate at the locale the locale store holds. */
  function UseTranslation(c: Catalog, locale: Locale): (t: string -> string)
    ensures forall key :: t(key) == Translate(c, locale, key)
  {
    key => Translate(c, locale, key)
  }

  /** The text component: it remembers the locale of its previous render. */
  class TextRenderer {
    var previousLocale: Locale

    constructor (locale: Locale)
      ensures previousLocale == locale
    {
      previousLocale := locale;
    }

    /** One render: the text for `k`, and whether the locale changed since the last render. */
    method Render(c: Catalog, locale: Locale, k: string) returns (text: string, hasLocaleChanged: bool)
      modifies this
      ensures text == Translate(c, locale, k)
      ensures hasLocaleChanged <==> old(previousLocale) != locale
      ensures previousLocale == locale
    {
      text := Translate(c, locale, k);
      hasLocaleChanged := previousLocale != locale;
      previousLocale := locale;
    }
  }
}
