/**
 * Small vocabulary shared by both browser scripts: JavaScript values that
 * may be `null`/`undefined`, and how a template literal renders them.
 */
module JsValues {

  /** A value that may be absent (`null` or `undefined` in the scripts). */
  datatype Option<+T> = None | Some(value: T)

  /** How `${v}` inside a template literal renders an attribute value that
      `getAttribute` may have returned as `null`. */
  function Show(v: Option<string>): (text: string)
    ensures v.Some? ==> text == v.value
    ensures v.None? ==> text == "null"
  {
    match v
    case Some(s) => s
    case None => "null"
  }

  /** `s.includes(sub)`: `sub` occurs in `s` at some position. */
  predicate Contains(s: string, sub: string)
    ensures Contains(s, sub) ==> |sub| <= |s|
    ensures sub == [] ==> Contains(s, sub)
    decreases |s|
  {
    sub <= s || (|s| > 0 && Contains(s[1..], sub))
  }

  /** Every string contains each of its suffixes. */
  lemma {:induction false} ContainsSuffix(p: string, m: string)
    ensures Contains(p + m, m)
    decreases |p|
  {
    if p != [] {
      assert (p + m)[1..] == p[1..] + m;
      ContainsSuffix(p[1..], m);
    }
  }

  /** A character of a contained string is a character of the container. */
  lemma {:induction false} CharOfContained(s: string, sub: string, c: char)
    requires Contains(s, sub) && c in sub
    ensures c in s
    decreases |s|
  {
    if sub <= s {
      var k :| 0 <= k < |sub| && sub[k] == c;
      assert s[k] == c;
    } else {
      CharOfContained(s[1..], sub, c);
      var k :| 0 <= k < |s[1..]| && s[1..][k] == c;
      assert s[k + 1] == c;
    }
  }

  /** So a string lacking one of `sub`'s characters cannot contain `sub`. */
  lemma NotContainsByChar(s: string, sub: string, c: char)
    requires c in sub && c !in s
    ensures !Contains(s, sub)
  {
    if Contains(s, sub) {
      CharOfContained(s, sub, c);
    }
  }
}
