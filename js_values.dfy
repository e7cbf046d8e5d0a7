/** The small fragment of JavaScript values and built-in string operations
    that the logger relies on: truthiness, `typeof x === "object"`,
    conversion to a string, `Array.prototype.indexOf`,
    `String.prototype.replace` with a string pattern, and `toUpperCase`. */
module JsValues {

  /** A JavaScript value as far as the logger distinguishes values.
      `Obj` stands for a non-callable object (plain objects, arrays), one
      for which `typeof` gives "object"; its `id` only keeps distinct
      objects apart. Functions are not values of this type. */
  datatype Value = Undefined | Null | Str(s: string) | Obj(id: nat)

  /** JavaScript truthiness: `undefined`, `null` and `""` are falsy. */
  predicate Truthy(v: Value) {
    match v
    case Undefined => false
    case Null => false
    case Str(s) => s != ""
    case Obj(_) => true
  }

  /** `typeof v === "object"`, which holds of `null` as well. */
  predicate IsObject(v: Value) {
    v.Obj? || v.Null?
  }

  /** `String(v)`, the conversion `replace` applies to its replacement.
      The `Obj` case gives what a plain object converts to (an array would
      convert differently); it is never reached from `#format`, which
      returns every object before templating. */
  function ToString(v: Value): string {
    match v
    case Undefined => "undefined"
    case Null => "null"
    case Str(s) => s
    case Obj(_) => "[object Object]"
  }

  /** `xs.indexOf(x)`: the first position holding `x`, or -1. */
  function IndexOf<T(==)>(xs: seq<T>, x: T): (r: int)
    ensures -1 <= r < |xs|
    ensures r == -1 <==> x !in xs
    ensures 0 <= r ==> xs[r] == x && x !in xs[..r]
    decreases |xs|
  {
    if xs == [] then -1
    else if xs[0] == x then 0
    else
      var k := IndexOf(xs[1..], x);
      if k == -1 then -1 else k + 1
  }

  /** `s.replace(pat, rep)` for a non-empty string pattern: only the first
      occurrence of `pat` is replaced, and `s` is returned unchanged when
      `pat` does not occur. */
  function ReplaceFirst(s: string, pat: string, rep: string): (r: string)
    requires pat != ""
    ensures pat[0] !in s ==> r == s
    ensures |r| == |s| || |r| == |s| - |pat| + |rep|
    decreases |s|
  {
    if |s| < |pat| then s
    else if s[..|pat|] == pat then rep + s[|pat|..]
    else [s[0]] + ReplaceFirst(s[1..], pat, rep)
  }

  /** When the pattern's first character does not occur before an
      occurrence of the pattern, that occurrence is the one replaced. */
  lemma {:induction false} ReplaceFirstAfter(a: string, pat: string, rep: string, b: string)
    requires pat != "" && pat[0] !in a
    ensures ReplaceFirst(a + pat + b, pat, rep) == a + rep + b
    decreases |a|
  {
    var s := a + pat + b;
    if a == [] {
      assert s == pat + b;
      assert s[..|pat|] == pat;
      assert s[|pat|..] == b;
    } else {
      assert s[0] == a[0];
      assert s[..|pat|][0] != pat[0];
      assert s[1..] == a[1..] + pat + b;
      ReplaceFirstAfter(a[1..], pat, rep, b);
      assert [a[0]] + (a[1..] + rep + b) == a + rep + b;
    }
  }

  /** Upper case of one character, for the ASCII letters. */
  function UpperChar(c: char): char {
    if 'a' <= c <= 'z' then (c as int - 'a' as int + 'A' as int) as char else c
  }

  /** `s.toUpperCase()` restricted to ASCII letters. */
  function Upper(s: string): (r: string)
    ensures |r| == |s|
    ensures forall i :: 0 <= i < |s| ==> r[i] == UpperChar(s[i])
  {
    if s == [] then [] else [UpperChar(s[0])] + Upper(s[1..])
  }
}
