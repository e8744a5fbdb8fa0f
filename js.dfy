/** The few pieces of JavaScript semantics the engine relies on: how a
    template literal prints a value, which values are falsy, what
    `String.prototype.trim` removes, how `Array.prototype.join` glues strings,
    and the decimal text of a non-negative integer. */
module Js {
  import opened Types

  // ---------------------------------------------------------------------
  // Template literals and truthiness

  /** `${v}` for a value produced by `JSON.parse`. An array prints its
      elements separated by commas, `null` elements as nothing. */
  function JsonText(j: Json): string
    decreases j
  {
    match j
    case JNull => "null"
    case JBool(b) => if b then "true" else "false"
    case JNum(n) => n.shown
    case JStr(s) => s
    case JArr(items) =>
      Join(seq(|items|, i requires 0 <= i < |items| =>
             if items[i].JNull? then "" else JsonText(items[i])), ",")
    case JObj(_) => "[object Object]"
  }

  /** `${v}` for a property that may be `undefined`. */
  function TemplateText(v: JsValue): (r: string)
    ensures v.Some? && v.value.JStr? ==> r == v.value.s
    ensures v.None? ==> r == "undefined"
  {
    match v
    case None => "undefined"
    case Some(j) => JsonText(j)
  }

  /** JavaScript truthiness: `undefined`, `null`, `false`, `0`, `-0` (which
      prints as "0"), `NaN` and "" are falsy. */
  predicate Truthy(v: JsValue) {
    match v
    case None => false
    case Some(JNull) => false
    case Some(JBool(b)) => b
    case Some(JNum(n)) => n.shown != "0" && n.shown != "NaN"
    case Some(JStr(s)) => s != ""
    case Some(JArr(_)) => true
    case Some(JObj(_)) => true
  }

  /** `v || fallback` where `fallback` is a string. */
  function OrElse(v: JsValue, fallback: string): (r: string)
    ensures Truthy(v) ==> r == TemplateText(v)
    ensures !Truthy(v) ==> r == fallback
  {
    if Truthy(v) then TemplateText(v) else fallback
  }

  // ---------------------------------------------------------------------
  // String.prototype.trim

  /** The characters `trim` removes: ECMAScript WhiteSpace (tab, vertical
      tab, form feed, space, no-break space, the byte order mark and every
      space separator) and LineTerminator (LF, CR, U+2028, U+2029). */
  predicate IsWhitespace(c: char) {
    c == '\U{0009}' || c == '\U{000B}' || c == '\U{000C}' || c == ' ' ||
    c == '\U{00A0}' || c == '\U{FEFF}' || c == '\U{1680}' ||
    ('\U{2000}' <= c <= '\U{200A}') || c == '\U{202F}' || c == '\U{205F}' || c == '\U{3000}' ||
    c == '\n' || c == '\r' || c == '\U{2028}' || c == '\U{2029}'
  }

  predicate IsBlank(s: string) {
    forall i :: 0 <= i < |s| ==> IsWhitespace(s[i])
  }

  function TrimStart(s: string): (r: string)
    ensures |r| <= |s| && r == s[|s| - |r|..]
    ensures r != [] ==> !IsWhitespace(r[0])
    ensures IsBlank(s[..|s| - |r|])
  {
    if s != [] && IsWhitespace(s[0]) then
      var r := TrimStart(s[1..]);
      assert s[1..][..|s| - 1 - |r|] == s[1..|s| - |r|];
      var dropped := s[..|s| - |r|];
      assert IsBlank(dropped) by {
        forall i | 0 <= i < |dropped|
          ensures IsWhitespace(dropped[i])
        {
          if i > 0 {
            assert dropped[i] == s[1..][..|s| - 1 - |r|][i - 1];
          }
        }
      }
      r
    else s
  }

  function TrimEnd(s: string): (r: string)
    ensures |r| <= |s| && r == s[..|r|]
    ensures r != [] ==> !IsWhitespace(r[|r| - 1])
    ensures IsBlank(s[|r|..])
  {
    if s != [] && IsWhitespace(s[|s| - 1]) then
      var r := TrimEnd(s[..|s| - 1]);
      assert s[..|s| - 1][|r|..] == s[|r|..|s| - 1];
      var dropped := s[|r|..];
      assert IsBlank(dropped) by {
        forall i | 0 <= i < |dropped|
          ensures IsWhitespace(dropped[i])
        {
          if i < |s| - 1 - |r| {
            assert dropped[i] == s[..|s| - 1][|r|..][i];
          }
        }
      }
      r
    else s
  }

  /** `s.trim()`: the slice of `s` left after dropping whitespace at both ends. */
  function Trim(s: string): (r: string)
  {
    TrimEnd(TrimStart(s))
  }

  /** `!s.trim()` holds exactly when every character of `s` is whitespace. */
  lemma TrimEmptyIffBlank(s: string)
    ensures Trim(s) == "" <==> IsBlank(s)
  {
    var t := TrimStart(s);
    assert t != [] ==> t[0] == s[|s| - |t|];
    assert t[0..] == t;
    assert s[..|s|] == s;
  }

  /** The test `!s.trim()`. */
  method TrimsToEmpty(s: string) returns (empty: bool)
    ensures empty <==> IsBlank(s)
  {
    empty := Trim(s) == "";
    TrimEmptyIffBlank(s);
  }

  // ---------------------------------------------------------------------
  // Concatenation

  /** The first and the last part of `pre + mid + post` can be cut back out
      of it. */
  lemma ConcatEnds(pre: string, mid: string, post: string)
    ensures |pre + mid + post| == |pre| + |mid| + |post|
    ensures (pre + mid + post)[..|pre|] == pre
    ensures (pre + mid + post)[|pre| + |mid|..] == post
  {
    assert (pre + mid + post)[..|pre|] == pre;
    assert (pre + mid + post)[|pre| + |mid|..] == post;
  }

  /** A slice of the middle part of `pre + mid + post`. */
  lemma SliceOfMiddle(pre: string, mid: string, post: string, i: nat, j: nat)
    requires i <= j <= |mid|
    ensures (pre + mid + post)[|pre| + i..|pre| + j] == mid[i..j]
  {
    assert (pre + mid + post)[|pre| + i..|pre| + j] == (pre + mid + post)[|pre|..|pre| + |mid|][i..j];
  }

  // ---------------------------------------------------------------------
  // Array.prototype.join

  /** `xs.join(sep)`. */
  function Join(xs: seq<string>, sep: string): string
    decreases |xs|
  {
    if |xs| == 0 then ""
    else if |xs| == 1 then xs[0]
    else xs[0] + sep + Join(xs[1..], sep)
  }

  /** Where element `i` starts in `Join(xs, sep)`: every earlier element and
      one separator after each. */
  function Offset(xs: seq<string>, sep: string, i: nat): nat
    requires i <= |xs|
    decreases i
  {
    if i == 0 then 0 else |xs[0]| + |sep| + Offset(xs[1..], sep, i - 1)
  }

  /** Element `i` of `xs` stands in the joined string at `Offset(xs, sep, i)`,
      and the last element ends it. */
  lemma {:induction false} JoinAt(xs: seq<string>, sep: string, i: nat)
    requires i < |xs|
    ensures Offset(xs, sep, i) + |xs[i]| <= |Join(xs, sep)|
    ensures Join(xs, sep)[Offset(xs, sep, i)..Offset(xs, sep, i) + |xs[i]|] == xs[i]
    ensures i + 1 == |xs| ==> Offset(xs, sep, i) + |xs[i]| == |Join(xs, sep)|
    decreases i
  {
    if |xs| == 1 {
    } else if i == 0 {
      var j := Join(xs, sep);
      assert j == xs[0] + sep + Join(xs[1..], sep);
      assert j[..|xs[0]|] == xs[0];
    } else {
      var head := xs[0] + sep;
      var rest := Join(xs[1..], sep);
      JoinAt(xs[1..], sep, i - 1);
      assert Join(xs, sep) == head + rest;
      var o := Offset(xs[1..], sep, i - 1);
      assert xs[1..][i - 1] == xs[i];
      ShiftedSlice(head, rest, o, o + |xs[i]|);
    }
  }

  /** Between element `i` and element `i + 1` of the joined string stands
      exactly one separator. */
  lemma {:induction false} JoinSeparatorAt(xs: seq<string>, sep: string, i: nat)
    requires i + 1 < |xs|
    ensures Offset(xs, sep, i + 1) == Offset(xs, sep, i) + |xs[i]| + |sep|
    ensures Offset(xs, sep, i + 1) <= |Join(xs, sep)|
    ensures Join(xs, sep)[Offset(xs, sep, i) + |xs[i]|..Offset(xs, sep, i + 1)] == sep
    decreases i
  {
    var head := xs[0] + sep;
    var rest := Join(xs[1..], sep);
    assert Join(xs, sep) == head + rest;
    if i == 0 {
      assert (head + rest)[|xs[0]|..|head|] == sep;
    } else {
      JoinSeparatorAt(xs[1..], sep, i - 1);
      assert xs[1..][i - 1] == xs[i];
      ShiftedSlice(head, rest, Offset(xs[1..], sep, i - 1) + |xs[i]|, Offset(xs[1..], sep, i));
    }
  }

  /** A slice of the second part of `a + b`. */
  lemma ShiftedSlice(a: string, b: string, lo: nat, hi: nat)
    requires lo <= hi <= |b|
    ensures (a + b)[|a| + lo..|a| + hi] == b[lo..hi]
  {
    assert (a + b)[|a|..] == b;
  }

  /** With a one-character separator, the character right after element
      `i` of the joined string is the separator, unless `i` is the last
      element. */
  lemma SeparatorAfter(xs: seq<string>, sep: string, i: nat)
    requires |sep| == 1 && i + 1 < |xs|
    ensures Offset(xs, sep, i) + |xs[i]| < |Join(xs, sep)|
    ensures Join(xs, sep)[Offset(xs, sep, i) + |xs[i]|] == sep[0]
  {
    JoinSeparatorAt(xs, sep, i);
    var end := Offset(xs, sep, i) + |xs[i]|;
    assert Join(xs, sep)[end] == Join(xs, sep)[end..end + 1][0];
  }

  // ---------------------------------------------------------------------
  // Decimal text of a non-negative integer (template literal of an index)

  function Digit(d: nat): char
    requires d < 10
  {
    (48 + d) as char
  }

  /** `${n}` for a non-negative integer. */
  function NatText(n: nat): (r: string)
    ensures r != []
    ensures n >= 10 ==> |r| >= 2
    ensures forall i :: 0 <= i < |r| ==> '0' <= r[i] <= '9'
    decreases n
  {
    if n < 10 then [Digit(n)] else NatText(n / 10) + [Digit(n % 10)]
  }

  /** Distinct numbers print differently. */
  lemma {:induction false} NatTextInjective(m: nat, n: nat)
    requires NatText(m) == NatText(n)
    ensures m == n
    decreases m
  {
    if m >= 10 && n >= 10 {
      var a, b := NatText(m), NatText(n);
      assert a[|a| - 1] == Digit(m % 10) && b[|b| - 1] == Digit(n % 10);
      assert a[..|a| - 1] == NatText(m / 10) && b[..|b| - 1] == NatText(n / 10);
      NatTextInjective(m / 10, n / 10);
    }
  }
}
