/** The JavaScript built-ins the game engine and its handlers rely on, stated over
    Dafny values: `Array.prototype.filter`, `Math.floor(Math.random() * n)`, the
    truncating `%`, `String.prototype.toLowerCase` (ASCII letters), an unanchored
    regular-expression test for a literal alternative, `Array.prototype.join` and
    `String.prototype.split` with a one-character separator. */
module Js {
  import opened Wrappers


  /** A JSON value as a request body or an API reply carries it. */
  datatype JsValue = JBool(b: bool) | JNum(n: real) | JStr(s: string) | JNull | JUndefined

  /** JavaScript truthiness: false, 0, the empty string, null and undefined are falsy
      (NaN is not modelled). */
  predicate IsTruthy(v: JsValue) {
    match v
    case JBool(b) => b
    case JNum(n) => n != 0.0
    case JStr(s) => s != ""
    case JNull => false
    case JUndefined => false
  }

  /** `xs.filter(p)`: the elements satisfying `p`, in their original order. */
  function Filter<T(!new)>(xs: seq<T>, p: T -> bool): (r: seq<T>)
    ensures |r| <= |xs|
    ensures forall x :: x in r <==> x in xs && p(x)
  {
    if xs == [] then []
    else if p(xs[0]) then [xs[0]] + Filter(xs[1..], p)
    else Filter(xs[1..], p)
  }

  /** `Math.floor(u * n)` for a draw `u` of `Math.random()`, which lies in [0, 1):
      always a valid index into a list of length `n`. */
  function RandomIndex(u: real, n: nat): (i: nat)
    requires 0.0 <= u < 1.0
    requires n > 0
    ensures i < n
  {
    assert 0.0 <= u * n as real < n as real by {
      assert (1.0 - u) * n as real > 0.0;
    }
    (u * n as real).Floor
  }

  /** JavaScript's `a % b`, whose result takes the sign of `a` (Dafny's `%` never
      returns a negative value). */
  function Rem(a: int, b: int): (r: int)
    requires b > 0
    ensures a >= 0 ==> 0 <= r < b
    ensures a < 0 ==> -b < r <= 0
  {
    if a >= 0 then a % b else -((-a) % b)
  }

  /** `c.toLowerCase()` for one character; letters outside A-Z are left alone. */
  function LowerChar(c: char): (r: char)
    ensures 'A' <= c <= 'Z' ==> 'a' <= r <= 'z'
    ensures !('A' <= c <= 'Z') ==> r == c
  {
    if 'A' <= c <= 'Z' then (c as int + 32) as char else c
  }

  function ToLower(s: string): (r: string)
    ensures |r| == |s|
    ensures forall i :: 0 <= i < |s| ==> r[i] == LowerChar(s[i])
  {
    seq(|s|, i requires 0 <= i < |s| => LowerChar(s[i]))
  }

  /** `sub` occurs in `s` at position `i`. */
  ghost predicate OccursAt(s: string, sub: string, i: int) {
    0 <= i && i + |sub| <= |s| && s[i..i + |sub|] == sub
  }

  /** `s.includes(sub)`, which is also what an unanchored regular expression made
      of the single literal `sub` tests. */
  function Includes(s: string, sub: string): (b: bool)
    decreases |s|
  {
    if |sub| > |s| then false
    else if s[..|sub|] == sub then true
    else Includes(s[1..], sub)
  }

  lemma {:induction false} IncludesIff(s: string, sub: string)
    ensures Includes(s, sub) <==> exists i :: OccursAt(s, sub, i)
    decreases |s|
  {
    if |sub| > |s| {
      forall i | OccursAt(s, sub, i) ensures false { }
    } else if s[..|sub|] == sub {
      assert OccursAt(s, sub, 0);
    } else {
      IncludesIff(s[1..], sub);
      if Includes(s[1..], sub) {
        var i :| OccursAt(s[1..], sub, i);
        assert s[1..][i..i + |sub|] == s[i + 1..i + 1 + |sub|];
        assert OccursAt(s, sub, i + 1);
      } else {
        forall i | OccursAt(s, sub, i) ensures false {
          if i > 0 {
            assert s[1..][i - 1..i - 1 + |sub|] == s[i..i + |sub|];
            assert OccursAt(s[1..], sub, i - 1);
          }
        }
      }
    }
  }

  /** `parts.join(sep)`. */
  function Join(parts: seq<string>, sep: char): string {
    if parts == [] then ""
    else if |parts| == 1 then parts[0]
    else parts[0] + [sep] + Join(parts[1..], sep)
  }

  /** Index of the first `c` in `s`, if any. */
  function IndexOf(s: string, c: char): (r: Option<nat>)
    ensures r.None? <==> c !in s
    ensures r.Some? ==> r.value < |s| && s[r.value] == c && c !in s[..r.value]
  {
    if s == [] then None
    else if s[0] == c then Some(0)
    else match IndexOf(s[1..], c)
      case None => None
      case Some(i) => assert s[1..][..i] == s[1..i + 1]; Some(i + 1)
  }

  lemma {:induction false} IndexOfAfter(p: string, c: char, t: string)
    requires c !in p
    ensures IndexOf(p + [c] + t, c) == Some(|p|)
  {
    if p != [] {
      assert (p + [c] + t)[1..] == p[1..] + [c] + t;
      IndexOfAfter(p[1..], c, t);
    }
  }

  /** `s.split(sep)`: the pieces between separators; a string without the
      separator (the empty string included) splits into itself alone. */
  function Split(s: string, sep: char): (r: seq<string>)
    ensures |r| >= 1
    decreases |s|
  {
    match IndexOf(s, sep)
    case None => [s]
    case Some(i) => [s[..i]] + Split(s[i + 1..], sep)
  }

  /** The round trip the history relies on: joining pieces that do not contain the
      separator and splitting the result gives the pieces back, unless the only
      piece is the empty string. */
  lemma {:induction false} SplitJoin(parts: seq<string>, sep: char)
    requires parts != [] && parts != [""]
    requires forall p :: p in parts ==> sep !in p
    ensures Split(Join(parts, sep), sep) == parts
  {
    if |parts| == 1 {
      assert Join(parts, sep) == parts[0];
    } else {
      var head, rest := parts[0], parts[1..];
      var s := Join(parts, sep);
      assert s == head + [sep] + Join(rest, sep);
      IndexOfAfter(head, sep, Join(rest, sep));
      assert s[..|head|] == head;
      assert s[|head| + 1..] == Join(rest, sep);
      if rest == [""] {
        assert Join(rest, sep) == "";
        assert IndexOf("", sep) == None;
      } else {
        SplitJoin(rest, sep);
      }
    }
  }
}
