/** The JavaScript built-ins the core relies on, stated on `seq<char>`:
    `toLowerCase` (folding ASCII letters only), `startsWith`, `includes`,
    and the `parseInt(text) || 0` idiom of the credit inputs. */
module Js {
  import opened Wrappers

  /** `toLowerCase` on one character; letters outside A-Z are left as they are. */
  function LowerChar(c: char): (r: char)
    ensures 'A' <= c <= 'Z' ==> r as int == c as int + 32
    ensures !('A' <= c <= 'Z') ==> r == c
  {
    if 'A' <= c <= 'Z' then (c as int + 32) as char else c
  }

  /** `s.toLowerCase()`: same length, each character folded. */
  function Lower(s: string): (r: string)
    ensures |r| == |s|
    ensures forall i :: 0 <= i < |s| ==> r[i] == LowerChar(s[i])
  {
    if s == [] then [] else [LowerChar(s[0])] + Lower(s[1..])
  }

  /** `s.startsWith(prefix)`. */
  function StartsWith(s: string, prefix: string): (r: bool)
    ensures r <==> |prefix| <= |s| && s[..|prefix|] == prefix
  {
    if prefix == [] then true
    else if s == [] then false
    else s[0] == prefix[0] && StartsWith(s[1..], prefix[1..])
  }

  /** `q` occurs in `s` starting at index `i`. */
  ghost predicate OccursAt(s: string, q: string, i: int)
  {
    0 <= i && i + |q| <= |s| && s[i..i + |q|] == q
  }

  /** `q` occurs somewhere in `s` (the empty string occurs everywhere). */
  ghost predicate OccursIn(s: string, q: string)
  {
    exists i :: OccursAt(s, q, i)
  }

  /** `s.includes(q)`: true exactly when `q` occurs somewhere in `s`. */
  function Includes(s: string, q: string): (r: bool)
    ensures r <==> OccursIn(s, q)
    decreases |s|
  {
    if StartsWith(s, q) then
      assert OccursAt(s, q, 0);
      true
    else if s == [] then
      false
    else
      var r := Includes(s[1..], q);
      OccursInTail(s, q);
      r
  }

  /** Away from index 0, the occurrences of `q` in `s` are those in `s[1..]`,
      shifted by one. */
  lemma OccursInTail(s: string, q: string)
    requires s != [] && !OccursAt(s, q, 0)
    ensures (exists i :: OccursAt(s[1..], q, i)) <==> (exists i :: OccursAt(s, q, i))
  {
    if i :| OccursAt(s[1..], q, i) {
      assert s[1..][i..i + |q|] == s[i + 1..i + 1 + |q|];
      assert OccursAt(s, q, i + 1);
    }
    if i :| OccursAt(s, q, i) {
      assert s[1..][i - 1..i - 1 + |q|] == s[i..i + |q|];
      assert OccursAt(s[1..], q, i - 1);
    }
  }

  /** `parseInt(text) || 0`, with the parse given as `Some(n)` for a number
      and `None` for `NaN`: both `NaN` and `0` are falsy, so both give 0. */
  function IntOrZero(parsed: Option<int>): (r: int)
    ensures parsed.Some? ==> r == parsed.value
    ensures r == 0 <==> parsed.None? || parsed == Some(0)
  {
    match parsed
    case Some(n) => n
    case None => 0
  }

  /** Folding twice is folding once. */
  lemma {:induction false} LowerIdempotent(s: string)
    ensures Lower(Lower(s)) == Lower(s)
  {
    if s != [] {
      LowerIdempotent(s[1..]);
    }
  }

  /** Folding distributes over concatenation. */
  lemma {:induction false} LowerConcat(a: string, b: string)
    ensures Lower(a + b) == Lower(a) + Lower(b)
  {
    if a != [] {
      assert (a + b)[1..] == a[1..] + b;
      LowerConcat(a[1..], b);
    }
  }

  /** An occurrence of `q + more` is an occurrence of `q`: typing more
      characters into a search box can only narrow what `includes` accepts. */
  lemma IncludesLonger(s: string, q: string, more: string)
    requires Includes(s, q + more)
    ensures Includes(s, q)
  {
    var i :| OccursAt(s, q + more, i);
    assert s[i..i + |q|] == (q + more)[..|q|];
    assert OccursAt(s, q, i);
  }
}
