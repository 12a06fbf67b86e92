/**
 * Shared vocabulary of the model: optional values, results carrying the HTTP
 * error class a handler answers with, and the string helpers (ASCII case
 * folding and substring search) that several handlers use.
 */
module Base {

  datatype Option<+T> = None | Some(value: T) {
    function GetOr(default: T): T {
      match this
      case Some(v) => v
      case None => default
    }
  }

  /** The error classes the handlers report: 400, 404 and 500. */
  datatype Error = BadRequest | NotFound | ServerError

  datatype Result<+T> = Ok(value: T) | Err(error: Error)

  /** JavaScript truthiness of an optional string: absent and "" are falsy. */
  predicate Truthy(s: Option<string>) {
    s.Some? && s.value != ""
  }

  /** `s || fallback` for an optional string. */
  function OrElse(s: Option<string>, fallback: string): (r: string)
    ensures Truthy(s) ==> r == s.value
    ensures !Truthy(s) ==> r == fallback
  {
    if Truthy(s) then s.value else fallback
  }

  /** `a || b` on optional strings: `a` when it is truthy, otherwise `b`. */
  function OrOpt(a: Option<string>, b: Option<string>): (r: Option<string>)
    ensures Truthy(a) ==> r == a
    ensures !Truthy(a) ==> r == b
  {
    if Truthy(a) then a else b
  }

  /** `s || null`: the value when it is truthy, otherwise nothing. */
  function OrNull(s: Option<string>): (r: Option<string>)
    ensures r.Some? <==> Truthy(s)
    ensures r.Some? ==> r == s
  {
    if Truthy(s) then s else None
  }

  // ---------------------------------------------------------------------
  // First-match lookup (`findById`, `DocumentArray.id`, `Array.find`)
  // ---------------------------------------------------------------------

  /** The index of the first element satisfying `p`, if any. */
  function FirstIndex<T>(s: seq<T>, p: T -> bool): (r: Option<nat>)
    ensures r.Some? ==> r.value < |s| && p(s[r.value])
    ensures r.Some? ==> forall k :: 0 <= k < r.value ==> !p(s[k])
    ensures r.None? ==> forall k :: 0 <= k < |s| ==> !p(s[k])
  {
    if s == [] then None
    else if p(s[0]) then Some(0)
    else
      match FirstIndex(s[1..], p)
      case None => None
      case Some(k) => Some(k + 1)
  }

  /** The first element satisfying `p` is at `i` when `s[i]` does and nothing before it does. */
  lemma FirstIndexAt<T>(s: seq<T>, p: T -> bool, i: nat)
    requires i < |s| && p(s[i])
    requires forall k :: 0 <= k < i ==> !p(s[k])
    ensures FirstIndex(s, p) == Some(i)
  {
  }

  /** `Array.prototype.filter`: the elements satisfying `p`, each as often as in `s`, in order. */
  function Filter<T(!new)>(s: seq<T>, p: T -> bool): (r: seq<T>)
    ensures |r| <= |s|
    ensures forall x :: x in r <==> x in s && p(x)
    ensures forall x :: multiset(r)[x] == if p(x) then multiset(s)[x] else 0
  {
    if s == [] then []
    else
      var init, last := s[..|s| - 1], s[|s| - 1];
      assert s == init + [last];
      Filter(init, p) + (if p(last) then [last] else [])
  }

  /** `s` without its element at position j; everything else keeps its order. */
  function RemoveAt<T>(s: seq<T>, j: nat): (r: seq<T>)
    requires j < |s|
    ensures |r| == |s| - 1
    ensures forall k :: 0 <= k < j ==> r[k] == s[k]
    ensures forall k :: j <= k < |r| ==> r[k] == s[k + 1]
    ensures multiset(r) + multiset{s[j]} == multiset(s)
  {
    assert s == s[..j] + [s[j]] + s[j + 1..];
    s[..j] + s[j + 1..]
  }

  // ---------------------------------------------------------------------
  // ASCII case folding (`String.prototype.toLowerCase` on ASCII text)
  // ---------------------------------------------------------------------

  function LowerChar(c: char): (r: char)
    ensures 'A' <= c <= 'Z' ==> 'a' <= r <= 'z' && r as int == c as int + 32
    ensures !('A' <= c <= 'Z') ==> r == c
  {
    if 'A' <= c <= 'Z' then (c as int + 32) as char else c
  }

  function Lower(s: string): (r: string)
    ensures |r| == |s|
    ensures forall i :: 0 <= i < |s| ==> r[i] == LowerChar(s[i])
  {
    if s == [] then [] else [LowerChar(s[0])] + Lower(s[1..])
  }

  lemma {:induction false} LowerAppend(a: string, b: string)
    ensures Lower(a + b) == Lower(a) + Lower(b)
  {
    var l := Lower(a + b);
    assert forall i :: 0 <= i < |l| ==> l[i] == (Lower(a) + Lower(b))[i];
  }

  /** Lowering twice is lowering once. */
  lemma LowerIdempotent(s: string)
    ensures Lower(Lower(s)) == Lower(s)
  {
    var l := Lower(s);
    assert forall i :: 0 <= i < |s| ==> Lower(l)[i] == l[i];
  }

  // ---------------------------------------------------------------------
  // Substring search (`String.prototype.includes`, a literal RegExp)
  // ---------------------------------------------------------------------

  predicate OccursAt(s: string, pat: string, i: nat) {
    i + |pat| <= |s| && s[i..i + |pat|] == pat
  }

  ghost predicate Contains(s: string, pat: string) {
    exists i: nat :: OccursAt(s, pat, i)
  }

  /** Decides `Contains` by scanning every start position. */
  function ContainsFrom(s: string, pat: string, i: nat): (r: bool)
    requires i <= |s| + 1
    ensures r <==> exists j: nat :: i <= j && OccursAt(s, pat, j)
    decreases |s| + 1 - i
  {
    if i + |pat| > |s| then
      assert forall j: nat :: i <= j ==> !OccursAt(s, pat, j);
      false
    else if s[i..i + |pat|] == pat then
      assert OccursAt(s, pat, i);
      true
    else
      var r := ContainsFrom(s, pat, i + 1);
      assert (exists j: nat :: i <= j && OccursAt(s, pat, j)) ==> exists j: nat :: i + 1 <= j && OccursAt(s, pat, j) by {
        if exists j: nat :: i <= j && OccursAt(s, pat, j) {
          var j: nat :| i <= j && OccursAt(s, pat, j);
          assert j != i;
        }
      }
      r
  }

  function Includes(s: string, pat: string): (r: bool)
    ensures r <==> Contains(s, pat)
  {
    ContainsFrom(s, pat, 0)
  }

  /** Case-insensitive containment, as a RegExp with the "i" flag on literal text. */
  function IncludesIgnoreCase(s: string, pat: string): (r: bool)
    ensures r <==> Contains(Lower(s), Lower(pat))
  {
    Includes(Lower(s), Lower(pat))
  }

  lemma EmptyPatternOccurs(s: string)
    ensures Contains(s, "")
  {
    assert OccursAt(s, "", 0);
  }

  /** A text always contains itself, whatever its case. */
  lemma {:induction false} IncludesSelfIgnoreCase(s: string)
    ensures IncludesIgnoreCase(s, s)
  {
    assert OccursAt(Lower(s), Lower(s), 0);
  }
}
