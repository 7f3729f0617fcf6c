/** Sequence and string helpers shared by the stores and the screens:
    the `find`/`findIndex`/`filter`/`includes`/`toLowerCase`/`trim`
    operations that the JavaScript code calls on arrays and strings. */
module Common {

  /** `undefined`/`null` versus a present value. */
  datatype Option<+T> = None | Some(value: T)

  function Min(a: int, b: int): int { if a <= b then a else b }

  /** `sub` can be obtained from `s` by deleting elements: same order, no new elements. */
  ghost predicate IsSubsequence<T>(sub: seq<T>, s: seq<T>)
    decreases |s|
  {
    sub == [] ||
    (s != [] &&
     ((sub[0] == s[0] && IsSubsequence(sub[1..], s[1..])) || IsSubsequence(sub, s[1..])))
  }

  /** Every sequence is a subsequence of itself. */
  lemma {:induction false} SubsequenceReflexive<T>(s: seq<T>)
    ensures IsSubsequence(s, s)
    decreases |s|
  {
    if s != [] {
      SubsequenceReflexive(s[1..]);
    }
  }

  /** Cutting a subsequence short leaves a subsequence. */
  lemma {:induction false} SubsequencePrefix<T>(sub: seq<T>, s: seq<T>, n: nat)
    requires IsSubsequence(sub, s)
    requires n <= |sub|
    ensures IsSubsequence(sub[..n], s)
    decreases |s|
  {
    if n > 0 {
      if sub[0] == s[0] && IsSubsequence(sub[1..], s[1..]) {
        SubsequencePrefix(sub[1..], s[1..], n - 1);
        assert sub[..n][1..] == sub[1..][..n - 1];
      } else {
        SubsequencePrefix(sub, s[1..], n);
      }
    }
  }

  /** No value occurs twice. */
  ghost predicate NoDuplicates<T>(s: seq<T>) {
    forall i, j :: 0 <= i < j < |s| ==> s[i] != s[j]
  }

  /** `Array.prototype.findIndex`: the first index whose element satisfies `test`, or -1. */
  function FirstMatch<T>(s: seq<T>, test: T -> bool): (r: int)
    ensures -1 <= r < |s|
    ensures r == -1 <==> forall k :: 0 <= k < |s| ==> !test(s[k])
    ensures 0 <= r ==> test(s[r]) && forall k :: 0 <= k < r ==> !test(s[k])
  {
    if s == [] then -1
    else if test(s[0]) then 0
    else
      var k := FirstMatch(s[1..], test);
      if k == -1 then -1 else k + 1
  }

  /** `Array.prototype.filter`: exactly the elements satisfying `keep`, in their original
      order. A subsequence that holds every kept value as often as `s` does and no other
      value is the filtered sequence, so the contract pins the result down. */
  function Select<T(==,!new)>(s: seq<T>, keep: T -> bool): (r: seq<T>)
    ensures IsSubsequence(r, s)
    ensures forall x {:trigger multiset(r)[x]} :: multiset(r)[x] == if keep(x) then multiset(s)[x] else 0
    ensures forall x :: x in r <==> x in s && keep(x)
    ensures (forall k :: 0 <= k < |s| ==> keep(s[k])) ==> r == s
    ensures |r| <= |s|
  {
    if s == [] then []
    else
      var rest := Select(s[1..], keep);
      assert s == [s[0]] + s[1..];
      if keep(s[0]) then
        var r := [s[0]] + rest;
        assert r[1..] == rest;
        r
      else
        rest
  }

  /** `String.prototype.includes`: `t` occurs in `s` as a contiguous block, that is,
      `t` is a prefix of `s` from some position on. */
  function Contains(s: string, t: string): (b: bool)
    ensures b <==> exists i :: 0 <= i <= |s| && t <= s[i..]
    decreases |s|
  {
    if t <= s then
      assert s[0..] == s;
      true
    else if s == [] then false
    else
      var rest := Contains(s[1..], t);
      assert forall i :: 0 < i <= |s| ==> s[1..][i - 1..] == s[i..];
      rest
  }

  /** `toLowerCase` on the ASCII letters; every other character is kept. */
  function LowerChar(c: char): char {
    if 'A' <= c <= 'Z' then (c as int + 32) as char else c
  }

  function Lower(s: string): (r: string)
    ensures |r| == |s|
    ensures forall k :: 0 <= k < |s| ==> r[k] == LowerChar(s[k])
  {
    if s == [] then [] else [LowerChar(s[0])] + Lower(s[1..])
  }

  predicate IsSpace(c: char) {
    c == ' ' || c == '\t' || c == '\n' || c == '\r'
  }

  /** Number of white-space characters at the front of `s`. */
  function LeadingSpaces(s: string): (n: nat)
    ensures n <= |s|
    ensures forall j :: 0 <= j < n ==> IsSpace(s[j])
    ensures n < |s| ==> !IsSpace(s[n])
  {
    if s != [] && IsSpace(s[0]) then 1 + LeadingSpaces(s[1..]) else 0
  }

  /** Number of white-space characters at the back of `s`. */
  function TrailingSpaces(s: string): (n: nat)
    ensures n <= |s|
    ensures forall j :: |s| - n <= j < |s| ==> IsSpace(s[j])
    ensures n < |s| ==> !IsSpace(s[|s| - 1 - n])
  {
    if s != [] && IsSpace(s[|s| - 1]) then 1 + TrailingSpaces(s[..|s| - 1]) else 0
  }

  /** `String.prototype.trim`: the text without white space at either end; it is empty
      exactly when the text is nothing but white space. */
  function Trim(s: string): (r: string)
    ensures |r| <= |s|
    ensures r == [] <==> forall k :: 0 <= k < |s| ==> IsSpace(s[k])
    ensures r != [] ==> !IsSpace(r[0]) && !IsSpace(r[|r| - 1])
    ensures exists a, b ::
      && 0 <= a <= b <= |s| && r == s[a..b]
      && (forall k :: 0 <= k < a ==> IsSpace(s[k]))
      && (forall k :: b <= k < |s| ==> IsSpace(s[k]))
  {
    var front := LeadingSpaces(s);
    if front == |s| then
      assert [] == s[|s|..|s|];
      []
    else
      var back := TrailingSpaces(s);
      s[front..|s| - back]
  }

  /** Decimal digits of a natural number, as `String(n)` writes them: no leading zero
      unless the number is 0 itself. */
  function Decimal(n: nat): (r: string)
    ensures r != []
    ensures forall k :: 0 <= k < |r| ==> '0' <= r[k] <= '9'
    ensures |r| > 1 ==> r[0] != '0'
    decreases n
  {
    var digit := ['0' + (n % 10) as char];
    if n < 10 then digit else Decimal(n / 10) + digit
  }

  /** The number a string of decimal digits spells, most significant digit first. */
  function DigitsValue(s: string): int
    decreases |s|
  {
    if s == [] then 0 else 10 * DigitsValue(s[..|s| - 1]) + (s[|s| - 1] as int - '0' as int)
  }

  /** Reading back the digits `Decimal` writes gives the number again. */
  lemma {:induction false} DecimalValue(n: nat)
    ensures DigitsValue(Decimal(n)) == n
    decreases n
  {
    var digit := ['0' + (n % 10) as char];
    if n >= 10 {
      DecimalValue(n / 10);
      var r := Decimal(n / 10) + digit;
      assert r[..|r| - 1] == Decimal(n / 10);
    }
  }
}
