/**
 * Helpers shared by every module of the model: an optional value, the
 * order-keeping `filter` of JavaScript arrays, and the string operations the
 * portal's code relies on (`toLowerCase`, `trim`, `includes`, `startsWith`,
 * `split`, `join`) together with the e-mail pattern `^[^\s@]+@[^\s@]+\.[^\s@]+$`
 * that three of its forms test.
 */
module Common {

  /** A value that may be absent (`undefined` / `null` in the source). */
  datatype Option<+T> = None | Some(value: T)

  // ---------------------------------------------------------------------------
  // Sequences
  // ---------------------------------------------------------------------------

  /** `r` is `s` with some elements left out, the rest in their order. */
  ghost predicate IsSubsequence<T>(r: seq<T>, s: seq<T>)
    decreases |s|
  {
    if r == [] then true
    else if s == [] then false
    else (r[0] == s[0] && IsSubsequence(r[1..], s[1..])) || IsSubsequence(r, s[1..])
  }

  /** A prefix of a subsequence is a subsequence. */
  lemma {:induction false} SubsequencePrefix<T>(r: seq<T>, s: seq<T>, t: seq<T>)
    requires IsSubsequence(s, t) && r <= s
    ensures IsSubsequence(r, t)
    decreases |t|
  {
    if r != [] {
      if s[0] == t[0] && IsSubsequence(s[1..], t[1..]) {
        assert r[0] == s[0] && r[1..] <= s[1..];
        SubsequencePrefix(r[1..], s[1..], t[1..]);
      } else {
        SubsequencePrefix(r, s, t[1..]);
      }
    }
  }

  /** `Array.prototype.filter`: the elements satisfying `p`, in their order. */
  function Filter<T>(p: T -> bool, s: seq<T>): (r: seq<T>)
    ensures |r| <= |s|
    ensures forall i :: 0 <= i < |r| ==> p(r[i])
    ensures forall x :: x in r ==> x in s
    ensures forall x :: x in s && p(x) ==> x in r
    ensures IsSubsequence(r, s)
  {
    if s == [] then []
    else
      var rest := Filter(p, s[1..]);
      if p(s[0]) then
        assert ([s[0]] + rest)[1..] == rest;
        [s[0]] + rest
      else rest
  }

  /** Filtering distributes over concatenation: the filter keeps the order of its input. */
  lemma {:induction false} FilterConcat<T>(p: T -> bool, a: seq<T>, b: seq<T>)
    ensures Filter(p, a + b) == Filter(p, a) + Filter(p, b)
  {
    if a == [] {
      assert a + b == b;
    } else {
      assert (a + b)[1..] == a[1..] + b;
      FilterConcat(p, a[1..], b);
      if p(a[0]) {
        assert [a[0]] + Filter(p, a[1..]) + Filter(p, b) == [a[0]] + (Filter(p, a[1..]) + Filter(p, b));
      }
    }
  }

  /** Filtering keeps the multiplicity of every kept element and drops the rest. */
  lemma {:induction false} FilterMultiset<T>(p: T -> bool, s: seq<T>, x: T)
    ensures multiset(Filter(p, s))[x] == if p(x) then multiset(s)[x] else 0
  {
    if s != [] {
      FilterMultiset(p, s[1..], x);
      assert s == [s[0]] + s[1..];
      if p(s[0]) {
        assert multiset(Filter(p, s)) == multiset([s[0]]) + multiset(Filter(p, s[1..]));
      }
    }
  }

  /** Every element keeps its multiplicity in the filter when it satisfies `p`, and is absent otherwise. */
  lemma FilterCounts<T>(p: T -> bool, s: seq<T>)
    ensures forall x :: multiset(Filter(p, s))[x] == if p(x) then multiset(s)[x] else 0
  {
    forall x ensures multiset(Filter(p, s))[x] == if p(x) then multiset(s)[x] else 0 {
      FilterMultiset(p, s, x);
    }
  }

  /** A filter whose predicate holds of every element is the identity. */
  lemma {:induction false} FilterAll<T>(p: T -> bool, s: seq<T>)
    requires forall i :: 0 <= i < |s| ==> p(s[i])
    ensures Filter(p, s) == s
  {
    if s != [] {
      FilterAll(p, s[1..]);
      assert [s[0]] + s[1..] == s;
    }
  }

  /** `s[k]` is the first element of `s` satisfying `p`. */
  predicate FirstAt<T>(p: T -> bool, s: seq<T>, k: int)
  {
    0 <= k < |s| && p(s[k]) && forall j :: 0 <= j < k ==> !p(s[j])
  }

  /** There is at most one first match. */
  lemma FirstAtUnique<T>(p: T -> bool, s: seq<T>, k: int, k': int)
    requires FirstAt(p, s, k) && FirstAt(p, s, k')
    ensures k == k'
  {
  }

  /** `Array.prototype.find`: the first element satisfying `p`, if any. */
  function Find<T>(p: T -> bool, s: seq<T>): (r: Option<T>)
    ensures r.None? <==> forall i :: 0 <= i < |s| ==> !p(s[i])
    ensures r.Some? ==> exists k :: FirstAt(p, s, k) && s[k] == r.value
  {
    if s == [] then None
    else if p(s[0]) then
      assert FirstAt(p, s, 0);
      Some(s[0])
    else
      var r := Find(p, s[1..]);
      assert forall k :: FirstAt(p, s[1..], k) ==> FirstAt(p, s, k + 1);
      r
  }

  /** A filter whose predicate holds of no element is empty. */
  lemma {:induction false} FilterNone<T>(p: T -> bool, s: seq<T>)
    requires forall i :: 0 <= i < |s| ==> !p(s[i])
    ensures Filter(p, s) == []
  {
    if s != [] {
      FilterNone(p, s[1..]);
    }
  }

  /** `Array.prototype.map`. */
  function MapSeq<T, U>(f: T -> U, s: seq<T>): (r: seq<U>)
    ensures |r| == |s|
    ensures forall i :: 0 <= i < |s| ==> r[i] == f(s[i])
  {
    seq(|s|, i requires 0 <= i < |s| => f(s[i]))
  }

  /** Mapping one more element of a prefix appends its image. */
  lemma MapSeqSnoc<T, U>(f: T -> U, s: seq<T>, i: nat)
    requires i < |s|
    ensures MapSeq(f, s[..i + 1]) == MapSeq(f, s[..i]) + [f(s[i])]
  {
  }

  /** `flatMap`: the images of the elements, concatenated in order. */
  function FlatMap<T, U>(f: T -> seq<U>, s: seq<T>): seq<U>
  {
    if s == [] then [] else FlatMap(f, s[..|s| - 1]) + f(s[|s| - 1])
  }

  /** An element of a `flatMap` is an element of the image of some input element, and conversely. */
  lemma {:induction false} FlatMapMembers<T, U>(f: T -> seq<U>, s: seq<T>)
    ensures forall x :: x in FlatMap(f, s) <==> exists i :: 0 <= i < |s| && x in f(s[i])
  {
    if s != [] {
      var n := |s| - 1;
      var init := s[..n];
      FlatMapMembers(f, init);
      forall x ensures x in FlatMap(f, s) <==> exists i :: 0 <= i < |s| && x in f(s[i]) {
        if x in FlatMap(f, init) {
          var i :| 0 <= i < |init| && x in f(init[i]);
          assert s[i] == init[i];
        }
        if exists i :: 0 <= i < |s| && x in f(s[i]) {
          var i :| 0 <= i < |s| && x in f(s[i]);
          if i < n {
            assert init[i] == s[i];
          }
        }
      }
    }
  }

  /** `Array.prototype.slice(0, n)` for a non-negative `n`. */
  function Take<T>(s: seq<T>, n: nat): (r: seq<T>)
    ensures |r| == if n < |s| then n else |s|
    ensures r <= s
  {
    if n < |s| then s[..n] else s
  }

  /** `Array.prototype.slice(-n)` for a positive `n`: the last `min(n, |s|)` elements. */
  function TakeLast<T>(s: seq<T>, n: nat): (r: seq<T>)
    ensures |r| == if n < |s| then n else |s|
    ensures forall i :: 0 <= i < |r| ==> r[i] == s[|s| - |r| + i]
  {
    if n < |s| then s[|s| - n..] else s
  }

  /** `Array.prototype.slice(start, end)` for non-negative bounds. */
  function Slice<T>(s: seq<T>, start: nat, end: nat): (r: seq<T>)
    ensures start < end && start < |s| ==> r == s[start..if end < |s| then end else |s|]
    ensures end <= start || |s| <= start ==> r == []
  {
    var e := if end < |s| then end else |s|;
    if start < e then s[start..e] else []
  }

  /** The elements of `s` with index different from `k` (`filter((_, i) => i !== k)`). */
  function DropIndex<T>(s: seq<T>, k: int): (r: seq<T>)
    ensures 0 <= k < |s| ==> r == s[..k] + s[k + 1..]
    ensures !(0 <= k < |s|) ==> r == s
  {
    if 0 <= k < |s| then s[..k] + s[k + 1..] else s
  }

  /** The concatenation of a sequence of strings (`join('')`). */
  function Concat(parts: seq<string>): (r: string)
    ensures parts == [] ==> r == ""
  {
    if parts == [] then "" else parts[0] + Concat(parts[1..])
  }

  /** Joining two lists of strings joins their joins. */
  lemma {:induction false} ConcatAppend(a: seq<string>, b: seq<string>)
    ensures Concat(a + b) == Concat(a) + Concat(b)
  {
    if a == [] {
      assert a + b == b;
    } else {
      assert (a + b)[1..] == a[1..] + b;
      ConcatAppend(a[1..], b);
    }
  }

  predicate NoDuplicates<T(==)>(s: seq<T>) {
    forall i, j :: 0 <= i < j < |s| ==> s[i] != s[j]
  }

  // ---------------------------------------------------------------------------
  // Characters and strings
  // ---------------------------------------------------------------------------

  /** The ASCII white-space characters, standing for JavaScript's `\s`. */
  predicate IsSpace(c: char) {
    c == ' ' || c == '\t' || c == '\n' || c == '\r' || c == '\U{000B}' || c == '\U{000C}'
  }

  /** A string that `trim()` reduces to the empty (falsy) string. */
  predicate Blank(s: string) {
    forall i :: 0 <= i < |s| ==> IsSpace(s[i])
  }

  /** Number of leading white-space characters. */
  function LeadingSpaces(s: string): (k: nat)
    ensures k <= |s|
    ensures forall i :: 0 <= i < k ==> IsSpace(s[i])
    ensures k < |s| ==> !IsSpace(s[k])
  {
    if s != [] && IsSpace(s[0]) then 1 + LeadingSpaces(s[1..]) else 0
  }

  /** Number of trailing white-space characters. */
  function TrailingSpaces(s: string): (k: nat)
    ensures k <= |s|
    ensures forall i :: |s| - k <= i < |s| ==> IsSpace(s[i])
    ensures k < |s| ==> !IsSpace(s[|s| - 1 - k])
  {
    if s != [] && IsSpace(s[|s| - 1]) then 1 + TrailingSpaces(s[..|s| - 1]) else 0
  }

  /** `String.prototype.trim`: the text between the leading and the trailing white space. */
  function Trim(s: string): (r: string)
    ensures |r| <= |s|
    ensures r == [] <==> Blank(s)
    ensures r != [] ==> !IsSpace(r[0]) && !IsSpace(r[|r| - 1])
    ensures OccursAt(s, r, LeadingSpaces(s))
    ensures Blank(s[LeadingSpaces(s) + |r|..])
  {
    var t := s[LeadingSpaces(s)..];
    var r := t[..|t| - TrailingSpaces(t)];
    assert r == s[LeadingSpaces(s)..LeadingSpaces(s) + |r|];
    assert s[LeadingSpaces(s) + |r|..] == t[|t| - TrailingSpaces(t)..];
    assert Blank(s) ==> LeadingSpaces(s) == |s|;
    r
  }

  /** ASCII `toLowerCase` of one character. */
  function LowerChar(c: char): (d: char)
    ensures 'A' <= c <= 'Z' ==> d as int == c as int + 32
    ensures !('A' <= c <= 'Z') ==> d == c
  {
    if 'A' <= c <= 'Z' then (c as int + 32) as char else c
  }

  /** `String.prototype.toLowerCase`, restricted to ASCII letters. */
  function ToLower(s: string): (r: string)
    ensures |r| == |s|
    ensures forall i :: 0 <= i < |s| ==> r[i] == LowerChar(s[i])
  {
    seq(|s|, i requires 0 <= i < |s| => LowerChar(s[i]))
  }

  /** `sub` occurs in `s` starting at index `k`. */
  predicate OccursAt(s: string, sub: string, k: int) {
    0 <= k <= |s| - |sub| && s[k..k + |sub|] == sub
  }

  /** `s.includes(sub)`: `sub` occurs somewhere in `s`. */
  predicate Contains(s: string, sub: string)
  {
    if sub <= s then true else if s == [] then false else Contains(s[1..], sub)
  }

  /** `Contains` holds exactly when `sub` occurs at some position of `s`. */
  lemma ContainsIff(s: string, sub: string)
    ensures Contains(s, sub) <==> exists k :: OccursAt(s, sub, k)
  {
    if Contains(s, sub) {
      ContainsWitness(s, sub);
    }
    forall k | OccursAt(s, sub, k) ensures Contains(s, sub) {
      OccursContains(s, sub, k);
    }
  }

  lemma {:induction false} ContainsWitness(s: string, sub: string)
    requires Contains(s, sub)
    ensures exists k :: OccursAt(s, sub, k)
  {
    if sub <= s {
      assert OccursAt(s, sub, 0);
    } else {
      ContainsWitness(s[1..], sub);
      var k :| OccursAt(s[1..], sub, k);
      assert s[1..][k..k + |sub|] == s[k + 1..k + 1 + |sub|];
      assert OccursAt(s, sub, k + 1);
    }
  }

  lemma {:induction false} OccursContains(s: string, sub: string, k: int)
    requires OccursAt(s, sub, k)
    ensures Contains(s, sub)
    decreases k
  {
    if k == 0 {
      assert sub <= s;
    } else if !(sub <= s) {
      assert s[1..][k - 1..k - 1 + |sub|] == s[k..k + |sub|];
      OccursContains(s[1..], sub, k - 1);
    }
  }

  /** A prefix of `s` (`startsWith`) is contained in `s`, and so is the empty string. */
  lemma PrefixIsContained(s: string, sub: string)
    requires sub <= s
    ensures Contains(s, sub)
  {
  }

  /** `String.prototype.split(c)` with a one-character separator. */
  function Split(s: string, c: char): (r: seq<string>)
    ensures |r| >= 1
    ensures c !in s ==> r == [s]
    ensures forall i :: 0 <= i < |r| ==> c !in r[i]
    ensures c in s ==> |r| >= 2
  {
    if s == [] then [[]]
    else
      var rest := Split(s[1..], c);
      if s[0] == c then [[]] + rest
      else
        assert c !in s ==> rest == [s[1..]] && [s[0]] + s[1..] == s;
        [[s[0]] + rest[0]] + rest[1..]
  }

  /** `Array.prototype.join(c)` with a one-character separator. */
  function Join(parts: seq<string>, c: char): string
  {
    if |parts| == 0 then [] else if |parts| == 1 then parts[0]
    else parts[0] + [c] + Join(parts[1..], c)
  }

  /** `Array.prototype.join(sep)` with a separator of any length. */
  function JoinWith(parts: seq<string>, sep: string): string
  {
    if |parts| == 0 then [] else if |parts| == 1 then parts[0]
    else parts[0] + sep + JoinWith(parts[1..], sep)
  }

  /** Joining what `split` produced with the same separator gives back the string. */
  lemma {:induction false} JoinSplit(s: string, c: char)
    ensures Join(Split(s, c), c) == s
  {
    if s != [] {
      var rest := Split(s[1..], c);
      JoinSplit(s[1..], c);
      if s[0] == c {
        assert Split(s, c) == [[]] + rest;
        assert ([[]] + rest)[1..] == rest;
      } else {
        var parts := [[s[0]] + rest[0]] + rest[1..];
        assert Split(s, c) == parts;
        if |rest| > 1 {
          assert parts[1..] == rest[1..];
          assert Join(rest, c) == rest[0] + [c] + Join(rest[1..], c);
        }
      }
    }
  }

  /** The first `split` part is the prefix of `s` before the first separator. */
  lemma {:induction false} SplitHead(s: string, c: char)
    ensures Split(s, c)[0] <= s
    ensures c in s ==> |Split(s, c)[0]| < |s| && s[|Split(s, c)[0]|] == c
  {
    if s != [] && s[0] != c {
      SplitHead(s[1..], c);
    }
  }

  // ---------------------------------------------------------------------------
  // The e-mail pattern ^[^\s@]+@[^\s@]+\.[^\s@]+$
  // ---------------------------------------------------------------------------

  /** Every character is neither white space nor '@' (the class `[^\s@]`). */
  predicate PlainChars(s: string) {
    forall i :: 0 <= i < |s| ==> !IsSpace(s[i]) && s[i] != '@'
  }

  /** `[^\s@]+\.[^\s@]+`: a '.' with at least one character on each side. */
  predicate DottedDomain(d: string) {
    PlainChars(d) && exists i | 0 < i < |d| - 1 :: d[i] == '.'
  }

  /**
   * The pattern the account, invitation and sign-in forms test e-mails
   * against: a non-empty plain part, '@', and a dotted plain domain. Neither
   * part may hold an '@', so the '@' at `k` is the only one.
   */
  predicate IsEmail(s: string) {
    exists k | 0 < k < |s| :: s[k] == '@' && PlainChars(s[..k]) && DottedDomain(s[k + 1..])
  }

  /** Conversely, `local@domain` with a non-empty plain local part and a dotted domain matches. */
  lemma EmailFromParts(local: string, domain: string)
    requires |local| > 0 && PlainChars(local) && DottedDomain(domain)
    ensures IsEmail(local + "@" + domain)
  {
    var s := local + "@" + domain;
    assert s[..|local|] == local && s[|local| + 1..] == domain;
    assert s[|local|] == '@';
  }

  /** A plain part holds no '@'. */
  lemma NoAt(s: string)
    requires PlainChars(s)
    ensures multiset(s)['@'] == 0
  {
    assert '@' !in s;
  }

  /** A matching e-mail is `local@domain` with exactly one '@', no white space, and a dotted domain. */
  lemma EmailShape(s: string)
    requires IsEmail(s)
    ensures exists local, domain ::
              s == local + "@" + domain && |local| > 0 && PlainChars(local) && DottedDomain(domain)
    ensures multiset(s)['@'] == 1
  {
    var k :| 0 < k < |s| && s[k] == '@' && PlainChars(s[..k]) && DottedDomain(s[k + 1..]);
    var local, domain := s[..k], s[k + 1..];
    assert s == local + "@" + domain;
    NoAt(local);
    NoAt(domain);
    assert multiset(s) == multiset(local) + multiset{'@'} + multiset(domain);
  }
}
