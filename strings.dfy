/**
 * The functions of Go's `strings` package that main.go relies on, over
 * strings as sequences of characters, and Go's byte length `len(s)`
 * (the number of bytes of the UTF-8 encoding).
 */
module Strings {

  /** strings.HasPrefix */
  predicate HasPrefix(s: string, prefix: string)
  {
    prefix <= s
  }

  /** strings.Index with a one-character needle: the first position of `c`, or -1. */
  function Index(s: string, c: char): (r: int)
    ensures -1 <= r < |s|
    ensures r == -1 <==> c !in s
    ensures 0 <= r ==> s[r] == c && c !in s[..r]
  {
    if s == [] then -1
    else if s[0] == c then 0
    else
      var k := Index(s[1..], c);
      if k < 0 then -1
      else
        assert s[..k + 1] == [s[0]] + s[1..][..k];
        k + 1
  }

  /** The first occurrence is unique: any position holding `c` with no `c` before it is the index. */
  lemma IndexAt(s: string, c: char, k: nat)
    requires k < |s| && s[k] == c && c !in s[..k]
    ensures Index(s, c) == k
  {
  }

  /** The index of a separator that follows a separator-free prefix is the prefix's length. */
  lemma IndexConcat(a: string, b: string, c: char)
    requires c !in a && |b| > 0 && b[0] == c
    ensures Index(a + b, c) == |a|
  {
    assert (a + b)[..|a|] == a;
    IndexAt(a + b, c, |a|);
  }

  /** strings.Split with a one-character separator: the pieces between the separators, in order. */
  function Split(s: string, c: char): (parts: seq<string>)
    ensures |parts| >= 1
    ensures forall i :: 0 <= i < |parts| ==> c !in parts[i]
    decreases |s|
  {
    var i := Index(s, c);
    if i < 0 then [s]
    else
      var rest := Split(s[i + 1..], c);
      assert forall k :: 1 <= k <= |rest| ==> ([s[..i]] + rest)[k] == rest[k - 1];
      [s[..i]] + rest
  }

  /** strings.Join: the pieces with `c` between consecutive ones. */
  function Join(parts: seq<string>, c: char): string
  {
    if |parts| == 0 then ""
    else if |parts| == 1 then parts[0]
    else parts[0] + [c] + Join(parts[1..], c)
  }

  /** Splitting yields one more piece than there are separators. */
  lemma {:induction false} SplitCount(s: string, c: char)
    ensures |Split(s, c)| == multiset(s)[c] + 1
    decreases |s|
  {
    var i := Index(s, c);
    if i >= 0 {
      var tail := s[i + 1..];
      assert |Split(s, c)| == 1 + |Split(tail, c)|;
      CountAfterFirst(s, i, c);
      SplitCount(tail, c);
    } else {
      assert |Split(s, c)| == 1;
      assert c !in multiset(s);
    }
  }

  /** Up to and including the first separator, a string holds exactly one separator. */
  lemma CountAfterFirst(s: string, i: nat, c: char)
    requires i < |s| && s[i] == c && c !in s[..i]
    ensures multiset(s)[c] == 1 + multiset(s[i + 1..])[c]
  {
    var head, tail := s[..i], s[i + 1..];
    assert s == head + [c] + tail;
    assert multiset(s) == multiset(head) + multiset([c]) + multiset(tail);
  }

  /** Joining the pieces of a split restores the input. */
  lemma {:induction false} JoinSplit(s: string, c: char)
    ensures Join(Split(s, c), c) == s
    decreases |s|
  {
    var i := Index(s, c);
    if i >= 0 {
      var head, tail := s[..i], s[i + 1..];
      assert Join(Split(s, c), c) == head + [c] + Join(Split(tail, c), c) by {
        var parts := Split(s, c);
        assert |parts| >= 2 && parts[0] == head && parts[1..] == Split(tail, c);
      }
      JoinSplit(tail, c);
      assert s == head + [c] + tail;
    } else {
      assert Split(s, c) == [s];
    }
  }

  /** Splitting a join of separator-free pieces gives the pieces back. */
  lemma {:induction false} SplitJoin(parts: seq<string>, c: char)
    requires |parts| >= 1
    requires forall i :: 0 <= i < |parts| ==> c !in parts[i]
    ensures Split(Join(parts, c), c) == parts
    decreases |parts|
  {
    if |parts| > 1 {
      var head, tail := parts[0], Join(parts[1..], c);
      var s := head + [c] + tail;
      assert Join(parts, c) == s;
      assert Split(s, c) == [head] + Split(tail, c) by {
        assert s[..|head|] == head;
        IndexAt(s, c, |head|);
        assert s[|head| + 1..] == tail;
      }
      SplitJoin(parts[1..], c);
      assert parts == [head] + parts[1..];
    }
  }

  /** Joining one more piece appends a separator and that piece. */
  lemma {:induction false} JoinAppend(parts: seq<string>, b: string, c: char)
    requires |parts| >= 1
    ensures Join(parts + [b], c) == Join(parts, c) + [c] + b
    decreases |parts|
  {
    if |parts| == 1 {
      assert parts + [b] == [parts[0], b];
    } else {
      assert (parts + [b])[1..] == parts[1..] + [b];
      JoinAppend(parts[1..], b, c);
    }
  }

  /** Appending a separator and a separator-free piece appends that piece to the split. */
  lemma SplitAppend(a: string, b: string, c: char)
    requires c !in b
    ensures Split(a + [c] + b, c) == Split(a, c) + [b]
  {
    var parts := Split(a, c) + [b];
    JoinSplit(a, c);
    JoinAppend(Split(a, c), b, c);
    assert forall i :: 0 <= i < |parts| ==> c !in parts[i];
    SplitJoin(parts, c);
  }

  /** Number of bytes UTF-8 uses for one character. */
  function Utf8Width(ch: char): (n: nat)
    ensures 1 <= n <= 4
    ensures n == 1 <==> ch as int < 0x80
  {
    if ch as int < 0x80 then 1
    else if ch as int < 0x800 then 2
    else if ch as int < 0x10000 then 3
    else 4
  }

  /** Go's `len` of a string: the length of its UTF-8 encoding. */
  function Utf8Len(s: string): (n: nat)
    ensures |s| <= n <= 4 * |s|
  {
    if s == [] then 0 else Utf8Width(s[0]) + Utf8Len(s[1..])
  }

  /** The byte length equals the character count exactly when every character is ASCII. */
  lemma {:induction false} Utf8LenAscii(s: string)
    ensures Utf8Len(s) == |s| <==> forall i :: 0 <= i < |s| ==> s[i] as int < 0x80
  {
    if s != [] {
      Utf8LenAscii(s[1..]);
      assert forall i :: 1 <= i < |s| ==> s[i] == s[1..][i - 1];
    }
  }
}
