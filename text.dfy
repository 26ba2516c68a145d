/**
 * The string primitives the source takes from its runtime: JavaScript's
 * `String.prototype.includes`, and Python's `str.find`, `str.strip` and
 * `str.replace(c, '')`. Strings are sequences of characters; every test is
 * case-sensitive, exactly as in the source.
 */
module Text {

  /** `t` occurs in `s` starting at position `i`. */
  ghost predicate OccursAt(s: string, t: string, i: int)
  {
    0 <= i && i + |t| <= |s| && s[i..i + |t|] == t
  }

  /** `t` is a substring of `s`. */
  ghost predicate Contains(s: string, t: string)
  {
    exists i :: OccursAt(s, t, i)
  }

  /** Occurrences in `s[1..]` are the occurrences in `s` shifted by one. */
  lemma OccursShift(s: string, t: string, i: int)
    requires |s| > 0 && 0 <= i
    ensures OccursAt(s[1..], t, i) <==> OccursAt(s, t, i + 1)
  {
    if 0 <= i && i + |t| <= |s| - 1 {
      assert s[1..][i..i + |t|] == s[i + 1..i + 1 + |t|];
    }
  }

  /**
   * The position of the first occurrence of `t` in `s`, or -1 when there is
   * none (Python's `str.find`; an empty `t` is found at 0).
   */
  function IndexOf(s: string, t: string): (r: int)
    ensures -1 <= r <= |s|
    ensures r >= 0 ==> OccursAt(s, t, r)
    ensures forall j :: 0 <= j && (r == -1 || j < r) ==> !OccursAt(s, t, j)
    ensures r == -1 <==> !Contains(s, t)
    decreases |s|
  {
    if |t| > |s| then -1
    else if s[..|t|] == t then assert OccursAt(s, t, 0); 0
    else
      var k := IndexOf(s[1..], t);
      assert forall j :: 0 <= j ==> (OccursAt(s[1..], t, j) <==> OccursAt(s, t, j + 1)) by {
        forall j | 0 <= j ensures OccursAt(s[1..], t, j) <==> OccursAt(s, t, j + 1) {
          OccursShift(s, t, j);
        }
      }
      assert !OccursAt(s, t, 0);
      assert forall j :: 1 <= j ==> OccursAt(s, t, j) == OccursAt(s[1..], t, j - 1);
      if k < 0 then -1 else k + 1
  }

  /** JavaScript's `s.includes(t)`. */
  function Includes(s: string, t: string): (b: bool)
    ensures b <==> Contains(s, t)
  {
    IndexOf(s, t) >= 0
  }

  /**
   * The characters Python's `str.strip()` removes, restricted to a fixed set:
   * space, tab, line feed, carriage return, vertical tab, form feed and
   * no-break space.
   */
  predicate IsSpace(c: char)
  {
    c == ' ' || c == '\t' || c == '\n' || c == '\r' || c == '\U{000B}' || c == '\U{000C}' || c == '\U{00A0}'
  }

  /** Every character of `s` from position `i` up to `j` is whitespace. */
  ghost predicate SpacesBetween(s: string, i: int, j: int)
  {
    forall k :: i <= k < j && 0 <= k < |s| ==> IsSpace(s[k])
  }

  ghost predicate AllSpace(s: string)
  {
    SpacesBetween(s, 0, |s|)
  }

  /** The number of whitespace characters at the start of `s[i..]`. */
  function LeadingSpaces(s: string, i: nat): (n: nat)
    requires i <= |s|
    ensures i + n <= |s|
    ensures SpacesBetween(s, i, i + n)
    ensures i + n == |s| || !IsSpace(s[i + n])
    decreases |s| - i
  {
    if i < |s| && IsSpace(s[i]) then LeadingSpaces(s, i + 1) + 1 else 0
  }

  /** The number of whitespace characters at the end of `s[..j]`, not counting back past `lo`. */
  function TrailingSpaces(s: string, lo: nat, j: nat): (n: nat)
    requires lo <= j <= |s|
    ensures n <= j - lo
    ensures SpacesBetween(s, j - n, j)
    ensures j - n == lo || !IsSpace(s[j - n - 1])
  {
    if lo < j && IsSpace(s[j - 1]) then TrailingSpaces(s, lo, j - 1) + 1 else 0
  }

  /**
   * The bounds `(i, j)` of what Python's `s.strip()` keeps: the run of
   * whitespace before `i` and the run after `j` are what it removes.
   */
  function StripBounds(s: string): (b: (nat, nat))
    ensures b.0 <= b.1 <= |s|
    ensures SpacesBetween(s, 0, b.0) && SpacesBetween(s, b.1, |s|)
    ensures b.0 == b.1 || (!IsSpace(s[b.0]) && !IsSpace(s[b.1 - 1]))
    ensures b.0 == b.1 <==> AllSpace(s)
  {
    var a := LeadingSpaces(s, 0);
    var n := TrailingSpaces(s, a, |s|);
    (a, |s| - n)
  }

  /**
   * Python's `s.strip()`: the slice of `s` left after removing leading and
   * trailing whitespace. What was removed is whitespace, and what is left
   * neither starts nor ends with whitespace.
   */
  function Strip(s: string): (r: string)
    ensures |r| <= |s|
    ensures r == s[StripBounds(s).0..StripBounds(s).1]
    ensures r == [] || (!IsSpace(r[0]) && !IsSpace(r[|r| - 1]))
    ensures r == [] <==> AllSpace(s)
  {
    var b := StripBounds(s);
    s[b.0..b.1]
  }

  /** Python's `s.replace(c, '')`: every `c` deleted, everything else kept in order. */
  function RemoveChar(s: string, c: char): (r: string)
    ensures |r| <= |s|
    ensures c !in r
    ensures c !in s ==> r == s
  {
    if |s| == 0 then []
    else if s[0] == c then RemoveChar(s[1..], c)
    else [s[0]] + RemoveChar(s[1..], c)
  }

  /** Every character other than `c` survives the deletion, and nothing new appears. */
  lemma {:induction false} RemoveCharMembers(s: string, c: char, x: char)
    ensures x in RemoveChar(s, c) <==> x in s && x != c
  {
    if |s| > 0 {
      RemoveCharMembers(s[1..], c, x);
      assert s == [s[0]] + s[1..];
    }
  }

  /** Deleting a character distributes over concatenation. */
  lemma {:induction false} RemoveCharAppend(a: string, b: string, c: char)
    ensures RemoveChar(a + b, c) == RemoveChar(a, c) + RemoveChar(b, c)
  {
    if |a| > 0 {
      assert (a + b)[1..] == a[1..] + b;
      RemoveCharAppend(a[1..], b, c);
    } else {
      assert a + b == b;
    }
  }
}
