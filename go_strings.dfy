/** The handful of Go `strings` functions the image routes rely on, over
    Dafny strings (one `char` per byte of the Go string). */
module GoStrings {

  /** `strings.Count(s, string(c))`: how many times `c` occurs in `s`. */
  function Count(s: string, c: char): (n: nat)
    ensures n <= |s|
    ensures n == 0 <==> c !in s
  {
    if s == [] then 0 else (if s[0] == c then 1 else 0) + Count(s[1..], c)
  }

  /** The count is the multiplicity of `c` in the multiset of `s`. */
  lemma {:induction false} CountIsMultiplicity(s: string, c: char)
    ensures Count(s, c) == multiset(s)[c]
  {
    if s != [] {
      assert s == [s[0]] + s[1..];
      CountIsMultiplicity(s[1..], c);
    }
  }

  /** Counting distributes over concatenation. */
  lemma {:induction false} CountAppend(a: string, b: string, c: char)
    ensures Count(a + b, c) == Count(a, c) + Count(b, c)
  {
    if a == [] {
      assert a + b == b;
    } else {
      assert (a + b)[1..] == a[1..] + b;
      CountAppend(a[1..], b, c);
    }
  }

  /** `strings.IndexRune(s, c)`: the index of the first `c` in `s`, or -1. */
  function IndexRune(s: string, c: char): (i: int)
    ensures i == -1 <==> c !in s
    ensures i != -1 ==> 0 <= i < |s| && s[i] == c && c !in s[..i]
  {
    if s == [] then -1
    else if s[0] == c then 0
    else
      var j := IndexRune(s[1..], c);
      if j == -1 then -1
      else
        assert s[..j + 1] == [s[0]] + s[1..][..j];
        j + 1
  }

  /** `strings.IndexAny(s, chars)`: the index of the first character of `s`
      that occurs in `chars`, or -1. */
  function IndexAny(s: string, chars: string): (i: int)
    ensures i == -1 <==> forall k :: 0 <= k < |s| ==> s[k] !in chars
    ensures i != -1 ==> 0 <= i < |s| && s[i] in chars && forall k :: 0 <= k < i ==> s[k] !in chars
  {
    if s == [] then -1
    else if s[0] in chars then 0
    else
      var j := IndexAny(s[1..], chars);
      if j == -1 then -1 else j + 1
  }

  /** `strings.ContainsAny(s, chars)`: some character of `chars` occurs in `s`. */
  predicate ContainsAny(s: string, chars: string): (b: bool)
    ensures b <==> exists ch :: ch in chars && ch in s
  {
    IndexAny(s, chars) >= 0
  }
}
