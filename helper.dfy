/** Helper.AlphaNum: the thread-name filter, a regular-expression replace of `[^a-zA-Z0-9]`
    by the empty string. */
module Helper {

  /** The ASCII letters and digits, the complement of the regex class. */
  predicate IsAlphaNum(c: char) {
    'a' <= c <= 'z' || 'A' <= c <= 'Z' || '0' <= c <= '9'
  }

  function AlphaNum(msg: string): (r: string)
    ensures forall i :: 0 <= i < |r| ==> IsAlphaNum(r[i])
    ensures |r| <= |msg|
  {
    if msg == [] then []
    else (if IsAlphaNum(msg[0]) then [msg[0]] else []) + AlphaNum(msg[1..])
  }

  /** `r` can be obtained from `s` by deleting characters. */
  ghost predicate IsSubsequence(r: string, s: string)
    decreases |s|
  {
    if r == [] then true
    else if s == [] then false
    else if r[0] == s[0] then IsSubsequence(r[1..], s[1..])
    else IsSubsequence(r, s[1..])
  }

  /** The output keeps the characters it keeps in their original order. */
  lemma {:induction false} AlphaNumIsSubsequence(msg: string)
    ensures IsSubsequence(AlphaNum(msg), msg)
  {
    if msg != [] {
      AlphaNumIsSubsequence(msg[1..]);
      var rest := AlphaNum(msg[1..]);
      if IsAlphaNum(msg[0]) {
        assert AlphaNum(msg) == [msg[0]] + rest;
        assert ([msg[0]] + rest)[1..] == rest;
      } else {
        assert AlphaNum(msg) == rest;
        assert rest != [] ==> IsAlphaNum(rest[0]);
      }
    }
  }

  /** Every letter or digit is kept as often as it occurs, every other character dropped. */
  lemma {:induction false} AlphaNumCounts(msg: string, c: char)
    ensures multiset(AlphaNum(msg))[c] == if IsAlphaNum(c) then multiset(msg)[c] else 0
  {
    if msg != [] {
      AlphaNumCounts(msg[1..], c);
      assert msg == [msg[0]] + msg[1..];
      assert multiset(msg) == multiset([msg[0]]) + multiset(msg[1..]);
    }
  }

  /** A string of letters and digits only is left as it is. */
  lemma {:induction false} AlphaNumFixesAlphaNum(msg: string)
    requires forall i :: 0 <= i < |msg| ==> IsAlphaNum(msg[i])
    ensures AlphaNum(msg) == msg
  {
    if msg != [] {
      AlphaNumFixesAlphaNum(msg[1..]);
    }
  }

  lemma AlphaNumIdempotent(msg: string)
    ensures AlphaNum(AlphaNum(msg)) == AlphaNum(msg)
  {
    AlphaNumFixesAlphaNum(AlphaNum(msg));
  }

  /** The filter works character by character, so it distributes over concatenation. */
  lemma {:induction false} AlphaNumConcat(a: string, b: string)
    ensures AlphaNum(a + b) == AlphaNum(a) + AlphaNum(b)
  {
    if a == [] {
      assert a + b == b;
    } else {
      assert (a + b)[0] == a[0];
      assert (a + b)[1..] == a[1..] + b;
      AlphaNumConcat(a[1..], b);
    }
  }
}
