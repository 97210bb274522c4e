/**
  Byte strings, standing for `std::string` as the XRT client uses it: worker
  names, execution domains and serialized programs are all plain byte
  sequences.  `Compare` gives the sign of `std::string::compare`, which orders
  strings lexicographically with every character compared as an unsigned
  byte (the behaviour of `std::char_traits<char>`).
 */
module Bytes {

  newtype Byte = b: int | 0 <= b < 0x100

  type ByteString = seq<Byte>

  /** The sign of `a.compare(b)`: -1 when `a` sorts before `b`, 0 when they
      are equal, 1 when `a` sorts after `b`. */
  function Compare(a: ByteString, b: ByteString): (r: int)
    ensures -1 <= r <= 1
    ensures r == 0 <==> a == b
    decreases |a|
  {
    if |a| == 0 then (if |b| == 0 then 0 else -1)
    else if |b| == 0 then 1
    else if a[0] < b[0] then -1
    else if b[0] < a[0] then 1
    else
      var r := Compare(a[1..], b[1..]);
      assert a == [a[0]] + a[1..] && b == [b[0]] + b[1..];
      r
  }

  /** Lexicographic order stated without recursion: `a` is a proper prefix of
      `b`, or the two agree up to some position where `a` has the smaller
      byte. */
  ghost predicate LexicographicallyBefore(a: ByteString, b: ByteString) {
    || (|a| < |b| && a == b[..|a|])
    || exists i :: 0 <= i < |a| && i < |b| && a[..i] == b[..i] && a[i] < b[i]
  }

  /** Swapping the operands of `compare` flips the sign of its result. */
  lemma {:induction false} CompareAntisymmetric(a: ByteString, b: ByteString)
    ensures Compare(b, a) == -Compare(a, b)
    decreases |a|
  {
    if |a| > 0 && |b| > 0 && a[0] == b[0] {
      CompareAntisymmetric(a[1..], b[1..]);
    }
  }

  /** "Sorts before" is transitive. */
  lemma {:induction false} CompareTransitive(a: ByteString, b: ByteString, c: ByteString)
    requires Compare(a, b) < 0 && Compare(b, c) < 0
    ensures Compare(a, c) < 0
    decreases |a|
  {
    if |a| > 0 && |b| > 0 && |c| > 0 && a[0] == b[0] && b[0] == c[0] {
      CompareTransitive(a[1..], b[1..], c[1..]);
    }
  }

  /** Dropping a common first byte does not change the lexicographic order. */
  lemma LexicographicShift(a: ByteString, b: ByteString)
    requires |a| > 0 && |b| > 0 && a[0] == b[0]
    ensures LexicographicallyBefore(a, b) <==> LexicographicallyBefore(a[1..], b[1..])
  {
    var a', b' := a[1..], b[1..];
    if |a| < |b| && a == b[..|a|] {
      assert a' == b'[..|a'|];
    }
    if |a'| < |b'| && a' == b'[..|a'|] {
      assert a == [a[0]] + a' && b[..|a|] == [b[0]] + b'[..|a'|];
    }
    if i :| 0 <= i < |a| && i < |b| && a[..i] == b[..i] && a[i] < b[i] {
      assert i > 0;
      assert a'[..i - 1] == a[..i][1..] && b'[..i - 1] == b[..i][1..];
      assert a'[i - 1] == a[i] && b'[i - 1] == b[i];
    }
    if j :| 0 <= j < |a'| && j < |b'| && a'[..j] == b'[..j] && a'[j] < b'[j] {
      assert a[..j + 1] == [a[0]] + a'[..j] && b[..j + 1] == [b[0]] + b'[..j];
      assert a[j + 1] == a'[j] && b[j + 1] == b'[j];
    }
  }

  /** `Compare` agrees with the non-recursive definition of lexicographic
      order, in both directions. */
  lemma {:induction false} CompareIsLexicographic(a: ByteString, b: ByteString)
    ensures Compare(a, b) < 0 <==> LexicographicallyBefore(a, b)
    decreases |a|
  {
    if |a| == 0 {
      if |b| > 0 {
        assert a == b[..0];
      }
    } else if |b| == 0 {
    } else if a[0] < b[0] {
      assert a[..0] == b[..0];
    } else if b[0] < a[0] {
    } else {
      CompareIsLexicographic(a[1..], b[1..]);
      LexicographicShift(a, b);
    }
  }

  /** A proper prefix sorts before the longer string. */
  lemma ProperPrefixBefore(a: ByteString, b: ByteString)
    requires |a| < |b| && a == b[..|a|]
    ensures Compare(a, b) < 0
  {
    CompareIsLexicographic(a, b);
  }
}
