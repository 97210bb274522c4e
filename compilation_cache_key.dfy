/**
  The key of the client's compilation cache, `CompilationCacheKey`.  A compiled
  program handle is only meaningful within the execution domain (the group of
  worker endpoints) that produced it, so the key pairs the domain with the
  serialized program.
 */
module CompilationCacheKeys {
  import opened Bytes

  datatype CompilationCacheKey = CompilationCacheKey(domain: ByteString, serializedComputation: ByteString)

  /** `CompilationCacheKey::operator==`: field-wise equality, which is exactly
      equality of the two key values. */
  function KeyEqual(lhs: CompilationCacheKey, rhs: CompilationCacheKey): (r: bool)
    ensures r <==> lhs == rhs
  {
    lhs.domain == rhs.domain && lhs.serializedComputation == rhs.serializedComputation
  }

  /** A corollary of `KeyEqual`'s contract: the same serialized program
      compiled for two different domains yields two distinct keys, and the
      same domain with two different programs does too. */
  lemma KeysSeparateDomainsAndPrograms(d1: ByteString, d2: ByteString, p1: ByteString, p2: ByteString)
    ensures KeyEqual(CompilationCacheKey(d1, p1), CompilationCacheKey(d2, p2)) <==> d1 == d2 && p1 == p2
  {
  }

  /** A cache keyed by `CompilationCacheKey`: entries for one program under two
      domains live side by side, and removing one leaves the other untouched. */
  lemma SameProgramTwoDomains<C>(cache: map<CompilationCacheKey, C>, a: ByteString, b: ByteString,
                                 program: ByteString, ca: C, cb: C)
    requires a != b
    ensures var ka, kb := CompilationCacheKey(a, program), CompilationCacheKey(b, program);
            var both := cache[ka := ca][kb := cb];
            && ka in both && both[ka] == ca
            && kb in both && both[kb] == cb
            && kb in both - {ka} && (both - {ka})[kb] == cb
  {
    var ka, kb := CompilationCacheKey(a, program), CompilationCacheKey(b, program);
    assert !KeyEqual(ka, kb);
  }
}
