/**
  The identity of one accelerator-serving process, `XrtComputationClient::Worker`:
  a job name and a task number.  Workers are the keys of the client's
  worker-to-endpoint map, so their `<` must be a strict total order whose
  induced equivalence is `==`.
 */
module Workers {
  import opened Bytes

  /** The C++ `int` that holds a task number. */
  newtype Int32 = x: int | -0x8000_0000 <= x < 0x8000_0000

  datatype Worker = Worker(name: ByteString, taskNo: Int32)

  /** `Worker::operator<`: the task number decides; the name breaks ties.  A
      worker is never before an equal one, nor before one with a smaller task
      number. */
  function Less(lhs: Worker, rhs: Worker): (r: bool)
    ensures r ==> lhs != rhs && lhs.taskNo <= rhs.taskNo
  {
    if lhs.taskNo != rhs.taskNo then lhs.taskNo < rhs.taskNo
    else Compare(lhs.name, rhs.name) < 0
  }

  /** `Worker::operator==`: field-wise equality, which is exactly equality of
      the two worker values. */
  function Equal(lhs: Worker, rhs: Worker): (r: bool)
    ensures r <==> lhs == rhs
  {
    lhs.taskNo == rhs.taskNo && lhs.name == rhs.name
  }

  /** No worker is ordered before itself. */
  lemma LessIrreflexive(w: Worker)
    ensures !Less(w, w)
  {
  }

  /** The order is transitive. */
  lemma LessTransitive(a: Worker, b: Worker, c: Worker)
    requires Less(a, b) && Less(b, c)
    ensures Less(a, c)
  {
    if a.taskNo == b.taskNo == c.taskNo {
      CompareTransitive(a.name, b.name, c.name);
    }
  }

  /** Exactly one of `a < b`, `b < a` and `a == b` holds. */
  lemma Trichotomy(a: Worker, b: Worker)
    ensures Less(a, b) || Less(b, a) || Equal(a, b)
    ensures !(Less(a, b) && Less(b, a))
    ensures Equal(a, b) ==> !Less(a, b) && !Less(b, a)
  {
    CompareAntisymmetric(a.name, b.name);
  }

  /** Two workers that neither precede the other are equal, and conversely:
      the equivalence a `std::map` keyed by `Worker` uses is `operator==`. */
  lemma EquivalentIffEqual(a: Worker, b: Worker)
    ensures !Less(a, b) && !Less(b, a) <==> Equal(a, b)
  {
    Trichotomy(a, b);
  }

  /** A smaller task number wins whatever the names; on equal task numbers the
      names decide, in lexicographic byte order. */
  lemma TaskNoFirst(a: Worker, b: Worker)
    ensures a.taskNo < b.taskNo ==> Less(a, b)
    ensures Less(a, b) ==> a.taskNo <= b.taskNo
    ensures a.taskNo == b.taskNo ==> (Less(a, b) <==> LexicographicallyBefore(a.name, b.name))
  {
    CompareIsLexicographic(a.name, b.name);
  }

  /** `Less` meets every requirement on the comparator of an ordered map key. */
  lemma LessIsStrictTotalOrder()
    ensures forall w :: !Less(w, w)
    ensures forall a, b, c :: Less(a, b) && Less(b, c) ==> Less(a, c)
    ensures forall a, b :: Less(a, b) || Less(b, a) || a == b
  {
    forall a, b, c | Less(a, b) && Less(b, c)
      ensures Less(a, c)
    {
      LessTransitive(a, b, c);
    }
    forall a, b
      ensures Less(a, b) || Less(b, a) || a == b
    {
      Trichotomy(a, b);
    }
  }
}
