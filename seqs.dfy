/** Regrouping facts about sequence concatenation, stated once for any element
    type so that the proofs about token sequences can use them without
    unfolding the printers. */
module Seqs {
  lemma HeadTail<X>(s: seq<X>)
    requires s != []
    ensures [s[0]] + s[1..] == s
  {
  }

  lemma FirstOf<X>(a: seq<X>, b: seq<X>)
    requires a != []
    ensures (a + b)[0] == a[0]
  {
  }

  lemma DropPrefix<X>(p: seq<X>, w: seq<X>)
    ensures |p + w| == |p| + |w| && (p + w)[|p|..] == w
    ensures forall i :: 0 <= i < |p| ==> (p + w)[i] == p[i]
  {
  }

  lemma Assoc<X>(a: seq<X>, b: seq<X>, c: seq<X>)
    ensures a + b + c == a + (b + c)
  {
  }

  lemma Assoc4<X>(a: seq<X>, b: seq<X>, c: seq<X>, d: seq<X>)
    ensures a + b + c + d == a + (b + c + d)
  {
  }

  lemma Assoc5<X>(a: seq<X>, b: seq<X>, c: seq<X>, d: seq<X>, e: seq<X>)
    ensures a + b + c + d + e == a + (b + (c + d + e))
  {
  }

  lemma Assoc6<X>(a: seq<X>, b: seq<X>, c: seq<X>, d: seq<X>, e: seq<X>, f: seq<X>)
    ensures a + b + c + d + e + f == a + (b + (c + (d + e + f)))
  {
  }
}
