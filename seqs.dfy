/** Small facts about sequences used by the other modules. */
module Seqs {

  /** Concatenation is associative; stated once so that proofs can regroup long concatenations cheaply. */
  lemma ConcatAssoc<T>(a: seq<T>, b: seq<T>, c: seq<T>)
    ensures (a + b) + c == a + (b + c)
  {
  }

  function Last<T>(s: seq<T>): T
    requires s != []
  {
    s[|s| - 1]
  }

  function Front<T>(s: seq<T>): seq<T>
    requires s != []
  {
    s[..|s| - 1]
  }

  /** Taking apart a sequence that ends with `e`. */
  lemma FrontLastSnoc<T>(s: seq<T>, e: T)
    ensures Front(s + [e]) == s && Last(s + [e]) == e
  {
  }
}
