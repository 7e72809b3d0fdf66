/**
 * Sequence equalities the log proofs use to match logs built by different
 * groupings of the same parts.
 */
module Seqs {
  lemma Assoc<T>(a: seq<T>, b: seq<T>, c: seq<T>)
    ensures a + (b + c) == a + b + c
  {
  }

  lemma AppendNil<T>(a: seq<T>)
    ensures a + [] == a && [] + a == a
  {
  }

  lemma Nest2<T>(a: T, b: T)
    ensures [a, b] == [a] + [b]
  {
  }

  lemma Nest3<T>(a: T, b: T, c: T)
    ensures [a, b, c] == [a] + [b, c]
  {
  }

  lemma Nest4<T>(a: T, b: T, c: T, d: T)
    ensures [a, b, c, d] == [a] + [b, c, d]
  {
  }

  lemma Nest5<T>(a: T, b: T, c: T, d: T, e: T)
    ensures [a, b, c, d, e] == [a] + [b, c, d, e]
  {
  }

  lemma Nest6<T>(a: T, b: T, c: T, d: T, e: T, f: T)
    ensures [a, b, c, d, e, f] == [a] + [b, c, d, e, f]
  {
  }

  /** Two nested one-element brackets around `c`, regrouped as one two-element bracket. */
  lemma NestBrackets<T>(p: T, q: T, c: seq<T>, r: T, t: T)
    ensures [p] + ([q] + c + [r]) + [t] == [p, q] + c + [r, t]
  {
  }

  lemma Assoc4<T>(a: seq<T>, b: seq<T>, c: seq<T>, d: seq<T>)
    ensures a + (b + (c + d)) == a + b + c + d
  {
    Assoc(b, c, d);
    Assoc(a, b + c, d);
    Assoc(a, b, c);
  }
}
