// Facts about sequences that several models use.

module Sequences {

  lemma Associates<T>(a: seq<T>, b: seq<T>, c: seq<T>)
    ensures a + (b + c) == a + b + c
  {
  }

  /** What was added in two steps was added. */
  lemma TailsMeet<T>(a: seq<T>, b: seq<T>, c: seq<T>, front: seq<T>)
    requires a <= b <= c
    ensures front + b[|a|..] + c[|b|..] == front + c[|a|..]
  {
    assert b[|a|..] + c[|b|..] == c[|a|..];
    Associates(front, b[|a|..], c[|b|..]);
  }
}
