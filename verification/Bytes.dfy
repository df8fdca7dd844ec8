// Bytes, streams that arrive in chunks, and the small types the other modules share.
module Bytes {
  type Byte = bv8

  datatype Option<+T> = None | Some(value: T)

  // The stream that arrives when the chunks are read one after the other.
  function Flatten<T>(chunks: seq<seq<T>>): (stream: seq<T>) {
    if chunks == [] then [] else chunks[0] + Flatten(chunks[1..])
  }

  lemma FlattenStep<T>(chunks: seq<seq<T>>)
    ensures Flatten(chunks) == if chunks == [] then [] else chunks[0] + Flatten(chunks[1..])
  {}

  lemma {:induction false} FlattenAppend<T>(a: seq<seq<T>>, b: seq<seq<T>>)
    ensures Flatten(a + b) == Flatten(a) + Flatten(b)
  {
    hide Flatten;
    FlattenStep(a);
    if a == [] {
      assert a + b == b;
    } else {
      FlattenAppend(a[1..], b);
      FlattenStep(a + b);
      assert (a + b)[1..] == a[1..] + b;
      assert a[0] + (Flatten(a[1..]) + Flatten(b)) == a[0] + Flatten(a[1..]) + Flatten(b);
    }
  }

  lemma FlattenSnoc<T>(chunks: seq<seq<T>>, last: seq<T>)
    ensures Flatten(chunks + [last]) == Flatten(chunks) + last
  {
    FlattenAppend(chunks, [last]);
    assert Flatten([last]) == last + Flatten([last][1..]);
  }

  predicate PairAt(text: seq<Byte>, i: int, x: Byte, y: Byte) {
    0 <= i && i + 1 < |text| && text[i] == x && text[i + 1] == y
  }

  // First position of the byte pair x y in `text`, or -1.
  function FindPair(text: seq<Byte>, x: Byte, y: Byte): (index: int)
    ensures -1 <= index
    ensures index >= 0 ==> PairAt(text, index, x, y)
    ensures forall i :: PairAt(text, i, x, y) ==> 0 <= index <= i
  {
    if |text| < 2 then -1
    else if text[0] == x && text[1] == y then 0
    else
      var rest := FindPair(text[1..], x, y);
      assert forall i :: PairAt(text, i, x, y) ==> PairAt(text[1..], i - 1, x, y);
      if rest < 0 then -1 else rest + 1
  }

  // Bytes that arrive later do not move the first occurrence.
  lemma FindPairStable(text: seq<Byte>, more: seq<Byte>, x: Byte, y: Byte)
    requires FindPair(text, x, y) >= 0
    ensures FindPair(text + more, x, y) == FindPair(text, x, y)
  {
    var k, k' := FindPair(text, x, y), FindPair(text + more, x, y);
    assert PairAt(text + more, k, x, y);
    assert PairAt(text + more, k', x, y) && k' <= k;
    assert PairAt(text, k', x, y);
  }
}
