/** NUL-terminated text inside a character buffer. */
module CText {

  /** The characters b hold the text r at position p, ended by a NUL. */
  predicate HoldsIn(b: seq<char>, p: nat, r: string) {
    p + |r| < |b| && b[p + |r|] == '\0' && forall k :: p <= k < p + |r| ==> b[k] == r[k - p] != '\0'
  }

  predicate Holds(buf: array<char>, p: nat, r: string)
    reads buf
  {
    HoldsIn(buf[..], p, r)
  }

  /** What is scanned next is as it was, whatever was written before it. */
  lemma {:induction false} HoldsRest(b: seq<char>, b': seq<char>, p: nat, r: string, fin: nat)
    requires HoldsIn(b, p, r) && p <= fin <= p + |r| && |b'| == |b| && forall k :: fin <= k < |b| ==> b'[k] == b[k]
    ensures HoldsIn(b', fin, r[fin - p..])
  {
  }

  lemma {:induction false} HoldsStart(buf: array<char>, p: nat, r: string)
    requires Holds(buf, p, r)
    ensures buf[p] == '\0' <==> r == ""
  {
  }

  lemma {:induction false} HoldsChar(buf: array<char>, p: nat, r: string, i: nat)
    requires Holds(buf, p, r) && i <= |r|
    ensures p + |r| < buf.Length && buf[p + i] == if i < |r| then r[i] else '\0'
  {
  }

  lemma {:induction false} HoldsSlice(buf: array<char>, p: nat, r: string, i: nat, j: nat)
    requires Holds(buf, p, r) && i <= j <= |r|
    ensures p + |r| < buf.Length && buf[p + i..p + j] == r[i..j]
  {
  }
}
