/** Types shared by every part of the model. */
module Basics {
  datatype Option<+T> = None | Some(value: T)

  /** A C string's bytes, one char per byte. */
  type Text = string

  /** TOKEN_RING_SIZE and TOKEN_TEXT_MAX of the token ring. */
  const RING_SIZE: nat := 256
  const TEXT_MAX: nat := 128

  /** What the ring keeps of one token text: at most TEXT_MAX - 1 bytes. */
  function Cut(t: Text): (r: Text)
    ensures r <= t && |r| == if |t| < 127 then |t| else 127
    ensures |t| <= TEXT_MAX - 1 ==> r == t
  {
    if |t| >= TEXT_MAX then t[..TEXT_MAX - 1] else t
  }

  /** Cut applied to every token text of a sequence. */
  function CutAll(ts: seq<Text>): (r: seq<Text>)
    ensures |r| == |ts|
    ensures forall i :: 0 <= i < |ts| ==> r[i] == Cut(ts[i])
  {
    seq(|ts|, i requires 0 <= i < |ts| => Cut(ts[i]))
  }

  /** How many tokens one critical section of the drain takes out of the ring. */
  const BATCH: nat := 32

  function BatchSize(queue: seq<Text>): (k: nat)
    ensures k <= |queue| && k <= 32 && (k == |queue| || k == 32)
  {
    if |queue| < BATCH then |queue| else BATCH
  }

  /** snprintf(dst, size, "%s", t): what fits in front of the terminator. */
  function Fitted(t: Text, size: nat): (r: Text)
    requires size > 0
    ensures r <= t && |r| == if |t| < size then |t| else size - 1
    ensures |t| < size ==> r == t
  {
    if |t| < size then t else t[..size - 1]
  }

  /** The concatenation of a sequence of texts. */
  function Concat(ts: seq<Text>): Text {
    if ts == [] then "" else Concat(ts[..|ts| - 1]) + ts[|ts| - 1]
  }

  /** It appends, and leaves a single text as it is. */
  lemma ConcatOne(t: Text)
    ensures Concat([]) == "" && Concat([t]) == t
  {
    assert [t][..0] == [];
  }

  lemma {:induction false} ConcatAppend(a: seq<Text>, b: seq<Text>)
    ensures Concat(a + b) == Concat(a) + Concat(b)
  {
    if b == [] {
      assert a + b == a;
    } else {
      var n := |b| - 1;
      assert (a + b)[..|a| + n] == a + b[..n];
      ConcatAppend(a, b[..n]);
    }
  }

  lemma {:induction false} ConcatPrefix(ts: seq<Text>, k: nat)
    requires k <= |ts|
    ensures |Concat(ts[..k])| <= |Concat(ts)|
  {
    assert ts == ts[..k] + ts[k..];
    ConcatAppend(ts[..k], ts[k..]);
  }
}
