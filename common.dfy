/** Values shared by the backend modules: bytes, optional values, the two
    recognisers, and the sequence operations the Python code performs with
    slicing (`s[-n:]`) and repeated `extend`. */
module Common {

  /** One byte of 16-bit little-endian PCM audio, as held in a `bytearray`. */
  newtype byte = b: int | 0 <= b < 256

  datatype Option<T> = None | Some(value: T)

  /** The two recognisers the backend can run: Vosk and whisper.cpp. */
  datatype Engine = Vosk | Whisper

  function Min(a: int, b: int): int { if a <= b then a else b }

  /** `a` is a suffix of `b`. */
  ghost predicate IsSuffix<T>(a: seq<T>, b: seq<T>) {
    |a| <= |b| && b[|b| - |a|..] == a
  }

  /** Python's `s[-n:]` for a positive `n`: the last `min(len(s), n)` elements. */
  function KeepLast<T>(s: seq<T>, n: nat): (r: seq<T>)
    requires n > 0
    ensures |r| == Min(|s|, n)
    ensures IsSuffix(r, s)
  {
    if |s| <= n then s else s[|s| - n..]
  }

  /** The concatenation of a sequence of chunks, in order. */
  function Flatten<T>(xs: seq<seq<T>>): seq<T> {
    if xs == [] then [] else xs[0] + Flatten(xs[1..])
  }

  lemma {:induction false} FlattenAppend<T>(xs: seq<seq<T>>, x: seq<T>)
    ensures Flatten(xs + [x]) == Flatten(xs) + x
  {
    if xs == [] {
      assert [x][1..] == [];
    } else {
      assert (xs + [x])[1..] == xs[1..] + [x];
      FlattenAppend(xs[1..], x);
    }
  }

  lemma {:induction false} SuffixTrans<T>(a: seq<T>, b: seq<T>, c: seq<T>)
    requires IsSuffix(a, b) && IsSuffix(b, c)
    ensures IsSuffix(a, c)
  {
    assert c[|c| - |a|..] == c[|c| - |b|..][|b| - |a|..];
  }

  lemma {:induction false} SuffixExtend<T>(a: seq<T>, b: seq<T>, x: seq<T>)
    requires IsSuffix(a, b)
    ensures IsSuffix(a + x, b + x)
  {
    assert (b + x)[|b + x| - |a + x|..] == b[|b| - |a|..] + x;
  }
}
