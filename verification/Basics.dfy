/** Types shared by the whole model: bytes, 64-bit words with explicit
    wrap-around, and the failure-carrying datatypes that stand for the
    source's `Error` and `std::optional` results. */
module Basics {

  /** A value of `std::uint8_t`. */
  type Byte = x: int | 0 <= x < 256
  type Bytes = seq<Byte>

  datatype Option<+T> = None | Some(value: T)

  /** The error categories that the modelled code paths can report. */
  datatype Category =
    | InvalidRequest
    | UnsupportedPath
    | ResourceExhausted
    | BackendFailure
    | PermanentFailure
    | TransientTransport
    | IntegrityFailure
    | Cancellation
    | StaleGeneration

  datatype Result<+T> = Ok(value: T) | Err(error: Category)

  const TWO64: int := 0x1_0000_0000_0000_0000

  /** A value of `std::uint64_t`. */
  type U64 = x: int | 0 <= x < TWO64

  /** What an unsigned 64-bit operation leaves of a mathematical result. */
  function Wrap(x: int): (r: U64)
    ensures 0 <= x < TWO64 ==> r == x
    decreases if x < 0 then TWO64 - x else x
  {
    if x < 0 then Wrap(x + TWO64) else if x < TWO64 then x else Wrap(x - TWO64)
  }

  function Min(a: int, b: int): int { if a < b then a else b }

  /** A wrapped sum may be wrapped again. */
  lemma {:induction false} WrapAdd(x: nat, y: nat)
    ensures Wrap(Wrap(x) + y) == Wrap(x + y)
  {
    if x >= TWO64 { WrapAdd(x - TWO64, y); }
  }

  lemma Associate<T>(x: seq<T>, y: seq<T>, z: seq<T>)
    ensures (x + y) + z == x + (y + z)
  {
  }

  lemma SliceSlice<T>(a: seq<T>, i: nat, j: nat, s: nat, e: nat)
    requires i <= j <= |a| && s <= e <= j - i
    ensures a[i..j][s..e] == a[i + s..i + e]
  {
    assert |a[i..j][s..e]| == |a[i + s..i + e]|;
    forall k | 0 <= k < e - s ensures a[i..j][s..e][k] == a[i + s..i + e][k] {
      assert a[i..j][s..e][k] == a[i..j][s + k];
    }
  }

  lemma AppendNext<T>(before: seq<T>, data: seq<T>, i: nat)
    requires i < |data|
    ensures before + data[..i + 1] == before + data[..i] + [data[i]]
  {
  }

  function Zeros(n: nat): Bytes { seq(n, i => 0) }

  function Concat(pieces: seq<Bytes>): Bytes {
    if pieces == [] then [] else pieces[0] + Concat(pieces[1..])
  }

  lemma {:induction false} ConcatSnoc(pieces: seq<Bytes>, p: Bytes)
    ensures Concat(pieces + [p]) == Concat(pieces) + p
  {
    if pieces == [] {
      assert [p][1..] == [];
    } else {
      assert (pieces + [p])[1..] == pieces[1..] + [p];
      ConcatSnoc(pieces[1..], p);
    }
  }
}
