/**
 * Shared vocabulary of the model: an Option type, the JavaScript numeric
 * idioms the source relies on (`Math.round`, `Math.floor`, `x || d`,
 * hard clipping), the transcendental functions the signal math calls,
 * and sequence sums.
 */
module Common {

  datatype Option<+T> = None | Some(value: T)

  /** JavaScript `Math.floor` on a real. */
  function Floor(x: real): int
  {
    x.Floor
  }

  /** JavaScript `Math.round`: halves are rounded toward +infinity. */
  function Round(x: real): (r: int)
    ensures x - 0.5 < r as real <= x + 0.5
  {
    (x + 0.5).Floor
  }

  /** JavaScript `x || d` on a number: 0 (falsy) falls back to `d`. */
  function OrDefault(x: real, d: real): (r: real)
    ensures x != 0.0 ==> r == x
    ensures x == 0.0 ==> r == d
  {
    if x == 0.0 then d else x
  }

  /** The hard clip `if (x > 1) x = 1; else if (x < -1) x = -1;`. */
  function Clip(x: real): (r: real)
    ensures -1.0 <= r <= 1.0
    ensures -1.0 <= x <= 1.0 ==> r == x
    ensures x > 1.0 ==> r == 1.0
    ensures x < -1.0 ==> r == -1.0
  {
    if x > 1.0 then 1.0 else if x < -1.0 then -1.0 else x
  }

  function Max(a: int, b: int): int
  {
    if a < b then b else a
  }

  function Min(a: int, b: int): int
  {
    if a < b then a else b
  }

  function RealMax(a: real, b: real): real
  {
    if a < b then b else a
  }

  function RealMin(a: real, b: real): real
  {
    if a < b then a else b
  }

  /** `ceil(a / b)` for a non-negative numerator and a positive denominator. */
  function CeilDiv(a: nat, b: nat): (r: nat)
    requires b > 0
    ensures (r - 1) * b < a <= r * b
  {
    (a + b - 1) / b
  }

  /**
   * The floating-point functions the signal math calls (`Math.sin`,
   * `Math.cos`, `Math.sqrt`, `Math.log10`, `Math.PI`). Their values are
   * not modelled; every operation that needs them receives them here.
   */
  datatype Transcendentals = Transcendentals(
    sin: real -> real,
    cos: real -> real,
    sqrt: real -> real,
    log10: real -> real,
    pi: real)

  /** A run of `n` zeros (a freshly allocated `Float32Array(n)`). */
  function Zeros(n: nat): (z: seq<real>)
    ensures |z| == n && forall i :: 0 <= i < n ==> z[i] == 0.0
  {
    seq(n, _ => 0.0)
  }

  /** Sum of the first `n` elements. */
  function SumPrefix(s: seq<real>, n: nat): real
    requires n <= |s|
  {
    if n == 0 then 0.0 else SumPrefix(s, n - 1) + s[n - 1]
  }

  function Sum(s: seq<real>): real
  {
    SumPrefix(s, |s|)
  }

  /** Concatenation of a sequence of batches, in order. */
  function Flatten<T>(batches: seq<seq<T>>): seq<T>
  {
    if batches == [] then [] else batches[0] + Flatten(batches[1..])
  }

  lemma {:induction false} FlattenAppend<T>(batches: seq<seq<T>>, b: seq<T>)
    ensures Flatten(batches + [b]) == Flatten(batches) + b
  {
    if batches == [] {
      assert [] + [b] == [b];
      assert Flatten([b]) == b + Flatten([b][1..]);
    } else {
      assert (batches + [b])[1..] == batches[1..] + [b];
      FlattenAppend(batches[1..], b);
    }
  }

  /** Sequence `s` with every element passed through `f`. */
  function MapReal(s: seq<real>, f: real -> real): (r: seq<real>)
    ensures |r| == |s| && forall i :: 0 <= i < |s| ==> r[i] == f(s[i])
  {
    seq(|s|, i requires 0 <= i < |s| => f(s[i]))
  }

  /**
   * Where `splice(start, ...)` starts in a list of length `len`: a
   * non-negative start as given, a negative one counted back from the end,
   * and never before the first element nor past the end.
   */
  function SpliceStart(len: nat, start: int): (k: nat)
    ensures start >= 0 ==> k == Min(start, len)
    ensures start < 0 && start + len >= 0 ==> k == start + len
    ensures start + len < 0 ==> k == 0
  {
    if start >= 0 then Min(start, len) else Max(len + start, 0)
  }

  /**
   * `array.splice(start, 1)`: the element at the start position leaves the
   * list and the later ones move down by one; a start at or past the end
   * removes nothing.
   */
  function SpliceOne<T>(s: seq<T>, start: int): (r: seq<T>)
    ensures var k := SpliceStart(|s|, start);
      && |r| == |s| - (if k < |s| then 1 else 0)
      && (forall i :: 0 <= i < Min(k, |s|) ==> r[i] == s[i])
      && (forall i :: k <= i < |r| ==> r[i] == s[i + 1])
  {
    var k := SpliceStart(|s|, start);
    if k < |s| then s[..k] + s[k + 1..] else s
  }

  /** Equal sequences with a common prefix have equal rests. */
  lemma AppendCancel<T>(a: seq<T>, x: seq<T>, y: seq<T>)
    requires a + x == a + y
    ensures x == y
  {
    assert x == (a + x)[|a|..];
    assert y == (a + y)[|a|..];
  }

  /** Splicing one element out of a non-empty list shortens it by exactly one. */
  lemma SpliceOneLength<T>(s: seq<T>, start: int)
    requires |s| > 0 && start < |s|
    ensures |SpliceOne(s, start)| == |s| - 1
  {
  }
}
