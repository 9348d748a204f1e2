/** Small facts about sequences and exact arithmetic that several components share. */
module Basics {
  newtype Byte = x: int | 0 <= x < 256

  lemma {:induction false} Assoc<T>(a: seq<T>, b: seq<T>, c: seq<T>)
    ensures (a + b) + c == a + (b + c)
  {
  }

  /** The first `count` parts, one after the other. */
  function Concat<T>(parts: seq<seq<T>>, count: nat): seq<T>
    requires count <= |parts|
  {
    if count == 0 then [] else Concat(parts, count - 1) + parts[count - 1]
  }

  /** Part `p` begins after the parts before it. */
  lemma {:induction false} ConcatAt<T>(parts: seq<seq<T>>, count: nat, p: nat, k: nat)
    requires p < count <= |parts| && k < |parts[p]|
    ensures |Concat(parts, p)| + k < |Concat(parts, count)|
    ensures Concat(parts, count)[|Concat(parts, p)| + k] == parts[p][k]
  {
    if p < count - 1 {
      ConcatAt(parts, count - 1, p, k);
    }
  }

  function Max(x: real, y: real): real { if x < y then y else x }

  function Min(x: real, y: real): real { if y < x then y else x }

  function Sum(values: seq<real>): real {
    if values == [] then 0.0 else values[0] + Sum(values[1..])
  }

  lemma {:induction false} SumAppend(xs: seq<real>, ys: seq<real>)
    ensures Sum(xs + ys) == Sum(xs) + Sum(ys)
  {
    if xs == [] {
      assert xs + ys == ys;
    } else {
      SumAppend(xs[1..], ys);
      assert (xs + ys)[1..] == xs[1..] + ys;
    }
  }

  lemma {:induction false} OneMore<T>(items: set<T>, item: T)
    ensures item !in items ==> |items + {item}| == |items| + 1
    ensures item in items ==> items + {item} == items
  {
  }

  /** The duration of audio of a positive rate; the code never divides by any other rate. */
  function MediaSeconds(sampleCount: int, sampleRateHz: int): real {
    if sampleRateHz > 0 then sampleCount as real / sampleRateHz as real else 0.0
  }

  lemma MediaSecondsMeans(sampleCount: int, sampleRateHz: int)
    requires sampleRateHz > 0
    ensures MediaSeconds(sampleCount, sampleRateHz) * sampleRateHz as real == sampleCount as real
  {
    Quotient(sampleCount as real, sampleRateHz as real);
  }

  function Seconds(nanoseconds: int): (seconds: real)
    ensures seconds * 1_000_000_000.0 == nanoseconds as real
  {
    nanoseconds as real / 1_000_000_000.0
  }

  lemma Quotient(x: real, y: real)
    requires y > 0.0
    ensures x / y * y == x
  {
  }
}
