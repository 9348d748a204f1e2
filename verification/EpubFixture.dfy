/**
 * Low-level byte mutations of a fixture archive.
 *
 * Mutations are applied in order to a copy of the source; any invalid one refuses the whole list. Every
 * accepted list can be undone by another list of the same kinds of mutation.
 */
module EpubFixture {
  import opened Basics
  import opened Wrappers

  const MAX_SAFE_INTEGER := 9_007_199_254_740_991

  /** A script number: whole, or anything else, such as a fraction or not a number. */
  datatype Number = Whole(value: int) | NotWhole

  datatype Mutation =
    | Append(description: string, bytes: seq<Byte>)
    | Prepend(description: string, bytes: seq<Byte>)
    | Replace(description: string, offset: Number, expected: seq<Byte>, replacement: seq<Byte>)
    | Truncate(description: string, byteLength: Number)

  predicate IsSafeInteger(n: Number) {
    n.Whole? && -MAX_SAFE_INTEGER <= n.value <= MAX_SAFE_INTEGER
  }

  /** The white space and line terminators removed by trimming. */
  predicate IsTrimmed(c: char) {
    var x := c as int;
    || 0x9 <= x <= 0xD || x == 0x20 || x == 0xA0 || x == 0x1680 || 0x2000 <= x <= 0x200A
    || x == 0x2028 || x == 0x2029 || x == 0x202F || x == 0x205F || x == 0x3000 || x == 0xFEFF
  }

  predicate Described(m: Mutation) {
    exists i :: 0 <= i < |m.description| && !IsTrimmed(m.description[i])
  }

  /** Whether a mutation applies to these bytes. */
  predicate Applicable(bytes: seq<Byte>, m: Mutation) {
    && Described(m)
    && match m
       case Append(_, added) => added != []
       case Prepend(_, added) => added != []
       case Replace(_, offset, expected, replacement) =>
         && IsSafeInteger(offset) && offset.value >= 0
         && expected != [] && |expected| == |replacement|
         && offset.value <= |bytes| - |expected|
         && bytes[offset.value..offset.value + |expected|] == expected
       case Truncate(_, byteLength) =>
         IsSafeInteger(byteLength) && 0 <= byteLength.value < |bytes|
  }

  function ApplyOne(bytes: seq<Byte>, m: Mutation): seq<Byte>
    requires Applicable(bytes, m)
  {
    match m
    case Append(_, added) => bytes + added
    case Prepend(_, added) => added + bytes
    case Replace(_, offset, _, replacement) =>
      bytes[..offset.value] + replacement + bytes[offset.value + |replacement|..]
    case Truncate(_, byteLength) => bytes[..byteLength.value]
  }

  /** The result of a list of mutations, or none when one of them is refused. */
  function Apply(bytes: seq<Byte>, mutations: seq<Mutation>): Option<seq<Byte>>
    decreases |mutations|
  {
    if mutations == [] then Some(bytes)
    else if !Applicable(bytes, mutations[0]) then None
    else Apply(ApplyOne(bytes, mutations[0]), mutations[1..])
  }

  // ---------------------------------------------------------------- mutations byte by byte

  const WHITE_SPACE: set<int> := {
    0x0009, 0x000A, 0x000B, 0x000C, 0x000D, 0x0020, 0x00A0, 0x1680, 0x2000, 0x2001, 0x2002, 0x2003, 0x2004,
    0x2005, 0x2006, 0x2007, 0x2008, 0x2009, 0x200A, 0x2028, 0x2029, 0x202F, 0x205F, 0x3000, 0xFEFF}

  /** A description counts if and only if some character of it is not white space. */
  lemma DescribedWrittenOut(m: Mutation)
    ensures Described(m) <==> exists i :: 0 <= i < |m.description| && m.description[i] as int !in WHITE_SPACE
  {
    forall c: char
      ensures IsTrimmed(c) <==> c as int in WHITE_SPACE
    {
    }
  }

  /** Which mutations apply, with their limits. */
  lemma ApplicableWrittenOut(bytes: seq<Byte>, m: Mutation)
    ensures Applicable(bytes, m) <==> Described(m) && Limits(bytes, m)
  {
    if m.Replace? && m.offset.Whole? && 0 <= m.offset.value && m.offset.value + |m.expected| <= |bytes| {
      var slice := bytes[m.offset.value..m.offset.value + |m.expected|];
      assert forall k :: 0 <= k < |m.expected| ==> slice[k] == bytes[m.offset.value + k];
    }
  }

  /** What each kind of mutation demands of the bytes it is applied to. */
  ghost predicate Limits(bytes: seq<Byte>, m: Mutation) {
    match m
    case Append(_, added) => |added| > 0
    case Prepend(_, added) => |added| > 0
    case Replace(_, offset, expected, replacement) =>
      && offset.Whole? && 0 <= offset.value <= 9_007_199_254_740_991
      && |expected| == |replacement| > 0 && offset.value + |expected| <= |bytes|
      && forall k :: 0 <= k < |expected| ==> bytes[offset.value + k] == expected[k]
    case Truncate(_, byteLength) =>
      byteLength.Whole? && 0 <= byteLength.value <= 9_007_199_254_740_991 && byteLength.value < |bytes|
  }

  /** Every byte of the result, for each kind of mutation. */
  lemma ApplyOneWrittenOut(bytes: seq<Byte>, m: Mutation)
    requires Applicable(bytes, m)
    ensures var r := ApplyOne(bytes, m);
      match m
      case Append(_, added) =>
        && |r| == |bytes| + |added|
        && forall i :: 0 <= i < |r| ==> r[i] == if i < |bytes| then bytes[i] else added[i - |bytes|]
      case Prepend(_, added) =>
        && |r| == |added| + |bytes|
        && forall i :: 0 <= i < |r| ==> r[i] == if i < |added| then added[i] else bytes[i - |added|]
      case Replace(_, offset, _, replacement) =>
        && |r| == |bytes|
        && forall i :: 0 <= i < |r| ==>
             r[i] ==
               if offset.value <= i < offset.value + |replacement| then replacement[i - offset.value] else bytes[i]
      case Truncate(_, byteLength) =>
        |r| == byteLength.value && forall i :: 0 <= i < |r| ==> r[i] == bytes[i]
  {
  }

  // ---------------------------------------------------------------- the byte arrays

  method Copy(bytes: seq<Byte>) returns (output: array<Byte>)
    ensures fresh(output) && output[..] == bytes
  {
    output := new Byte[|bytes|](i requires 0 <= i < |bytes| => bytes[i]);
  }

  /** Writes `bytes` into the array from `offset` on. */
  method Set(output: array<Byte>, bytes: seq<Byte>, offset: nat)
    requires offset + |bytes| <= output.Length
    modifies output
    ensures output[..] == old(output[..offset]) + bytes + old(output[offset + |bytes|..])
  {
    forall i | 0 <= i < |bytes| {
      output[offset + i] := bytes[i];
    }
  }

  method Concatenate(left: array<Byte>, right: array<Byte>) returns (output: array<Byte>)
    ensures fresh(output) && output[..] == left[..] + right[..]
  {
    output := new Byte[left.Length + right.Length];
    Set(output, left[..], 0);
    assert output[..left.Length] == left[..];
    Set(output, right[..], left.Length);
  }

  method BytesMatch(input: array<Byte>, offset: nat, expected: seq<Byte>) returns (same: bool)
    requires offset + |expected| <= input.Length
    ensures same <==> input[offset..offset + |expected|] == expected
  {
    for index := 0 to |expected|
      invariant input[offset..offset + index] == expected[..index]
    {
      if input[offset + index] != expected[index] {
        assert input[offset..offset + |expected|][index] == input[offset + index];
        return false;
      }
    }
    same := true;
  }

  /** The bytes at the offset must be the expected ones; a changed copy is returned. */
  method ReplaceFixtureBytes(input: array<Byte>, m: Mutation) returns (output: Option<array<Byte>>)
    requires m.Replace? && Described(m)
    ensures output.Some? <==> Applicable(input[..], m)
    ensures output.Some? ==> fresh(output.value) && output.value[..] == ApplyOne(input[..], m)
  {
    if !IsSafeInteger(m.offset)
       || m.offset.value < 0
       || |m.expected| == 0
       || |m.expected| != |m.replacement|
       || m.offset.value > input.Length - |m.expected|
    {
      return None;
    }
    var offset := m.offset.value;
    var same := BytesMatch(input, offset, m.expected);
    assert input[..][offset..offset + |m.expected|] == input[offset..offset + |m.expected|];
    if !same {
      return None;
    }
    var copy := Copy(input[..]);
    Set(copy, m.replacement, offset);
    output := Some(copy);
  }

  /** Applies the mutations in order to a copy; the source array is never written. */
  method ApplyEpubFixtureMutations(source: array<Byte>, mutations: seq<Mutation>) returns (r: Option<array<Byte>>)
    ensures match Apply(source[..], mutations)
      case None => r.None?
      case Some(bytes) => r.Some? && fresh(r.value) && r.value[..] == bytes
  {
    var output := Copy(source[..]);
    assert mutations[0..] == mutations;
    for i := 0 to |mutations|
      invariant fresh(output)
      invariant Apply(source[..], mutations) == Apply(output[..], mutations[i..])
    {
      var m := mutations[i];
      assert mutations[i..][0] == m && mutations[i..][1..] == mutations[i + 1..];
      if !Described(m) {
        return None;
      }
      match m
      case Append(_, bytes) =>
        if |bytes| == 0 {
          return None;
        }
        var added := Copy(bytes);
        output := Concatenate(output, added);
      case Prepend(_, bytes) =>
        if |bytes| == 0 {
          return None;
        }
        var added := Copy(bytes);
        output := Concatenate(added, output);
      case Replace(_, _, _, _) =>
        var replaced := ReplaceFixtureBytes(output, m);
        if replaced.None? {
          return None;
        }
        output := replaced.value;
      case Truncate(_, byteLength) =>
        if !IsSafeInteger(byteLength) || byteLength.value < 0 || byteLength.value >= output.Length {
          return None;
        }
        output := Copy(output[..byteLength.value]);
    }
    assert mutations[|mutations|..] == [];
    r := Some(output);
  }

  // ---------------------------------------------------------------- composition and undo

  /** Applying a concatenated list is applying its parts in order. */
  lemma {:induction false} ApplyConcatenated(bytes: seq<Byte>, first: seq<Mutation>, second: seq<Mutation>)
    ensures Apply(bytes, first + second) ==
      var middle := Apply(bytes, first);
      if middle.None? then None else Apply(middle.value, second)
    decreases |first|
  {
    if first == [] {
      assert first + second == second;
    } else {
      assert (first + second)[0] == first[0] && (first + second)[1..] == first[1..] + second;
      if Applicable(bytes, first[0]) {
        ApplyConcatenated(ApplyOne(bytes, first[0]), first[1..], second);
      }
    }
  }

  /**
   * How to undo one mutation of `bytes`: swap a replacement, cut off what was appended, put back what
   * was cut off; a prepended prefix is undone by moving the original to the front and cutting off the rest.
   */
  function UndoOne(bytes: seq<Byte>, m: Mutation): seq<Mutation>
    requires Applicable(bytes, m)
  {
    match m
    case Append(d, _) => [Truncate(d, Whole(|bytes|))]
    case Prepend(d, added) =>
      (if bytes == [] then [] else [Replace(d, Whole(0), (added + bytes)[..|bytes|], bytes)]) +
      [Truncate(d, Whole(|bytes|))]
    case Replace(d, offset, expected, replacement) => [Replace(d, offset, replacement, expected)]
    case Truncate(d, byteLength) => [Append(d, bytes[byteLength.value..])]
  }

  /** The undo list of a whole list: the undo of each mutation, last one first. */
  function Undo(bytes: seq<Byte>, mutations: seq<Mutation>): seq<Mutation>
    requires Apply(bytes, mutations).Some?
    decreases |mutations|
  {
    if mutations == [] then []
    else Undo(ApplyOne(bytes, mutations[0]), mutations[1..]) + UndoOne(bytes, mutations[0])
  }

  lemma {:induction false} ApplySingle(bytes: seq<Byte>, m: Mutation)
    ensures Apply(bytes, [m]) == if Applicable(bytes, m) then Some(ApplyOne(bytes, m)) else None
  {
    if Applicable(bytes, m) {
      assert [m][1..] == [];
    }
  }

  lemma {:induction false} ApplyTwo(bytes: seq<Byte>, m: Mutation, n: Mutation)
    requires Applicable(bytes, m) && Applicable(ApplyOne(bytes, m), n)
    ensures Apply(bytes, [m] + [n]) == Some(ApplyOne(ApplyOne(bytes, m), n))
  {
    ApplySingle(bytes, m);
    ApplySingle(ApplyOne(bytes, m), n);
    ApplyConcatenated(bytes, [m], [n]);
  }

  lemma {:induction false} UndoOneRestores(bytes: seq<Byte>, m: Mutation)
    requires Applicable(bytes, m) && |bytes| <= MAX_SAFE_INTEGER
    ensures Apply(ApplyOne(bytes, m), UndoOne(bytes, m)) == Some(bytes)
  {
    var changed := ApplyOne(bytes, m);
    match m
    case Append(d, added) =>
      ApplySingle(changed, Truncate(d, Whole(|bytes|)));
    case Truncate(d, byteLength) =>
      assert bytes[..byteLength.value] + bytes[byteLength.value..] == bytes;
      ApplySingle(changed, Append(d, bytes[byteLength.value..]));
    case Replace(d, offset, expected, replacement) =>
      var swapped := Replace(d, offset, replacement, expected);
      assert changed[offset.value..offset.value + |replacement|] == replacement;
      assert ApplyOne(changed, swapped) == bytes;
      ApplySingle(changed, swapped);
    case Prepend(d, added) =>
      UndoPrependRestores(bytes, d, added);
  }

  lemma {:induction false} CutBack(bytes: seq<Byte>, rest: seq<Byte>, d: string, m: Mutation)
    requires m == Truncate(d, Whole(|bytes|)) && Described(m) && rest != [] && |bytes| <= MAX_SAFE_INTEGER
    ensures Applicable(bytes + rest, m) && ApplyOne(bytes + rest, m) == bytes
  {
  }

  lemma {:induction false} OverwriteFront(changed: seq<Byte>, bytes: seq<Byte>, d: string, m: Mutation)
    requires 0 < |bytes| <= |changed| && m == Replace(d, Whole(0), changed[..|bytes|], bytes) && Described(m)
    ensures Applicable(changed, m) && ApplyOne(changed, m) == bytes + changed[|bytes|..]
  {
    assert changed[0..|bytes|] == changed[..|bytes|];
  }

  lemma {:induction false} UndoPrependRestores(bytes: seq<Byte>, d: string, added: seq<Byte>)
    requires Applicable(bytes, Prepend(d, added)) && |bytes| <= MAX_SAFE_INTEGER
    ensures Apply(added + bytes, UndoOne(bytes, Prepend(d, added))) == Some(bytes)
  {
    var changed, cut := added + bytes, Truncate(d, Whole(|bytes|));
    if bytes == [] {
      assert [] + changed == changed && [] + [cut] == [cut];
      CutBack([], changed, d, cut);
      ApplySingle(changed, cut);
    } else {
      var front := Replace(d, Whole(0), changed[..|bytes|], bytes);
      OverwriteFront(changed, bytes, d, front);
      CutBack(bytes, changed[|bytes|..], d, cut);
      ApplyTwo(changed, front, cut);
    }
  }

  /** All byte lengths met while the list is applied are exact script numbers. */
  ghost predicate LengthsSafe(bytes: seq<Byte>, mutations: seq<Mutation>)
    decreases |mutations|
  {
    |bytes| <= MAX_SAFE_INTEGER &&
    (mutations != [] && Applicable(bytes, mutations[0]) ==> LengthsSafe(ApplyOne(bytes, mutations[0]), mutations[1..]))
  }

  /** Every accepted list of mutations is undone exactly by its undo list. */
  lemma {:induction false} UndoRestores(bytes: seq<Byte>, mutations: seq<Mutation>)
    requires Apply(bytes, mutations).Some? && LengthsSafe(bytes, mutations)
    ensures Apply(Apply(bytes, mutations).value, Undo(bytes, mutations)) == Some(bytes)
    decreases |mutations|
  {
    if mutations != [] {
      var changed := ApplyOne(bytes, mutations[0]);
      UndoRestores(changed, mutations[1..]);
      ApplyConcatenated(Apply(bytes, mutations).value, Undo(changed, mutations[1..]), UndoOne(bytes, mutations[0]));
      UndoOneRestores(bytes, mutations[0]);
    }
  }

  /** How the `i`-th mutation is undone: by the swapped replacement, or by a truncation to the earlier length. */
  ghost predicate UndoneInKind(bytes: seq<Byte>, mutations: seq<Mutation>, undo: seq<Mutation>, i: nat)
    requires i < |mutations| == |undo|
  {
    match mutations[i]
    case Replace(d, offset, expected, replacement) => undo[|undo| - 1 - i] == Replace(d, offset, replacement, expected)
    case Append(d, _) =>
      var before := Apply(bytes, mutations[..i]);
      before.Some? && undo[|undo| - 1 - i] == Truncate(d, Whole(|before.value|))
    case _ => false
  }

  /** Replacements and appends are undone by swapped replacements and by truncations, last one first. */
  lemma {:induction false} ReplaceAndAppendUndoneInKind(bytes: seq<Byte>, mutations: seq<Mutation>)
    requires Apply(bytes, mutations).Some?
    requires forall i :: 0 <= i < |mutations| ==> mutations[i].Replace? || mutations[i].Append?
    ensures |Undo(bytes, mutations)| == |mutations|
    ensures forall i: nat :: i < |mutations| ==> UndoneInKind(bytes, mutations, Undo(bytes, mutations), i)
    decreases |mutations|
  {
    if mutations != [] {
      var changed, rest := ApplyOne(bytes, mutations[0]), mutations[1..];
      ReplaceAndAppendUndoneInKind(changed, rest);
      forall i: nat | i < |mutations|
        ensures UndoneInKind(bytes, mutations, Undo(bytes, mutations), i)
      {
        if i == 0 {
          assert mutations[..0] == [];
        } else {
          UndoneLater(bytes, mutations, Undo(changed, rest), i - 1);
        }
      }
    }
  }

  lemma {:induction false} UndoneLater(bytes: seq<Byte>, mutations: seq<Mutation>, undo: seq<Mutation>, i: nat)
    requires mutations != [] && Applicable(bytes, mutations[0]) && |UndoOne(bytes, mutations[0])| == 1
    requires i < |mutations| - 1 == |undo|
    requires UndoneInKind(ApplyOne(bytes, mutations[0]), mutations[1..], undo, i)
    ensures UndoneInKind(bytes, mutations, undo + UndoOne(bytes, mutations[0]), i + 1)
  {
    assert mutations[..i + 1][0] == mutations[0] && mutations[..i + 1][1..] == mutations[1..][..i];
  }
}
