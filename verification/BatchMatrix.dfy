/**
 * The frozen order of calls and its mechanics run.
 *
 * Warm-up calls come first; then every pass runs its batch sizes in the authority's order, and each
 * batch size walks the whole corpus.
 */
module BatchMatrix {
  import opened Basics
  import opened Wrappers
  import opened BatchContracts
  import opened BatchExecution

  const PILOT_CALL_LIMIT := 3

  datatype Pair = Pair(pairId: string, unitIds: seq<string>)

  /** What the authority freezes: units, pair order and batch sizes of every pass. */
  datatype Authority = Authority(units: seq<BatchUnitRequest>, pairs: seq<Pair>, passBatchOrder: seq<seq<int>>)

  /** A refused authority, or a lookup that fails: a missing pair, a short first pair, an unknown unit. */
  datatype MatrixError = InvalidAuthority | FailedLookup

  /** Units by identifier; a repeated identifier keeps its last entry. */
  function UnitTable(units: seq<BatchUnitRequest>): (table: map<string, BatchUnitRequest>)
    ensures forall id :: id in table ==> table[id].unitId == id && table[id] in units
  {
    if units == [] then map[]
    else
      var last := units[|units| - 1];
      UnitTable(units[..|units| - 1])[last.unitId := last]
  }

  /** Entry `i` is the last one of the corpus with this identifier. */
  ghost predicate LastEntry(units: seq<BatchUnitRequest>, i: int, id: string) {
    && 0 <= i < |units| && units[i].unitId == id
    && forall j :: i < j < |units| ==> units[j].unitId != id
  }

  ghost predicate Listed(units: seq<BatchUnitRequest>, id: string) {
    exists i :: 0 <= i < |units| && units[i].unitId == id
  }

  /** The table has an entry for exactly the identifiers of the corpus, and it is the last one. */
  lemma {:induction false} UnitTableKeepsLast(units: seq<BatchUnitRequest>, id: string)
    ensures id in UnitTable(units) <==> Listed(units, id)
    ensures id in UnitTable(units) ==> exists i :: LastEntry(units, i, id) && UnitTable(units)[id] == units[i]
    decreases |units|
  {
    if units != [] {
      var n := |units| - 1;
      UnitTableKeepsLast(units[..n], id);
      if units[n].unitId == id {
        assert LastEntry(units, n, id);
      } else if id in UnitTable(units[..n]) {
        var i :| LastEntry(units[..n], i, id) && UnitTable(units[..n])[id] == units[..n][i];
        assert LastEntry(units, i, id);
      }
    }
  }

  // ---------------------------------------------------------------- the planned order

  /** One planned call before it gets its index. */
  datatype Slot = Slot(phase: BatchPhase, passIndex: Option<int>, pairId: string, unitIds: seq<string>)

  function WarmupSlots(pair: Pair): seq<Slot>
    requires |pair.unitIds| >= 2
  {
    [Slot(Warmup, None, pair.pairId, [pair.unitIds[0]]),
     Slot(Warmup, None, pair.pairId, [pair.unitIds[1]]),
     Slot(Warmup, None, pair.pairId, pair.unitIds)]
  }

  function SingleSlots(pass: int, pair: Pair, count: nat): seq<Slot>
    requires count <= |pair.unitIds|
  {
    seq(count, i requires 0 <= i < count => Slot(BatchPhase.Measured, Some(pass), pair.pairId, [pair.unitIds[i]]))
  }

  function PairSlots(pass: int, size: int, pair: Pair): seq<Slot> {
    if size == 1 then SingleSlots(pass, pair, |pair.unitIds|)
    else [Slot(BatchPhase.Measured, Some(pass), pair.pairId, pair.unitIds)]
  }

  function Pieces(pass: int, size: int, pairs: seq<Pair>): seq<seq<Slot>> {
    seq(|pairs|, p requires 0 <= p < |pairs| => PairSlots(pass, size, pairs[p]))
  }

  /** One batch size of one pass: a walk over the first `count` pairs. */
  function BlockSlots(pass: int, size: int, pairs: seq<Pair>, count: nat): seq<Slot>
    requires count <= |pairs|
  {
    Concat(Pieces(pass, size, pairs), count)
  }

  function Blocks(pass: int, sizes: seq<int>, pairs: seq<Pair>): seq<seq<Slot>> {
    seq(|sizes|, b requires 0 <= b < |sizes| => BlockSlots(pass, sizes[b], pairs, |pairs|))
  }

  /** The first `count` batch sizes of one pass. */
  function PassSlots(pass: int, sizes: seq<int>, pairs: seq<Pair>, count: nat): seq<Slot>
    requires count <= |sizes|
  {
    Concat(Blocks(pass, sizes, pairs), count)
  }

  function Passes(order: seq<seq<int>>, pairs: seq<Pair>): seq<seq<Slot>> {
    seq(|order|, p requires 0 <= p < |order| => PassSlots(p + 1, order[p], pairs, |order[p]|))
  }

  /** The first `count` passes, numbered from one. */
  function MeasuredSlots(order: seq<seq<int>>, pairs: seq<Pair>, count: nat): seq<Slot>
    requires count <= |order|
  {
    Concat(Passes(order, pairs), count)
  }

  function AllSlots(authority: Authority): seq<Slot>
    requires authority.pairs != [] && |authority.pairs[0].unitIds| >= 2
  {
    WarmupSlots(authority.pairs[0]) +
    MeasuredSlots(authority.passBatchOrder, authority.pairs, |authority.passBatchOrder|)
  }

  predicate KnownUnits(table: map<string, BatchUnitRequest>, unitIds: seq<string>) {
    forall i :: 0 <= i < |unitIds| ==> unitIds[i] in table
  }

  /** Every unit of the pairs from `p` on is in the table. */
  predicate KnownFrom(table: map<string, BatchUnitRequest>, pairs: seq<Pair>, p: nat)
    requires p <= |pairs|
    decreases |pairs| - p
  {
    p == |pairs| || (KnownUnits(table, pairs[p].unitIds) && KnownFrom(table, pairs, p + 1))
  }

  /** What stops one batch size. */
  function SizeError(table: map<string, BatchUnitRequest>, size: int, pairs: seq<Pair>): Option<MatrixError> {
    if size != 1 && size != 2 then Some(InvalidAuthority)
    else if !KnownFrom(table, pairs, 0) then Some(FailedLookup)
    else None
  }

  /** What stops one pass from its batch size `s` on. */
  function PassError(
    table: map<string, BatchUnitRequest>, sizes: seq<int>, pairs: seq<Pair>, s: nat
  ): Option<MatrixError>
    requires s <= |sizes|
    decreases |sizes| - s
  {
    if s == |sizes| then None
    else
      var error := SizeError(table, sizes[s], pairs);
      if error.Some? then error else PassError(table, sizes, pairs, s + 1)
  }

  /** What stops the passes from pass `i` on. */
  function OrderError(
    table: map<string, BatchUnitRequest>, order: seq<seq<int>>, pairs: seq<Pair>, i: nat
  ): Option<MatrixError>
    requires i <= |order|
    decreases |order| - i
  {
    if i == |order| then None
    else
      var error := PassError(table, order[i], pairs, 0);
      if error.Some? then error else OrderError(table, order, pairs, i + 1)
  }

  /** The warm-up needs a first pair with two known units. */
  predicate WarmupKnown(table: map<string, BatchUnitRequest>, pairs: seq<Pair>) {
    pairs != [] && |pairs[0].unitIds| >= 2 && KnownUnits(table, pairs[0].unitIds)
  }

  /** Why an authority is refused, if it is. */
  function AuthorityError(authority: Authority): Option<MatrixError> {
    var table := UnitTable(authority.units);
    if !WarmupKnown(table, authority.pairs) then Some(FailedLookup)
    else OrderError(table, authority.passBatchOrder, authority.pairs, 0)
  }

  ghost predicate KnownPairs(table: map<string, BatchUnitRequest>, pairs: seq<Pair>) {
    forall p :: 0 <= p < |pairs| ==> KnownUnits(table, pairs[p].unitIds)
  }

  ghost predicate SizesAllowed(sizes: seq<int>) {
    forall j :: 0 <= j < |sizes| ==> sizes[j] == 1 || sizes[j] == 2
  }

  lemma {:induction false} KnownFromMeans(table: map<string, BatchUnitRequest>, pairs: seq<Pair>, p: nat)
    requires p <= |pairs|
    ensures KnownFrom(table, pairs, p) <==> KnownPairs(table, pairs[p..])
    decreases |pairs| - p
  {
    if p < |pairs| {
      KnownFromMeans(table, pairs, p + 1);
      assert pairs[p..] == [pairs[p]] + pairs[p + 1..];
    }
  }

  lemma {:induction false} PassErrorMeans(
    table: map<string, BatchUnitRequest>, sizes: seq<int>, pairs: seq<Pair>, s: nat)
    requires s <= |sizes|
    ensures PassError(table, sizes, pairs, s) == None <==>
      SizesAllowed(sizes[s..]) && (s < |sizes| ==> KnownPairs(table, pairs))
    decreases |sizes| - s
  {
    if s < |sizes| {
      PassErrorMeans(table, sizes, pairs, s + 1);
      KnownFromMeans(table, pairs, 0);
      assert pairs[0..] == pairs;
      assert sizes[s..] == [sizes[s]] + sizes[s + 1..];
    }
  }

  lemma {:induction false} OrderErrorMeans(
    table: map<string, BatchUnitRequest>, order: seq<seq<int>>, pairs: seq<Pair>, i: nat)
    requires i <= |order|
    ensures OrderError(table, order, pairs, i) == None <==>
      forall j :: i <= j < |order| ==> SizesAllowed(order[j]) && (order[j] != [] ==> KnownPairs(table, pairs))
    decreases |order| - i
  {
    if i < |order| {
      OrderErrorMeans(table, order, pairs, i + 1);
      PassErrorMeans(table, order[i], pairs, 0);
      assert order[i][0..] == order[i];
    }
  }

  ghost predicate ListedUnits(units: seq<BatchUnitRequest>, unitIds: seq<string>) {
    forall i :: 0 <= i < |unitIds| ==> Listed(units, unitIds[i])
  }

  ghost predicate ListedPairs(units: seq<BatchUnitRequest>, pairs: seq<Pair>) {
    forall p :: 0 <= p < |pairs| ==> ListedUnits(units, pairs[p].unitIds)
  }

  lemma {:induction false} KnownIffListed(units: seq<BatchUnitRequest>, unitIds: seq<string>)
    ensures KnownUnits(UnitTable(units), unitIds) <==> ListedUnits(units, unitIds)
  {
    forall i | 0 <= i < |unitIds|
      ensures unitIds[i] in UnitTable(units) <==> Listed(units, unitIds[i])
    {
      UnitTableKeepsLast(units, unitIds[i]);
    }
  }

  lemma {:induction false} KnownPairsIffListed(units: seq<BatchUnitRequest>, pairs: seq<Pair>)
    ensures KnownPairs(UnitTable(units), pairs) <==> ListedPairs(units, pairs)
  {
    forall p | 0 <= p < |pairs|
      ensures KnownUnits(UnitTable(units), pairs[p].unitIds) <==> ListedUnits(units, pairs[p].unitIds)
    {
      KnownIffListed(units, pairs[p].unitIds);
    }
  }

  /**
   * An authority is accepted exactly when the first pair has two units, all of them listed in the corpus,
   * every batch size is one or two, and the other pairs are listed too if any pass walks them.
   */
  lemma {:induction false} AcceptedAuthority(authority: Authority)
    ensures var units, order := authority.units, authority.passBatchOrder;
      AuthorityError(authority) == None <==>
      && authority.pairs != [] && |authority.pairs[0].unitIds| >= 2
      && ListedUnits(units, authority.pairs[0].unitIds)
      && forall j :: 0 <= j < |order| ==>
           SizesAllowed(order[j]) && (order[j] != [] ==> ListedPairs(units, authority.pairs))
  {
    OrderErrorMeans(UnitTable(authority.units), authority.passBatchOrder, authority.pairs, 0);
    KnownPairsIffListed(authority.units, authority.pairs);
    if authority.pairs != [] {
      KnownIffListed(authority.units, authority.pairs[0].unitIds);
    }
  }

  /** The unit an identifier stands for; the lookup is only made for identifiers in the table. */
  function UnitAt(table: map<string, BatchUnitRequest>, id: string): BatchUnitRequest {
    if id in table then table[id] else BatchUnitRequest(id, 0, "")
  }

  function Units(table: map<string, BatchUnitRequest>, unitIds: seq<string>): seq<BatchUnitRequest> {
    seq(|unitIds|, i requires 0 <= i < |unitIds| => UnitAt(table, unitIds[i]))
  }

  function RequestAt(
    table: map<string, BatchUnitRequest>, identity: BatchWorkIdentity, slot: Slot, index: nat
  ): BatchGenerationRequest {
    BatchGenerationRequest(index, slot.phase, slot.passIndex, slot.pairId, 1, identity, Units(table, slot.unitIds))
  }

  function Requests(
    table: map<string, BatchUnitRequest>, identity: BatchWorkIdentity, slots: seq<Slot>
  ): seq<BatchGenerationRequest> {
    seq(|slots|, i requires 0 <= i < |slots| => RequestAt(table, identity, slots[i], i))
  }

  /** `requests` are the planned slots, each numbered by its position. */
  ghost predicate Built(
    table: map<string, BatchUnitRequest>, identity: BatchWorkIdentity, slots: seq<Slot>,
    requests: seq<BatchGenerationRequest>
  ) {
    if slots == [] then requests == []
    else
      && |requests| == |slots|
      && requests[|slots| - 1] == RequestAt(table, identity, slots[|slots| - 1], |slots| - 1)
      && Built(table, identity, slots[..|slots| - 1], requests[..|slots| - 1])
  }

  lemma {:induction false} BuiltAreRequests(
    table: map<string, BatchUnitRequest>, identity: BatchWorkIdentity, slots: seq<Slot>,
    requests: seq<BatchGenerationRequest>)
    requires Built(table, identity, slots, requests)
    ensures requests == Requests(table, identity, slots)
  {
    if slots != [] {
      BuiltAreRequests(table, identity, slots[..|slots| - 1], requests[..|slots| - 1]);
      assert Requests(table, identity, slots[..|slots| - 1]) == Requests(table, identity, slots)[..|slots| - 1];
      assert requests == requests[..|slots| - 1] + [requests[|slots| - 1]];
      assert Requests(table, identity, slots) ==
        Requests(table, identity, slots)[..|slots| - 1] + [Requests(table, identity, slots)[|slots| - 1]];
    }
  }

  /** The request list and the nested function that appends to it. */
  class RequestList {
    const table: map<string, BatchUnitRequest>
    const identity: BatchWorkIdentity
    var requests: seq<BatchGenerationRequest>
    ghost var slots: seq<Slot>

    ghost predicate Valid()
      reads this
    {
      Built(table, identity, slots, requests)
    }

    constructor (table: map<string, BatchUnitRequest>, identity: BatchWorkIdentity)
      ensures Valid() && slots == [] && this.table == table && this.identity == identity
    {
      this.table, this.identity := table, identity;
      requests, slots := [], [];
    }

    method Add(phase: BatchPhase, passIndex: Option<int>, pairId: string, unitIds: seq<string>) returns (ok: bool)
      requires Valid()
      modifies this
      ensures Valid()
      ensures ok == KnownUnits(table, unitIds)
      ensures slots == old(slots) + if ok then [Slot(phase, passIndex, pairId, unitIds)] else []
    {
      ok := KnownUnits(table, unitIds);
      if ok {
        ghost var slot := Slot(phase, passIndex, pairId, unitIds);
        var request := BatchGenerationRequest(|requests|, phase, passIndex, pairId, 1, identity, Units(table, unitIds));
        assert (slots + [slot])[..|slots|] == slots && (requests + [request])[..|requests|] == requests;
        requests := requests + [request];
        slots := slots + [slot];
      }
    }

    /** One call for each unit of the pair, alone. */
    method AddSingles(pass: int, pair: Pair) returns (ok: bool)
      requires Valid()
      modifies this
      ensures Valid()
      ensures ok == KnownUnits(table, pair.unitIds)
      ensures ok ==> slots == old(slots) + SingleSlots(pass, pair, |pair.unitIds|)
    {
      for u := 0 to |pair.unitIds|
        invariant Valid() && KnownUnits(table, pair.unitIds[..u])
        invariant slots == old(slots) + SingleSlots(pass, pair, u)
      {
        ok := Add(BatchPhase.Measured, Some(pass), pair.pairId, [pair.unitIds[u]]);
        assert ok == ([pair.unitIds[u]][0] in table);
        if !ok {
          return;
        }
      }
      ok := true;
    }

    /** The three warm-up calls on the first pair. */
    method AddWarmup(first: Pair) returns (ok: bool)
      requires Valid() && slots == []
      modifies this
      ensures Valid()
      ensures ok == (|first.unitIds| >= 2 && KnownUnits(table, first.unitIds))
      ensures ok ==> slots == WarmupSlots(first)
    {
      if first.unitIds == [] {
        return false;
      }
      ok := Add(Warmup, None, first.pairId, [first.unitIds[0]]);
      assert ok == ([first.unitIds[0]][0] in table);
      if !ok || |first.unitIds| < 2 {
        return false;
      }
      ok := Add(Warmup, None, first.pairId, [first.unitIds[1]]);
      assert ok == ([first.unitIds[1]][0] in table);
      if !ok {
        return;
      }
      ok := Add(Warmup, None, first.pairId, first.unitIds);
    }

    /** One pair, unit by unit or as a batch. */
    method AddPair(pass: int, size: int, pair: Pair) returns (ok: bool)
      requires Valid() && (size == 1 || size == 2)
      modifies this
      ensures Valid()
      ensures ok == KnownUnits(table, pair.unitIds)
      ensures ok ==> slots == old(slots) + PairSlots(pass, size, pair)
    {
      if size == 1 {
        ok := AddSingles(pass, pair);
      } else {
        ok := Add(BatchPhase.Measured, Some(pass), pair.pairId, pair.unitIds);
      }
    }

    /** One batch size walks the corpus. */
    method AddBlock(pass: int, size: int, pairs: seq<Pair>) returns (ok: bool)
      requires Valid() && (size == 1 || size == 2)
      modifies this
      ensures Valid()
      ensures ok == KnownFrom(table, pairs, 0)
      ensures ok ==> slots == old(slots) + BlockSlots(pass, size, pairs, |pairs|)
    {
      ghost var before, pieces := slots, Pieces(pass, size, pairs);
      for p := 0 to |pairs|
        invariant Valid() && KnownFrom(table, pairs, 0) == KnownFrom(table, pairs, p)
        invariant slots == before + Concat(pieces, p)
      {
        ok := AddPair(pass, size, pairs[p]);
        if !ok {
          return;
        }
        Assoc(before, Concat(pieces, p), pieces[p]);
      }
      ok := true;
    }

    /** One batch size, if it is one or two. */
    method AddSize(pass: int, size: int, pairs: seq<Pair>) returns (error: Option<MatrixError>)
      requires Valid()
      modifies this
      ensures Valid()
      ensures error == SizeError(table, size, pairs)
      ensures error == None ==> slots == old(slots) + BlockSlots(pass, size, pairs, |pairs|)
    {
      if size != 1 && size != 2 {
        return Some(InvalidAuthority);
      }
      var ok := AddBlock(pass, size, pairs);
      error := if ok then None else Some(FailedLookup);
    }

    /** All batch sizes of one pass. */
    method AddPass(pass: int, sizes: seq<int>, pairs: seq<Pair>) returns (error: Option<MatrixError>)
      requires Valid()
      modifies this
      ensures Valid()
      ensures error == PassError(table, sizes, pairs, 0)
      ensures error == None ==> slots == old(slots) + PassSlots(pass, sizes, pairs, |sizes|)
    {
      ghost var before, blocks := slots, Blocks(pass, sizes, pairs);
      for s := 0 to |sizes|
        invariant Valid() && PassError(table, sizes, pairs, 0) == PassError(table, sizes, pairs, s)
        invariant slots == before + Concat(blocks, s)
      {
        ghost var block := BlockSlots(pass, sizes[s], pairs, |pairs|);
        assert blocks[s] == block;
        error := AddSize(pass, sizes[s], pairs);
        if error.Some? {
          return;
        }
        assert slots == (before + Concat(blocks, s)) + block;
        Assoc(before, Concat(blocks, s), block);
      }
      error := None;
    }

    /** All passes, numbered from one. */
    method AddPasses(order: seq<seq<int>>, pairs: seq<Pair>) returns (error: Option<MatrixError>)
      requires Valid()
      modifies this
      ensures Valid()
      ensures error == OrderError(table, order, pairs, 0)
      ensures error == None ==> slots == old(slots) + MeasuredSlots(order, pairs, |order|)
    {
      ghost var before, passes := slots, Passes(order, pairs);
      for i := 0 to |order|
        invariant Valid() && OrderError(table, order, pairs, 0) == OrderError(table, order, pairs, i)
        invariant slots == before + Concat(passes, i)
      {
        ghost var pass := PassSlots(i + 1, order[i], pairs, |order[i]|);
        assert passes[i] == pass;
        error := AddPass(i + 1, order[i], pairs);
        if error.Some? {
          return;
        }
        assert slots == (before + Concat(passes, i)) + pass;
        Assoc(before, Concat(passes, i), pass);
      }
      error := None;
    }
  }

  method FrozenRequests(authority: Authority, identity: BatchWorkIdentity)
    returns (r: Result<seq<BatchGenerationRequest>, MatrixError>)
    ensures AuthorityError(authority) == if r.Success? then None else Some(r.error)
    ensures r.Success? ==>
      && authority.pairs != [] && |authority.pairs[0].unitIds| >= 2
      && r.value == Requests(UnitTable(authority.units), identity, AllSlots(authority))
  {
    var table := UnitTable(authority.units);
    if authority.pairs == [] {
      return Failure(FailedLookup);
    }
    var list := new RequestList(table, identity);
    var ok := list.AddWarmup(authority.pairs[0]);
    if !ok {
      return Failure(FailedLookup);
    }
    var error := list.AddPasses(authority.passBatchOrder, authority.pairs);
    if error.Some? {
      return Failure(error.value);
    }
    BuiltAreRequests(table, identity, list.slots, list.requests);
    r := Success(list.requests);
  }

  // ---------------------------------------------------------------- what the order covers

  /** The unit identifiers of the planned calls from `i` on, in the order they are generated. */
  function FlattenFrom(slots: seq<Slot>, i: nat): seq<string>
    requires i <= |slots|
    decreases |slots| - i
  {
    if i == |slots| then [] else slots[i].unitIds + FlattenFrom(slots, i + 1)
  }

  function FlattenIds(slots: seq<Slot>): seq<string> {
    FlattenFrom(slots, 0)
  }

  /** The unit identifiers of the first `count` pairs, in corpus order. */
  function CorpusOrder(pairs: seq<Pair>, count: nat): seq<string>
    requires count <= |pairs|
  {
    if count == 0 then [] else CorpusOrder(pairs, count - 1) + pairs[count - 1].unitIds
  }

  function Repeat(ids: seq<string>, times: nat): seq<string> {
    if times == 0 then [] else Repeat(ids, times - 1) + ids
  }

  /** The number of batch sizes in the first `count` passes. */
  function BlockCount(order: seq<seq<int>>, count: nat): nat
    requires count <= |order|
  {
    if count == 0 then 0 else BlockCount(order, count - 1) + |order[count - 1]|
  }

  lemma {:induction false} FlattenBack(xs: seq<Slot>, ys: seq<Slot>, i: nat)
    requires i <= |ys|
    ensures FlattenFrom(xs + ys, |xs| + i) == FlattenFrom(ys, i)
    decreases |ys| - i
  {
    if i < |ys| {
      FlattenBack(xs, ys, i + 1);
      assert (xs + ys)[|xs| + i] == ys[i];
    }
  }

  lemma {:induction false} FlattenAppend(xs: seq<Slot>, ys: seq<Slot>, i: nat)
    requires i <= |xs|
    ensures FlattenFrom(xs + ys, i) == FlattenFrom(xs, i) + FlattenFrom(ys, 0)
    decreases |xs| - i
  {
    if i == |xs| {
      FlattenBack(xs, ys, 0);
    } else {
      FlattenAppend(xs, ys, i + 1);
      assert (xs + ys)[i] == xs[i];
      Assoc(xs[i].unitIds, FlattenFrom(xs, i + 1), FlattenFrom(ys, 0));
    }
  }

  lemma {:induction false} FlattenJoin(
    whole: seq<Slot>, front: seq<Slot>, back: seq<Slot>, a: seq<string>, b: seq<string>)
    requires whole == front + back && FlattenIds(front) == a && FlattenIds(back) == b
    ensures FlattenIds(whole) == a + b
  {
    FlattenAppend(front, back, 0);
  }

  lemma {:induction false} FlattenOne(slot: Slot)
    ensures FlattenIds([slot]) == slot.unitIds
  {
    assert slot.unitIds + FlattenFrom([slot], 1) == slot.unitIds;
  }

  lemma {:induction false} SinglesCoverPair(pass: int, pair: Pair, count: nat)
    requires count <= |pair.unitIds|
    ensures FlattenIds(SingleSlots(pass, pair, count)) == pair.unitIds[..count]
  {
    if count > 0 {
      SinglesCoverPair(pass, pair, count - 1);
      var last := Slot(BatchPhase.Measured, Some(pass), pair.pairId, [pair.unitIds[count - 1]]);
      assert SingleSlots(pass, pair, count) == SingleSlots(pass, pair, count - 1) + [last];
      FlattenOne(last);
      FlattenJoin(SingleSlots(pass, pair, count), SingleSlots(pass, pair, count - 1), [last],
                  pair.unitIds[..count - 1], [pair.unitIds[count - 1]]);
    }
  }

  lemma {:induction false} PairCovered(pass: int, size: int, pair: Pair)
    ensures FlattenIds(PairSlots(pass, size, pair)) == pair.unitIds
  {
    if size == 1 {
      SinglesCoverPair(pass, pair, |pair.unitIds|);
      assert pair.unitIds[..|pair.unitIds|] == pair.unitIds;
    } else {
      FlattenOne(PairSlots(pass, size, pair)[0]);
    }
  }

  /**
   * Either batch size walks every unit of every pair exactly once and in corpus order, so the blocks of
   * batch size one and two generate the same sequence of units.
   */
  lemma {:induction false} BlockCoversCorpus(pass: int, size: int, pairs: seq<Pair>, count: nat)
    requires count <= |pairs|
    ensures FlattenIds(BlockSlots(pass, size, pairs, count)) == CorpusOrder(pairs, count)
  {
    if count > 0 {
      var pair := pairs[count - 1];
      BlockCoversCorpus(pass, size, pairs, count - 1);
      PairCovered(pass, size, pair);
      FlattenJoin(BlockSlots(pass, size, pairs, count),
                  BlockSlots(pass, size, pairs, count - 1), PairSlots(pass, size, pair),
                  CorpusOrder(pairs, count - 1), pair.unitIds);
    }
  }

  lemma {:induction false} RepeatSplit(ids: seq<string>, m: nat, n: nat)
    ensures Repeat(ids, m) + Repeat(ids, n) == Repeat(ids, m + n)
  {
    if n > 0 {
      RepeatSplit(ids, m, n - 1);
      assert Repeat(ids, m) + (Repeat(ids, n - 1) + ids) == (Repeat(ids, m) + Repeat(ids, n - 1)) + ids;
    }
  }

  lemma {:induction false} RepeatJoin(
    whole: seq<Slot>, front: seq<Slot>, back: seq<Slot>, ids: seq<string>, m: nat, n: nat)
    requires whole == front + back && FlattenIds(front) == Repeat(ids, m) && FlattenIds(back) == Repeat(ids, n)
    ensures FlattenIds(whole) == Repeat(ids, m + n)
  {
    FlattenJoin(whole, front, back, Repeat(ids, m), Repeat(ids, n));
    RepeatSplit(ids, m, n);
  }

  lemma {:induction false} PassStep(
    pass: int, sizes: seq<int>, pairs: seq<Pair>, count: nat, front: seq<Slot>, block: seq<Slot>)
    requires 0 < count <= |sizes|
    requires front == PassSlots(pass, sizes, pairs, count - 1)
    requires block == BlockSlots(pass, sizes[count - 1], pairs, |pairs|)
    ensures PassSlots(pass, sizes, pairs, count) == front + block
  {
  }

  lemma {:induction false} PassJoin(
    pass: int, sizes: seq<int>, pairs: seq<Pair>, count: nat, front: seq<Slot>, block: seq<Slot>, corpus: seq<string>)
    requires 0 < count <= |sizes|
    requires front == PassSlots(pass, sizes, pairs, count - 1)
    requires block == BlockSlots(pass, sizes[count - 1], pairs, |pairs|)
    requires FlattenIds(front) == Repeat(corpus, count - 1) && FlattenIds(block) == corpus
    ensures FlattenIds(PassSlots(pass, sizes, pairs, count)) == Repeat(corpus, count)
  {
    PassStep(pass, sizes, pairs, count, front, block);
    FlattenJoin(PassSlots(pass, sizes, pairs, count), front, block, Repeat(corpus, count - 1), corpus);
  }

  lemma {:induction false} PassCoversCorpus(
    pass: int, sizes: seq<int>, pairs: seq<Pair>, count: nat, corpus: seq<string>)
    requires count <= |sizes| && corpus == CorpusOrder(pairs, |pairs|)
    ensures FlattenIds(PassSlots(pass, sizes, pairs, count)) == Repeat(corpus, count)
  {
    if count > 0 {
      PassCoversCorpus(pass, sizes, pairs, count - 1, corpus);
      BlockCoversCorpus(pass, sizes[count - 1], pairs, |pairs|);
      PassJoin(pass, sizes, pairs, count, PassSlots(pass, sizes, pairs, count - 1),
               BlockSlots(pass, sizes[count - 1], pairs, |pairs|), corpus);
    }
  }

  lemma {:induction false} MeasuredStep(
    order: seq<seq<int>>, pairs: seq<Pair>, count: nat, front: seq<Slot>, back: seq<Slot>)
    requires 0 < count <= |order|
    requires front == MeasuredSlots(order, pairs, count - 1)
    requires back == PassSlots(count, order[count - 1], pairs, |order[count - 1]|)
    ensures MeasuredSlots(order, pairs, count) == front + back
    ensures BlockCount(order, count) == BlockCount(order, count - 1) + |order[count - 1]|
  {
  }

  lemma {:induction false} MeasuredJoin(
    order: seq<seq<int>>, pairs: seq<Pair>, count: nat, front: seq<Slot>, back: seq<Slot>, corpus: seq<string>)
    requires 0 < count <= |order|
    requires front == MeasuredSlots(order, pairs, count - 1)
    requires back == PassSlots(count, order[count - 1], pairs, |order[count - 1]|)
    requires FlattenIds(front) == Repeat(corpus, BlockCount(order, count - 1))
    requires FlattenIds(back) == Repeat(corpus, |order[count - 1]|)
    ensures FlattenIds(MeasuredSlots(order, pairs, count)) == Repeat(corpus, BlockCount(order, count))
  {
    MeasuredStep(order, pairs, count, front, back);
    RepeatJoin(MeasuredSlots(order, pairs, count), front, back, corpus,
               BlockCount(order, count - 1), |order[count - 1]|);
  }

  /** The measured calls generate the whole corpus once for every batch size of every pass. */
  lemma {:induction false} MeasuredCoversCorpus(order: seq<seq<int>>, pairs: seq<Pair>, count: nat, corpus: seq<string>)
    requires count <= |order| && corpus == CorpusOrder(pairs, |pairs|)
    ensures FlattenIds(MeasuredSlots(order, pairs, count)) == Repeat(corpus, BlockCount(order, count))
  {
    if count > 0 {
      var sizes := order[count - 1];
      MeasuredCoversCorpus(order, pairs, count - 1, corpus);
      PassCoversCorpus(count, sizes, pairs, |sizes|, corpus);
      MeasuredJoin(order, pairs, count, MeasuredSlots(order, pairs, count - 1), PassSlots(count, sizes, pairs, |sizes|),
                   corpus);
    }
  }

  // ---------------------------------------------------------------- each request by its position

  /** The pair of each unit of the first `count` pairs, in corpus order. */
  function PairOfUnit(pairs: seq<Pair>, count: nat): seq<string>
    requires count <= |pairs|
  {
    if count == 0 then []
    else
      PairOfUnit(pairs, count - 1) +
      seq(|pairs[count - 1].unitIds|, i requires 0 <= i < |pairs[count - 1].unitIds| => pairs[count - 1].pairId)
  }

  /** Batch size one makes one call for each unit of the corpus. */
  lemma {:induction false} SingleBlock(pass: int, pairs: seq<Pair>, count: nat)
    requires count <= |pairs|
    ensures |BlockSlots(pass, 1, pairs, count)| == |CorpusOrder(pairs, count)| == |PairOfUnit(pairs, count)|
    ensures forall k :: 0 <= k < |CorpusOrder(pairs, count)| ==>
      BlockSlots(pass, 1, pairs, count)[k] ==
        Slot(BatchPhase.Measured, Some(pass), PairOfUnit(pairs, count)[k], [CorpusOrder(pairs, count)[k]])
  {
    if count > 0 {
      SingleBlock(pass, pairs, count - 1);
    }
  }

  /** Any other batch size makes one call for each pair. */
  lemma {:induction false} PairBlock(pass: int, size: int, pairs: seq<Pair>, count: nat)
    requires count <= |pairs| && size != 1
    ensures |BlockSlots(pass, size, pairs, count)| == count
    ensures forall p :: 0 <= p < count ==>
      BlockSlots(pass, size, pairs, count)[p] ==
        Slot(BatchPhase.Measured, Some(pass), pairs[p].pairId, pairs[p].unitIds)
  {
    if count > 0 {
      PairBlock(pass, size, pairs, count - 1);
    }
  }

  /** The number of calls of one batch size: the units of the corpus, or its pairs. */
  function BlockLength(size: int, pairs: seq<Pair>): nat {
    if size == 1 then |CorpusOrder(pairs, |pairs|)| else |pairs|
  }

  function PassLength(sizes: seq<int>, pairs: seq<Pair>, count: nat): nat
    requires count <= |sizes|
  {
    if count == 0 then 0 else PassLength(sizes, pairs, count - 1) + BlockLength(sizes[count - 1], pairs)
  }

  function MeasuredLength(order: seq<seq<int>>, pairs: seq<Pair>, count: nat): nat
    requires count <= |order|
  {
    if count == 0 then 0
    else MeasuredLength(order, pairs, count - 1) + PassLength(order[count - 1], pairs, |order[count - 1]|)
  }

  lemma {:induction false} BlockHasLength(pass: int, size: int, pairs: seq<Pair>)
    ensures |BlockSlots(pass, size, pairs, |pairs|)| == BlockLength(size, pairs)
  {
    if size == 1 {
      SingleBlock(pass, pairs, |pairs|);
    } else {
      PairBlock(pass, size, pairs, |pairs|);
    }
  }

  lemma {:induction false} PassHasLength(pass: int, sizes: seq<int>, pairs: seq<Pair>, count: nat)
    requires count <= |sizes|
    ensures |PassSlots(pass, sizes, pairs, count)| == PassLength(sizes, pairs, count)
  {
    if count > 0 {
      PassHasLength(pass, sizes, pairs, count - 1);
      BlockHasLength(pass, sizes[count - 1], pairs);
    }
  }

  lemma {:induction false} MeasuredHasLength(order: seq<seq<int>>, pairs: seq<Pair>, count: nat)
    requires count <= |order|
    ensures |MeasuredSlots(order, pairs, count)| == MeasuredLength(order, pairs, count)
  {
    if count > 0 {
      MeasuredHasLength(order, pairs, count - 1);
      PassHasLength(count, order[count - 1], pairs, |order[count - 1]|);
    }
  }

  /** Block `b` of a pass begins after the blocks before it. */
  lemma {:induction false} PassAt(pass: int, sizes: seq<int>, pairs: seq<Pair>, b: nat, k: nat)
    requires b < |sizes| && k < |Blocks(pass, sizes, pairs)[b]|
    ensures PassLength(sizes, pairs, b) + k < |PassSlots(pass, sizes, pairs, |sizes|)|
    ensures PassSlots(pass, sizes, pairs, |sizes|)[PassLength(sizes, pairs, b) + k] == Blocks(pass, sizes, pairs)[b][k]
  {
    var blocks := Blocks(pass, sizes, pairs);
    PassHasLength(pass, sizes, pairs, b);
    ConcatAt(blocks, |sizes|, b, k);
  }

  /** Pass `p` begins after the passes before it. */
  lemma {:induction false} MeasuredAt(order: seq<seq<int>>, pairs: seq<Pair>, p: nat, k: nat)
    requires p < |order| && k < |Passes(order, pairs)[p]|
    ensures MeasuredLength(order, pairs, p) + k < |MeasuredSlots(order, pairs, |order|)|
    ensures MeasuredSlots(order, pairs, |order|)[MeasuredLength(order, pairs, p) + k] == Passes(order, pairs)[p][k]
  {
    var passes := Passes(order, pairs);
    MeasuredHasLength(order, pairs, p);
    ConcatAt(passes, |order|, p, k);
  }

  /** Where call `k` of block `b` of pass `p` stands in the whole order, after the three warm-up calls. */
  function PositionOf(authority: Authority, p: nat, b: nat, k: nat): nat
    requires p < |authority.passBatchOrder| && b < |authority.passBatchOrder[p]|
  {
    var order, pairs := authority.passBatchOrder, authority.pairs;
    3 + (MeasuredLength(order, pairs, p) + (PassLength(order[p], pairs, b) + k))
  }

  lemma {:induction false} SlotAt(authority: Authority, p: nat, b: nat, k: nat)
    requires authority.pairs != [] && |authority.pairs[0].unitIds| >= 2
    requires p < |authority.passBatchOrder| && b < |authority.passBatchOrder[p]|
    requires k < BlockLength(authority.passBatchOrder[p][b], authority.pairs)
    ensures PositionOf(authority, p, b, k) < |AllSlots(authority)|
    ensures k < |BlockSlots(p + 1, authority.passBatchOrder[p][b], authority.pairs, |authority.pairs|)|
    ensures AllSlots(authority)[PositionOf(authority, p, b, k)] ==
      BlockSlots(p + 1, authority.passBatchOrder[p][b], authority.pairs, |authority.pairs|)[k]
  {
    var order, pairs := authority.passBatchOrder, authority.pairs;
    BlockHasLength(p + 1, order[p][b], pairs);
    PassAt(p + 1, order[p], pairs, b, k);
    MeasuredAt(order, pairs, p, PassLength(order[p], pairs, b) + k);
  }

  /** The units are the last corpus entries of these identifiers, text and sequence included. */
  ghost predicate FromCorpus(units: seq<BatchUnitRequest>, corpus: seq<BatchUnitRequest>, unitIds: seq<string>) {
    && |units| == |unitIds|
    && forall u :: 0 <= u < |units| ==> units[u].unitId == unitIds[u] && LastOf(corpus, units[u])
  }

  ghost predicate LastOf(corpus: seq<BatchUnitRequest>, unit: BatchUnitRequest) {
    exists i :: LastEntry(corpus, i, unit.unitId) && corpus[i] == unit
  }

  lemma {:induction false} KnownUnitsFromCorpus(corpus: seq<BatchUnitRequest>, unitIds: seq<string>)
    requires KnownUnits(UnitTable(corpus), unitIds)
    ensures FromCorpus(Units(UnitTable(corpus), unitIds), corpus, unitIds)
  {
    forall u | 0 <= u < |unitIds|
      ensures UnitAt(UnitTable(corpus), unitIds[u]).unitId == unitIds[u]
      ensures LastOf(corpus, UnitAt(UnitTable(corpus), unitIds[u]))
    {
      UnitTableKeepsLast(corpus, unitIds[u]);
    }
  }

  /** What a planned call carries. */
  ghost predicate Carries(
    request: BatchGenerationRequest, index: nat, phase: BatchPhase, passIndex: Option<int>, pairId: string,
    identity: BatchWorkIdentity, corpus: seq<BatchUnitRequest>, unitIds: seq<string>)
  {
    && request.callIndex == index && request.attempt == 1 && request.identity == identity
    && request.phase == phase && request.passIndex == passIndex && request.pairId == pairId
    && FromCorpus(request.units, corpus, unitIds)
  }

  lemma {:induction false} PairsKnown(authority: Authority, p: nat)
    requires AuthorityError(authority) == None
    requires p < |authority.passBatchOrder| && authority.passBatchOrder[p] != []
    ensures KnownPairs(UnitTable(authority.units), authority.pairs)
    ensures SizesAllowed(authority.passBatchOrder[p])
  {
    AcceptedAuthority(authority);
    KnownPairsIffListed(authority.units, authority.pairs);
  }

  lemma {:induction false} CorpusKnown(table: map<string, BatchUnitRequest>, pairs: seq<Pair>, count: nat)
    requires count <= |pairs| && KnownPairs(table, pairs)
    ensures KnownUnits(table, CorpusOrder(pairs, count))
  {
    if count > 0 {
      CorpusKnown(table, pairs, count - 1);
      assert KnownUnits(table, pairs[count - 1].unitIds);
    }
  }

  /**
   * Call `k` of a block with batch size one is one unit, the `k`-th of the corpus; call `k` of a block with
   * batch size two is the `k`-th pair. It stands at its position in the order, in its pass counted from one.
   */
  lemma {:induction false} MeasuredRequestAt(
    authority: Authority, identity: BatchWorkIdentity, p: nat, b: nat, k: nat)
    requires AuthorityError(authority) == None
    requires p < |authority.passBatchOrder| && b < |authority.passBatchOrder[p]|
    requires k < BlockLength(authority.passBatchOrder[p][b], authority.pairs)
    ensures var requests := Requests(UnitTable(authority.units), identity, AllSlots(authority));
      var size, pairs, index := authority.passBatchOrder[p][b], authority.pairs, PositionOf(authority, p, b, k);
      && index < |requests| && (size == 1 || size == 2)
      && (size == 1 ==>
            k < |CorpusOrder(pairs, |pairs|)| == |PairOfUnit(pairs, |pairs|)| &&
            Carries(requests[index], index, BatchPhase.Measured, Some(p + 1), PairOfUnit(pairs, |pairs|)[k],
              identity, authority.units, [CorpusOrder(pairs, |pairs|)[k]]))
      && (size == 2 ==>
            Carries(requests[index], index, BatchPhase.Measured, Some(p + 1), pairs[k].pairId,
              identity, authority.units, pairs[k].unitIds))
  {
    var size, pairs := authority.passBatchOrder[p][b], authority.pairs;
    PairsKnown(authority, p);
    SlotAt(authority, p, b, k);
    if size == 1 {
      SingleBlock(p + 1, pairs, |pairs|);
      CorpusKnown(UnitTable(authority.units), pairs, |pairs|);
      KnownUnitsFromCorpus(authority.units, [CorpusOrder(pairs, |pairs|)[k]]);
    } else {
      PairBlock(p + 1, size, pairs, |pairs|);
      KnownUnitsFromCorpus(authority.units, pairs[k].unitIds);
    }
  }

  /** The three warm-up calls: the two units of the first pair alone, then that pair; the rest is measured. */
  lemma {:induction false} WarmupRequestAt(authority: Authority, identity: BatchWorkIdentity)
    requires AuthorityError(authority) == None
    ensures var requests := Requests(UnitTable(authority.units), identity, AllSlots(authority));
      var first, order := authority.pairs[0], authority.passBatchOrder;
      && |requests| == 3 + MeasuredLength(order, authority.pairs, |order|)
      && Carries(requests[0], 0, Warmup, None, first.pairId, identity, authority.units, [first.unitIds[0]])
      && Carries(requests[1], 1, Warmup, None, first.pairId, identity, authority.units, [first.unitIds[1]])
      && Carries(requests[2], 2, Warmup, None, first.pairId, identity, authority.units, first.unitIds)
  {
    var first, order := authority.pairs[0], authority.passBatchOrder;
    MeasuredHasLength(order, authority.pairs, |order|);
    KnownUnitsFromCorpus(authority.units, [first.unitIds[0]]);
    KnownUnitsFromCorpus(authority.units, [first.unitIds[1]]);
    KnownUnitsFromCorpus(authority.units, first.unitIds);
  }

  // ---------------------------------------------------------------- usable units

  /** A slot generates one unit of a pair, or a whole pair. */
  ghost predicate FromPairs(slot: Slot, pairs: seq<Pair>) {
    exists p :: 0 <= p < |pairs| &&
      (slot.unitIds == pairs[p].unitIds || (|slot.unitIds| == 1 && slot.unitIds[0] in pairs[p].unitIds))
  }

  ghost predicate AllFromPairs(slots: seq<Slot>, pairs: seq<Pair>) {
    forall i :: 0 <= i < |slots| ==> FromPairs(slots[i], pairs)
  }

  lemma {:induction false} PairSlotsFromPairs(pass: int, size: int, pairs: seq<Pair>, p: nat)
    requires p < |pairs|
    ensures AllFromPairs(PairSlots(pass, size, pairs[p]), pairs)
  {
  }

  lemma {:induction false} BlockFromPairs(pass: int, size: int, pairs: seq<Pair>, count: nat)
    requires count <= |pairs|
    ensures AllFromPairs(BlockSlots(pass, size, pairs, count), pairs)
  {
    if count > 0 {
      BlockFromPairs(pass, size, pairs, count - 1);
      PairSlotsFromPairs(pass, size, pairs, count - 1);
    }
  }

  lemma {:induction false} PassFromPairs(pass: int, sizes: seq<int>, pairs: seq<Pair>, count: nat)
    requires count <= |sizes|
    ensures AllFromPairs(PassSlots(pass, sizes, pairs, count), pairs)
  {
    if count > 0 {
      PassFromPairs(pass, sizes, pairs, count - 1);
      BlockFromPairs(pass, sizes[count - 1], pairs, |pairs|);
    }
  }

  lemma {:induction false} MeasuredFromPairs(order: seq<seq<int>>, pairs: seq<Pair>, count: nat)
    requires count <= |order|
    ensures AllFromPairs(MeasuredSlots(order, pairs, count), pairs)
  {
    if count > 0 {
      MeasuredFromPairs(order, pairs, count - 1);
      PassFromPairs(count, order[count - 1], pairs, |order[count - 1]|);
    }
  }

  /** A corpus of usable units in pairs of two different ones. */
  ghost predicate WellPaired(authority: Authority) {
    && authority.pairs != []
    && forall p :: 0 <= p < |authority.pairs| ==>
         var ids := authority.pairs[p].unitIds;
         && |ids| == 2 && ids[0] != ids[1]
         && forall i :: 0 <= i < 2 ==>
              ids[i] in UnitTable(authority.units) && ValidUnit(UnitTable(authority.units)[ids[i]])
  }

  lemma {:induction false} WarmupFromPairs(pairs: seq<Pair>)
    requires pairs != [] && |pairs[0].unitIds| >= 2
    ensures AllFromPairs(WarmupSlots(pairs[0]), pairs)
  {
    forall i | 0 <= i < 3
      ensures FromPairs(WarmupSlots(pairs[0])[i], pairs)
    {
      var ids := WarmupSlots(pairs[0])[i].unitIds;
      assert ids == pairs[0].unitIds || (|ids| == 1 && ids[0] in pairs[0].unitIds);
    }
  }

  lemma {:induction false} PlanFromPairs(authority: Authority, i: nat)
    requires WellPaired(authority) && i < |AllSlots(authority)|
    ensures FromPairs(AllSlots(authority)[i], authority.pairs)
  {
    var order, pairs := authority.passBatchOrder, authority.pairs;
    var measured := MeasuredSlots(order, pairs, |order|);
    WarmupFromPairs(pairs);
    MeasuredFromPairs(order, pairs, |order|);
    assert AllSlots(authority)[i] == if i < 3 then WarmupSlots(pairs[0])[i] else measured[i - 3];
  }

  /** A slot of one or two different usable units makes a valid request. */
  lemma {:induction false} UsableSlotIsValid(
    table: map<string, BatchUnitRequest>, identity: BatchWorkIdentity, slot: Slot, index: nat)
    requires identity.sessionId != "" && identity.generationId != ""
    requires 1 <= |slot.unitIds| <= 2 && (|slot.unitIds| == 2 ==> slot.unitIds[0] != slot.unitIds[1])
    requires forall u :: 0 <= u < |slot.unitIds| ==>
      slot.unitIds[u] in table && ValidUnit(table[slot.unitIds[u]]) && table[slot.unitIds[u]].unitId == slot.unitIds[u]
    ensures ValidRequest(RequestAt(table, identity, slot, index))
    ensures UnitIds(RequestAt(table, identity, slot, index)) == slot.unitIds
  {
  }

  lemma {:induction false} PairedSlotIsValid(
    authority: Authority, identity: BatchWorkIdentity, slot: Slot, index: nat)
    requires WellPaired(authority) && FromPairs(slot, authority.pairs)
    requires identity.sessionId != "" && identity.generationId != ""
    ensures ValidRequest(RequestAt(UnitTable(authority.units), identity, slot, index))
    ensures UnitIds(RequestAt(UnitTable(authority.units), identity, slot, index)) == slot.unitIds
  {
    var p :| 0 <= p < |authority.pairs| &&
      (slot.unitIds == authority.pairs[p].unitIds ||
       (|slot.unitIds| == 1 && slot.unitIds[0] in authority.pairs[p].unitIds));
    UsableSlotIsValid(UnitTable(authority.units), identity, slot, index);
  }

  /** Every request built from a well paired corpus passes the controller's own request validation. */
  lemma {:induction false} BuiltRequestsAreValid(authority: Authority, identity: BatchWorkIdentity, i: nat)
    requires WellPaired(authority) && i < |AllSlots(authority)|
    requires identity.sessionId != "" && identity.generationId != ""
    ensures var request := Requests(UnitTable(authority.units), identity, AllSlots(authority))[i];
      ValidRequest(request) && request.callIndex == i && UnitIds(request) == AllSlots(authority)[i].unitIds
  {
    PlanFromPairs(authority, i);
    PairedSlotIsValid(authority, identity, AllSlots(authority)[i], i);
  }

  // ---------------------------------------------------------------- the mechanics run

  /** The observations of the calls from `i` on, or the error that stopped them. */
  function MechanicsOf(
    s: Controller, requests: seq<BatchGenerationRequest>, scripts: seq<CallScript>, i: nat
  ): (Controller, Result<seq<BatchExecutionObservation>, Error>)
    requires |requests| == |scripts| && i <= |requests|
    decreases |requests| - i
  {
    if i == |requests| then (s, Success([]))
    else
      var (s', outcome) := ExecutionOf(s, requests[i], scripts[i]);
      if outcome.Raised? then (s', Failure(outcome.error))
      else
        var (final, rest) := MechanicsOf(s', requests, scripts, i + 1);
        (final, Prepend([outcome.observation], rest))
  }

  function Prepend<E>(
    observations: seq<BatchExecutionObservation>, rest: Result<seq<BatchExecutionObservation>, E>
  ): Result<seq<BatchExecutionObservation>, E> {
    if rest.Success? then Success(observations + rest.value) else rest
  }

  datatype Receipt = Receipt(
    calls: nat,
    units: nat,
    measuredCalls: nat,
    measuredUnits: nat,
    batchOneMeasuredCalls: nat,
    batchTwoMeasuredCalls: nat,
    maximumRetainedUnits: nat,
    maximumActiveBatches: nat,
    orderedPublishedUnits: nat,
    resourceHighWater: BatchResourceSnapshot,
    cleanupPassed: bool,
    failureCodes: set<FailureCode>)

  function MeasuredOnly(observations: seq<BatchExecutionObservation>): seq<BatchExecutionObservation> {
    if observations == [] then []
    else
      (if observations[0].call.phase == BatchPhase.Measured then [observations[0]] else []) +
      MeasuredOnly(observations[1..])
  }

  function UnitTotal(observations: seq<BatchExecutionObservation>): nat {
    if observations == [] then 0 else |observations[0].units| + UnitTotal(observations[1..])
  }

  function PublishedTotal(observations: seq<BatchExecutionObservation>): nat {
    if observations == [] then 0 else |observations[0].published| + PublishedTotal(observations[1..])
  }

  function SizeTotal(observations: seq<BatchExecutionObservation>, size: nat): nat {
    if observations == [] then 0
    else (if observations[0].call.batchSize == size then 1 else 0) + SizeTotal(observations[1..], size)
  }

  function RetainedMaximum(observations: seq<BatchExecutionObservation>): nat {
    if observations == [] then 0
    else MaxInt(observations[0].peakRetainedUnits, RetainedMaximum(observations[1..]))
  }

  function ActiveMaximum(observations: seq<BatchExecutionObservation>): nat {
    if observations == [] then 0
    else MaxInt(observations[0].peakActiveBatches, ActiveMaximum(observations[1..]))
  }

  function Peaks(observations: seq<BatchExecutionObservation>): seq<BatchResourceSnapshot> {
    seq(|observations|, i requires 0 <= i < |observations| => observations[i].resourcePeak)
  }

  function CodesOf(o: BatchExecutionObservation): set<FailureCode> {
    (if o.call.failureCode.Some? then {o.call.failureCode.value} else {}) +
    set u | u in o.units && u.failureCode.Some? :: u.failureCode.value
  }

  function FailureCodes(observations: seq<BatchExecutionObservation>): set<FailureCode> {
    if observations == [] then {} else CodesOf(observations[0]) + FailureCodes(observations[1..])
  }

  function ReceiptOf(observations: seq<BatchExecutionObservation>, cleanupPassed: bool): Receipt {
    var measured := MeasuredOnly(observations);
    Receipt(
      |observations|, UnitTotal(observations), |measured|, UnitTotal(measured),
      SizeTotal(measured, 1), SizeTotal(measured, 2), RetainedMaximum(observations), ActiveMaximum(observations),
      PublishedTotal(observations), MaximumResources(Peaks(observations)), cleanupPassed,
      FailureCodes(observations) + if cleanupPassed then {} else {CleanupFailed})
  }

  /** Runs the pilot prefix or the whole matrix; an error stops the run, the candidate is closed either way. */
  method ExecuteMechanics(
    controller: BoundedOrderedBatchController, requests: seq<BatchGenerationRequest>, scripts: seq<CallScript>,
    pilot: bool, closeRaises: bool)
    returns (r: Result<Receipt, Error>)
    requires |requests| == |scripts|
    modifies controller, controller.identityGate
    ensures var limit := if pilot && 3 < |requests| then 3 else |requests|;
      var (final, observed) := MechanicsOf(old(controller.Model()), requests[..limit], scripts[..limit], 0);
      && controller.Model() == final.(gate := None)
      && r == if observed.Success? then Success(ReceiptOf(observed.value, !closeRaises)) else Failure(observed.error)
  {
    var limit := if pilot && PILOT_CALL_LIMIT < |requests| then PILOT_CALL_LIMIT else |requests|;
    var selected, chosen := requests[..limit], scripts[..limit];
    var observations: seq<BatchExecutionObservation> := [];
    var raised: Option<Error> := None;
    ghost var s := controller.Model();
    ghost var planned := MechanicsOf(s, selected, chosen, 0).1;
    assert planned.Success? ==> [] + planned.value == planned.value;
    for i := 0 to |selected|
      invariant raised == None
      invariant var (final, rest) := MechanicsOf(controller.Model(), selected, chosen, i);
        MechanicsOf(s, selected, chosen, 0) == (final, Prepend(observations, rest))
    {
      var outcome := controller.Execute(selected[i], chosen[i]);
      if outcome.Raised? {
        raised := Some(outcome.error);
        break;
      }
      var rest := MechanicsOf(controller.Model(), selected, chosen, i + 1).1;
      if rest.Success? {
        assert observations + ([outcome.observation] + rest.value) ==
          (observations + [outcome.observation]) + rest.value;
      }
      observations := observations + [outcome.observation];
    }
    controller.identityGate.Invalidate();
    if raised.Some? {
      return Failure(raised.value);
    }
    assert observations + [] == observations;
    r := Success(ReceiptOf(observations, !closeRaises));
  }

  /** The controller before request `j`, when every call from request `i` on is observed. */
  function StateBefore(
    s: Controller, requests: seq<BatchGenerationRequest>, scripts: seq<CallScript>, i: nat, j: nat
  ): Controller
    requires |requests| == |scripts| && i <= j <= |requests|
    decreases j - i
  {
    if i == j then s else StateBefore(ExecutionOf(s, requests[i], scripts[i]).0, requests, scripts, i + 1, j)
  }

  /** Call `j` of a run that has observed all calls before it. */
  function CallAt(
    s: Controller, requests: seq<BatchGenerationRequest>, scripts: seq<CallScript>, i: nat, j: nat
  ): (Controller, Outcome)
    requires |requests| == |scripts| && i <= j < |requests|
  {
    ExecutionOf(StateBefore(s, requests, scripts, i, j), requests[j], scripts[j])
  }

  /** The run stops at the first call that raises, with its error and the state that call leaves. */
  lemma {:induction false} MechanicsStopsAtRaise(
    s: Controller, requests: seq<BatchGenerationRequest>, scripts: seq<CallScript>, i: nat, j: nat)
    requires |requests| == |scripts| && i <= j < |requests|
    requires forall h: nat :: i <= h < j ==> CallAt(s, requests, scripts, i, h).1.Observed?
    requires CallAt(s, requests, scripts, i, j).1.Raised?
    ensures MechanicsOf(s, requests, scripts, i) ==
      (CallAt(s, requests, scripts, i, j).0, Failure(CallAt(s, requests, scripts, i, j).1.error))
    decreases j - i
  {
    if i < j {
      assert CallAt(s, requests, scripts, i, i).1.Observed?;
      var s', next := ExecutionOf(s, requests[i], scripts[i]).0, i + 1;
      forall h: nat | next <= h < j
        ensures CallAt(s', requests, scripts, next, h).1.Observed?
      {
        assert CallAt(s, requests, scripts, i, h).1.Observed?;
      }
      MechanicsStopsAtRaise(s', requests, scripts, next, j);
    }
  }

  /** A run that is not stopped observes each call in turn. */
  lemma {:induction false} MechanicsObservesAt(
    s: Controller, requests: seq<BatchGenerationRequest>, scripts: seq<CallScript>, i: nat, j: nat)
    requires |requests| == |scripts| && i <= j < |requests| && MechanicsOf(s, requests, scripts, i).1.Success?
    ensures |MechanicsOf(s, requests, scripts, i).1.value| == |requests| - i
    ensures CallAt(s, requests, scripts, i, j).1 == Observed(MechanicsOf(s, requests, scripts, i).1.value[j - i])
    decreases j - i
  {
    MechanicsLength(s, requests, scripts, i);
    if i < j {
      MechanicsObservesAt(ExecutionOf(s, requests[i], scripts[i]).0, requests, scripts, i + 1, j);
    }
  }

  lemma {:induction false} MechanicsLength(
    s: Controller, requests: seq<BatchGenerationRequest>, scripts: seq<CallScript>, i: nat)
    requires |requests| == |scripts| && i <= |requests| && MechanicsOf(s, requests, scripts, i).1.Success?
    ensures |MechanicsOf(s, requests, scripts, i).1.value| == |requests| - i
    decreases |requests| - i
  {
    if i < |requests| {
      MechanicsLength(ExecutionOf(s, requests[i], scripts[i]).0, requests, scripts, i + 1);
    }
  }

  // ---------------------------------------------------------------- what the receipt means

  /** An observation of `request` from a controller that had published `first` units. */
  ghost predicate ObservationOf(request: BatchGenerationRequest, o: BatchExecutionObservation, first: int) {
    && Mirrors(request, o)
    && (AllPublished(request, o, first) || NothingPublished(o))
  }

  lemma {:induction false} CallObserved(s: Controller, request: BatchGenerationRequest, script: CallScript)
    ensures var (s', outcome) := ExecutionOf(s, request, script);
      outcome.Observed? ==>
        && ObservationOf(request, outcome.observation, s.sequence)
        && s'.sequence == s.sequence + |outcome.observation.published|
        && ValidRequest(request)
        && ReadingsAccepted(script)
        && outcome.observation.resourcePeak == Peak(script)
  {
    PublicationIsAllOrNothing(s, request, script);
    ObservedPeak(s, request, script);
  }

  /** The observations answer the requests from `i` on, one by one, and number on from `first`. */
  ghost predicate RunObserved(
    requests: seq<BatchGenerationRequest>, i: nat, observations: seq<BatchExecutionObservation>, first: int)
    requires i <= |requests|
    decreases |requests| - i
  {
    if i == |requests| then observations == []
    else
      && observations != []
      && ObservationOf(requests[i], observations[0], first)
      && RunObserved(requests, i + 1, observations[1..], first + |observations[0].published|)
  }

  lemma {:induction false} FirstObserved(
    requests: seq<BatchGenerationRequest>, i: nat, observations: seq<BatchExecutionObservation>, first: int)
    requires i < |requests| && RunObserved(requests, i, observations, first)
    ensures observations != [] && ObservationOf(requests[i], observations[0], first)
    ensures RunObserved(requests, i + 1, observations[1..], first + |observations[0].published|)
  {
  }

  /** A run from publication number `first` answers the requests from `i` on, all of them valid. */
  ghost predicate Answered<E>(
    requests: seq<BatchGenerationRequest>, i: nat, first: int, final: int,
    observed: Result<seq<BatchExecutionObservation>, E>)
    requires i <= |requests|
  {
    observed.Success? ==>
      && (forall j :: i <= j < |requests| ==> ValidRequest(requests[j]))
      && RunObserved(requests, i, observed.value, first)
      && final == first + PublishedTotal(observed.value)
  }

  lemma {:induction false} AnsweredFirst<E>(
    requests: seq<BatchGenerationRequest>, i: nat, o: BatchExecutionObservation, first: int, final: int,
    rest: Result<seq<BatchExecutionObservation>, E>)
    requires i < |requests| && ValidRequest(requests[i]) && ObservationOf(requests[i], o, first)
    requires Answered(requests, i + 1, first + |o.published|, final, rest)
    ensures Answered(requests, i, first, final, Prepend([o], rest))
  {
    if rest.Success? {
      ObservedFirst(requests, i, o, rest.value, first);
    }
  }

  lemma {:induction false} ObservedFirst(
    requests: seq<BatchGenerationRequest>, i: nat, o: BatchExecutionObservation, rest: seq<BatchExecutionObservation>,
    first: int)
    requires i < |requests| && ObservationOf(requests[i], o, first)
    requires RunObserved(requests, i + 1, rest, first + |o.published|)
    ensures RunObserved(requests, i, [o] + rest, first)
    ensures PublishedTotal([o] + rest) == |o.published| + PublishedTotal(rest)
  {
    assert ([o] + rest)[1..] == rest;
  }

  lemma {:induction false} RunAnswersRequests(
    s: Controller, requests: seq<BatchGenerationRequest>, scripts: seq<CallScript>, i: nat)
    requires |requests| == |scripts| && i <= |requests|
    ensures var (final, observed) := MechanicsOf(s, requests, scripts, i);
      Answered(requests, i, s.sequence, final.sequence, observed)
    decreases |requests| - i
  {
    if i < |requests| {
      CallObserved(s, requests[i], scripts[i]);
      var (s', outcome) := ExecutionOf(s, requests[i], scripts[i]);
      RunAnswersRequests(s', requests, scripts, i + 1);
      if outcome.Observed? {
        var (final, rest) := MechanicsOf(s', requests, scripts, i + 1);
        AnsweredFirst(requests, i, outcome.observation, s.sequence, final.sequence, rest);
      }
    }
  }

  lemma {:induction false} RunMirrorsRequests(
    requests: seq<BatchGenerationRequest>, i: nat, observations: seq<BatchExecutionObservation>, first: int, j: nat)
    requires i <= |requests| && RunObserved(requests, i, observations, first) && j < |requests| - i
    ensures |observations| == |requests| - i && Mirrors(requests[i + j], observations[j])
    decreases |requests| - i
  {
    if j > 0 {
      RunMirrorsRequests(requests, i + 1, observations[1..], first + |observations[0].published|, j - 1);
    } else if i + 1 < |requests| {
      RunMirrorsRequests(requests, i + 1, observations[1..], first + |observations[0].published|, 0);
    }
  }

  /** Every snapshot taken by the calls from `i` on. */
  function Snapshots(scripts: seq<CallScript>, i: nat): seq<BatchResourceSnapshot>
    requires i <= |scripts|
    decreases |scripts| - i
  {
    if i == |scripts| then []
    else
      (if ReadingsAccepted(scripts[i]) then [scripts[i].before.value, scripts[i].after.value] else []) +
      Snapshots(scripts, i + 1)
  }

  lemma {:induction false} OneMoreCall(
    peak: BatchResourceSnapshot, peaks: seq<BatchResourceSnapshot>, mine: seq<BatchResourceSnapshot>,
    later: seq<BatchResourceSnapshot>)
    requires mine != [] && peak == MaximumResources(mine) && MaximumResources(peaks) == MaximumResources(later)
    requires peaks == [] <==> later == []
    ensures MaximumResources([peak] + peaks) == MaximumResources(mine + later)
  {
    if peaks == [] {
      assert mine + later == mine && [peak] + peaks == [peak];
    } else {
      MaximumOfConcatenation(mine, later);
      MaximumOfConcatenation([peak], peaks);
    }
  }

  lemma {:induction false} PeaksOfCons(o: BatchExecutionObservation, rest: seq<BatchExecutionObservation>)
    ensures Peaks([o] + rest) == [o.resourcePeak] + Peaks(rest)
  {
  }

  /** The receipt's high water marks are the extremes over every snapshot the run took. */
  lemma {:induction false} HighWaterCoversEverySnapshot(
    s: Controller, requests: seq<BatchGenerationRequest>, scripts: seq<CallScript>, i: nat)
    requires |requests| == |scripts| && i <= |requests|
    ensures var observed := MechanicsOf(s, requests, scripts, i).1;
      observed.Success? ==>
        && MaximumResources(Peaks(observed.value)) == MaximumResources(Snapshots(scripts, i))
        && (i < |requests| ==> Snapshots(scripts, i) != [])
    decreases |requests| - i
  {
    if i < |requests| {
      CallObserved(s, requests[i], scripts[i]);
      var (s', outcome) := ExecutionOf(s, requests[i], scripts[i]);
      HighWaterCoversEverySnapshot(s', requests, scripts, i + 1);
      var rest := MechanicsOf(s', requests, scripts, i + 1).1;
      if outcome.Observed? && rest.Success? {
        var mine := [scripts[i].before.value, scripts[i].after.value];
        PeaksOfCons(outcome.observation, rest.value);
        RunAnswersRequests(s', requests, scripts, i + 1);
        assert rest.value == [] <==> Snapshots(scripts, i + 1) == [];
        OneMoreCall(outcome.observation.resourcePeak, Peaks(rest.value), mine, Snapshots(scripts, i + 1));
      }
    }
  }

  lemma {:induction false} TotalsOfCons(o: BatchExecutionObservation, rest: seq<BatchExecutionObservation>)
    ensures [] + rest == rest
    ensures UnitTotal([o] + rest) == |o.units| + UnitTotal(rest)
    ensures forall size: nat ::
      SizeTotal([o] + rest, size) == (if o.call.batchSize == size then 1 else 0) + SizeTotal(rest, size)
  {
    assert ([o] + rest)[1..] == rest;
  }

  lemma {:induction false} MeasuredOfCons(observations: seq<BatchExecutionObservation>)
    requires observations != []
    ensures MeasuredOnly(observations) ==
      if observations[0].call.phase == BatchPhase.Measured then [observations[0]] + MeasuredOnly(observations[1..])
      else MeasuredOnly(observations[1..])
  {
    assert [] + MeasuredOnly(observations[1..]) == MeasuredOnly(observations[1..]);
  }

  lemma {:induction false} OneMoreMeasured(observations: seq<BatchExecutionObservation>)
    requires observations != []
    requires var o := observations[0]; o.call.batchSize == |o.units| && 1 <= |o.units| <= 2
    requires var rest := MeasuredOnly(observations[1..]);
      && |rest| == SizeTotal(rest, 1) + SizeTotal(rest, 2)
      && UnitTotal(rest) == SizeTotal(rest, 1) + 2 * SizeTotal(rest, 2)
    ensures var measured := MeasuredOnly(observations);
      && |measured| == SizeTotal(measured, 1) + SizeTotal(measured, 2)
      && UnitTotal(measured) == SizeTotal(measured, 1) + 2 * SizeTotal(measured, 2)
  {
    MeasuredOfCons(observations);
    TotalsOfCons(observations[0], MeasuredOnly(observations[1..]));
  }

  /** Each measured call has one or two units, so the measured unit count follows from the call counts. */
  lemma {:induction false} MeasuredCounts(
    requests: seq<BatchGenerationRequest>, i: nat, observations: seq<BatchExecutionObservation>, first: int)
    requires i <= |requests| && RunObserved(requests, i, observations, first)
    requires forall j :: i <= j < |requests| ==> 1 <= |requests[j].units| <= 2
    ensures var measured := MeasuredOnly(observations);
      && |measured| == SizeTotal(measured, 1) + SizeTotal(measured, 2)
      && UnitTotal(measured) == SizeTotal(measured, 1) + 2 * SizeTotal(measured, 2)
    decreases |requests| - i
  {
    if i < |requests| {
      FirstObserved(requests, i, observations, first);
      MeasuredCounts(requests, i + 1, observations[1..], first + |observations[0].published|);
      OneCallCounts(requests[i], observations[0], first);
      OneMoreMeasured(observations);
    }
  }

  /** No unit is published twice, none fails silently: no failure code means every unit was published. */
  lemma {:induction false} PublishedCounts(
    requests: seq<BatchGenerationRequest>, i: nat, observations: seq<BatchExecutionObservation>, first: int)
    requires i <= |requests| && RunObserved(requests, i, observations, first)
    requires forall j :: i <= j < |requests| ==> 1 <= |requests[j].units| <= 2
    ensures PublishedTotal(observations) <= UnitTotal(observations)
    ensures FailureCodes(observations) == {} <==> PublishedTotal(observations) == UnitTotal(observations)
    ensures RetainedMaximum(observations) <= MAXIMUM_RETAINED_UNITS && ActiveMaximum(observations) <= 1
    decreases |requests| - i
  {
    if observations != [] {
      PublishedCounts(requests, i + 1, observations[1..], first + |observations[0].published|);
      OneCallCounts(requests[i], observations[0], first);
    }
  }

  lemma {:induction false} OneCallCounts(request: BatchGenerationRequest, o: BatchExecutionObservation, first: int)
    requires ObservationOf(request, o, first) && 1 <= |request.units| <= 2
    ensures o.call.batchSize == |o.units| && 1 <= |o.units| <= 2
    ensures |o.published| <= |o.units|
    ensures CodesOf(o) == {} <==> |o.published| == |o.units|
    ensures o.peakRetainedUnits <= MAXIMUM_RETAINED_UNITS
  {
    if NothingPublished(o) {
      assert o.call.failureCode.value in CodesOf(o);
    } else {
      PublishedHaveNoCode(request, o, first);
    }
  }

  // ---------------------------------------------------------------- the receipt, field by field

  /** Units asked for by the requests from `i` on. */
  function RequestedUnits(requests: seq<BatchGenerationRequest>, i: nat): nat
    requires i <= |requests|
    decreases |requests| - i
  {
    if i == |requests| then 0 else |requests[i].units| + RequestedUnits(requests, i + 1)
  }

  /** Measured requests with this many units, from `i` on. */
  function MeasuredRequests(requests: seq<BatchGenerationRequest>, size: nat, i: nat): nat
    requires i <= |requests|
    decreases |requests| - i
  {
    if i == |requests| then 0
    else
      (if requests[i].phase == BatchPhase.Measured && |requests[i].units| == size then 1 else 0) +
      MeasuredRequests(requests, size, i + 1)
  }

  lemma {:induction false} CountsFollowRequests(
    requests: seq<BatchGenerationRequest>, i: nat, observations: seq<BatchExecutionObservation>, first: int, size: nat)
    requires i <= |requests| && RunObserved(requests, i, observations, first)
    ensures |observations| == |requests| - i
    ensures UnitTotal(observations) == RequestedUnits(requests, i)
    ensures SizeTotal(MeasuredOnly(observations), size) == MeasuredRequests(requests, size, i)
    ensures ActiveMaximum(observations) == if observations == [] then 0 else 1
    decreases |requests| - i
  {
    if i < |requests| {
      FirstObserved(requests, i, observations, first);
      CountsFollowRequests(requests, i + 1, observations[1..], first + |observations[0].published|, size);
      MeasuredOfCons(observations);
      TotalsOfCons(observations[0], MeasuredOnly(observations[1..]));
    }
  }

  lemma {:induction false} RetainedIsLargest(
    requests: seq<BatchGenerationRequest>, i: nat, observations: seq<BatchExecutionObservation>, first: int)
    requires i <= |requests| && RunObserved(requests, i, observations, first)
    ensures forall h :: 0 <= h < |observations| ==> |observations[h].published| <= RetainedMaximum(observations)
    ensures observations != [] ==>
      exists h :: 0 <= h < |observations| && |observations[h].published| == RetainedMaximum(observations)
    decreases |requests| - i
  {
    if i < |requests| {
      FirstObserved(requests, i, observations, first);
      var rest := observations[1..];
      RetainedIsLargest(requests, i + 1, rest, first + |observations[0].published|);
      forall h | 0 <= h < |observations|
        ensures |observations[h].published| <= RetainedMaximum(observations)
      {
        if h > 0 {
          assert observations[h] == rest[h - 1];
        }
      }
      if RetainedMaximum(observations) == |observations[0].published| {
        assert observations[0] == observations[0];
      } else {
        var h :| 0 <= h < |rest| && |rest[h].published| == RetainedMaximum(rest);
        assert observations[h + 1] == rest[h];
      }
    }
  }

  /** The code of the call at `h`. */
  ghost predicate FailedCallWith(observations: seq<BatchExecutionObservation>, h: int, code: FailureCode) {
    0 <= h < |observations| && observations[h].call.failureCode == Some(code)
  }

  lemma {:induction false} CodesAreCallCodes(
    requests: seq<BatchGenerationRequest>, i: nat, observations: seq<BatchExecutionObservation>, first: int,
    code: FailureCode)
    requires i <= |requests| && RunObserved(requests, i, observations, first)
    ensures code in FailureCodes(observations) <==> exists h :: FailedCallWith(observations, h, code)
    decreases |requests| - i
  {
    if i < |requests| {
      FirstObserved(requests, i, observations, first);
      var rest := observations[1..];
      CodesAreCallCodes(requests, i + 1, rest, first + |observations[0].published|, code);
      CodesOfOneCall(requests[i], observations[0], first, code);
      if observations[0].call.failureCode == Some(code) {
        assert FailedCallWith(observations, 0, code);
      } else if code in FailureCodes(rest) {
        var h :| FailedCallWith(rest, h, code);
        assert FailedCallWith(observations, h + 1, code);
      } else if exists h :: FailedCallWith(observations, h, code) {
        var h :| FailedCallWith(observations, h, code);
        assert FailedCallWith(rest, h - 1, code);
      }
    }
  }

  lemma {:induction false} PublishedHaveNoCode(
    request: BatchGenerationRequest, o: BatchExecutionObservation, first: int)
    requires AllPublished(request, o, first)
    ensures o.call.failureCode == None && forall u :: u in o.units ==> u.failureCode == None
  {
    forall u | u in o.units
      ensures u.failureCode == None
    {
      var k :| 0 <= k < |o.units| && o.units[k] == u;
      assert PublishedAs(
        o.units[k], o.published[k], o.call.completedNanoseconds.value - o.call.acceptedNanoseconds, first + k);
    }
  }

  lemma {:induction false} CodesOfOneCall(
    request: BatchGenerationRequest, o: BatchExecutionObservation, first: int, code: FailureCode)
    requires ObservationOf(request, o, first)
    ensures code in CodesOf(o) <==> o.call.failureCode == Some(code)
  {
    if AllPublished(request, o, first) {
      PublishedHaveNoCode(request, o, first);
    }
  }

  /** What the counts of a receipt mean. */
  ghost predicate Counts(r: Receipt, requests: seq<BatchGenerationRequest>) {
    && r.calls == |requests| && r.units == RequestedUnits(requests, 0)
    && r.batchOneMeasuredCalls == MeasuredRequests(requests, 1, 0)
    && r.batchTwoMeasuredCalls == MeasuredRequests(requests, 2, 0)
    && r.measuredCalls == r.batchOneMeasuredCalls + r.batchTwoMeasuredCalls
    && r.measuredUnits == r.batchOneMeasuredCalls + 2 * r.batchTwoMeasuredCalls
  }

  lemma {:induction false} ReceiptCounts(
    requests: seq<BatchGenerationRequest>, observations: seq<BatchExecutionObservation>, first: int, cleanup: bool)
    requires RunObserved(requests, 0, observations, first)
    requires forall j :: 0 <= j < |requests| ==> 1 <= |requests[j].units| <= 2
    ensures Counts(ReceiptOf(observations, cleanup), requests)
  {
    CountsFollowRequests(requests, 0, observations, first, 1);
    CountsFollowRequests(requests, 0, observations, first, 2);
    MeasuredCounts(requests, 0, observations, first);
  }

  lemma {:induction false} ReceiptObservations(
    requests: seq<BatchGenerationRequest>, observations: seq<BatchExecutionObservation>, first: int, cleanup: bool)
    requires RunObserved(requests, 0, observations, first) && requests != []
    requires forall j :: 0 <= j < |requests| ==> 1 <= |requests[j].units| <= 2
    ensures var r := ReceiptOf(observations, cleanup);
      && r.cleanupPassed == cleanup && r.maximumActiveBatches == 1
      && (forall h :: 0 <= h < |observations| ==> |observations[h].published| <= r.maximumRetainedUnits <= 2)
      && (exists h :: 0 <= h < |observations| && |observations[h].published| == r.maximumRetainedUnits)
      && (r.failureCodes == {} <==> cleanup && r.orderedPublishedUnits == r.units)
      && forall code :: code in r.failureCodes <==>
           (!cleanup && code == CleanupFailed) || exists h :: FailedCallWith(observations, h, code)
  {
    CountsFollowRequests(requests, 0, observations, first, 1);
    PublishedCounts(requests, 0, observations, first);
    RetainedIsLargest(requests, 0, observations, first);
    forall code: FailureCode
      ensures code in FailureCodes(observations) <==> exists h :: FailedCallWith(observations, h, code)
    {
      CodesAreCallCodes(requests, 0, observations, first, code);
    }
  }

  /** The receipt of a finished run follows from its requests, its snapshots and what it published. */
  lemma {:induction false} ReceiptMeans(
    s: Controller, requests: seq<BatchGenerationRequest>, scripts: seq<CallScript>, cleanup: bool)
    requires |requests| == |scripts| && MechanicsOf(s, requests, scripts, 0).1.Success?
    ensures var (final, observed) := MechanicsOf(s, requests, scripts, 0);
      var r := ReceiptOf(observed.value, cleanup);
      && Counts(r, requests)
      && r.orderedPublishedUnits == final.sequence - s.sequence
      && r.resourceHighWater == MaximumResources(Snapshots(scripts, 0))
  {
    RunAnswersRequests(s, requests, scripts, 0);
    HighWaterCoversEverySnapshot(s, requests, scripts, 0);
    ReceiptCounts(requests, MechanicsOf(s, requests, scripts, 0).1.value, s.sequence, cleanup);
  }

  // ---------------------------------------------------------------- why an authority is refused

  /** Some pass has a batch size that is neither one nor two. */
  ghost predicate WrongSize(order: seq<seq<int>>) {
    exists j :: 0 <= j < |order| && !SizesAllowed(order[j])
  }

  /** The first batch size of the order from pass `i` on, if there is any. */
  function FirstSize(order: seq<seq<int>>, i: nat): Option<int>
    requires i <= |order|
    decreases |order| - i
  {
    if i == |order| then None else if order[i] != [] then Some(order[i][0]) else FirstSize(order, i + 1)
  }

  lemma {:induction false} OrderErrorUnknown(
    table: map<string, BatchUnitRequest>, order: seq<seq<int>>, pairs: seq<Pair>, i: nat)
    requires i <= |order| && !KnownFrom(table, pairs, 0)
    ensures OrderError(table, order, pairs, i) ==
      match FirstSize(order, i)
      case None => None
      case Some(size) => if size == 1 || size == 2 then Some(FailedLookup) else Some(InvalidAuthority)
    decreases |order| - i
  {
    if i < |order| && order[i] == [] {
      OrderErrorUnknown(table, order, pairs, i + 1);
    }
  }

  lemma {:induction false} PassErrorKnown(
    table: map<string, BatchUnitRequest>, sizes: seq<int>, pairs: seq<Pair>, b: nat)
    requires b <= |sizes| && KnownFrom(table, pairs, 0)
    ensures PassError(table, sizes, pairs, b) == if SizesAllowed(sizes[b..]) then None else Some(InvalidAuthority)
    decreases |sizes| - b
  {
    if b < |sizes| {
      PassErrorKnown(table, sizes, pairs, b + 1);
      assert sizes[b..] == [sizes[b]] + sizes[b + 1..];
    }
  }

  lemma {:induction false} OrderErrorKnown(
    table: map<string, BatchUnitRequest>, order: seq<seq<int>>, pairs: seq<Pair>, i: nat)
    requires i <= |order| && KnownFrom(table, pairs, 0)
    ensures OrderError(table, order, pairs, i) == if WrongSize(order[i..]) then Some(InvalidAuthority) else None
    decreases |order| - i
  {
    if i < |order| {
      OrderErrorKnown(table, order, pairs, i + 1);
      PassErrorKnown(table, order[i], pairs, 0);
      assert order[i][0..] == order[i];
      var rest, all := order[i + 1..], order[i..];
      assert all == [order[i]] + rest;
      if WrongSize(rest) {
        var j :| 0 <= j < |rest| && !SizesAllowed(rest[j]);
        assert !SizesAllowed(all[j + 1]);
      } else if !SizesAllowed(order[i]) {
        assert !SizesAllowed(all[0]);
      }
    }
  }

  /**
   * Which fault refuses an authority: a lookup of the warm-up; then, if all pairs are listed, any wrong
   * batch size, and if not, the first batch size if it is wrong and the lookup otherwise.
   */
  lemma {:induction false} RefusedAuthority(authority: Authority)
    ensures var units, order, pairs := authority.units, authority.passBatchOrder, authority.pairs;
      AuthorityError(authority) ==
        if pairs == [] || |pairs[0].unitIds| < 2 || !ListedUnits(units, pairs[0].unitIds) then Some(FailedLookup)
        else if ListedPairs(units, pairs) then (if WrongSize(order) then Some(InvalidAuthority) else None)
        else
          match FirstSize(order, 0)
          case None => None
          case Some(size) => if size == 1 || size == 2 then Some(FailedLookup) else Some(InvalidAuthority)
  {
    var units, order, pairs := authority.units, authority.passBatchOrder, authority.pairs;
    var table := UnitTable(units);
    KnownPairsIffListed(units, pairs);
    KnownFromMeans(table, pairs, 0);
    assert pairs[0..] == pairs && order[0..] == order;
    if pairs != [] {
      KnownIffListed(units, pairs[0].unitIds);
    }
    if KnownFrom(table, pairs, 0) {
      OrderErrorKnown(table, order, pairs, 0);
    } else {
      OrderErrorUnknown(table, order, pairs, 0);
    }
  }

  // ---------------------------------------------------------------- a run without failure

  function IdsOf(outputs: seq<BatchAudioUnit>): seq<string> {
    seq(|outputs|, i requires 0 <= i < |outputs| => outputs[i].unitId)
  }

  /** The unit identifiers of everything a run published, in publication order. */
  function PublishedIds(observations: seq<BatchExecutionObservation>): seq<string> {
    if observations == [] then [] else IdsOf(observations[0].published) + PublishedIds(observations[1..])
  }

  lemma {:induction false} PublishedSlot(
    table: map<string, BatchUnitRequest>, identity: BatchWorkIdentity, slot: Slot, index: nat,
    o: BatchExecutionObservation, first: int)
    requires forall id :: id in table ==> table[id].unitId == id
    requires ObservationOf(RequestAt(table, identity, slot, index), o, first) && o.call.failureCode == None
    ensures IdsOf(o.published) == slot.unitIds
  {
    var request := RequestAt(table, identity, slot, index);
    assert AllPublished(request, o, first);
    forall u: nat | u < |o.published|
      ensures o.published[u].unitId == slot.unitIds[u]
    {
      assert Answers(request, o.published, u);
    }
  }

  ghost predicate Faultless(observations: seq<BatchExecutionObservation>) {
    forall h :: 0 <= h < |observations| ==> observations[h].call.failureCode == None
  }

  lemma {:induction false} FaultlessFirst(observations: seq<BatchExecutionObservation>)
    requires Faultless(observations) && observations != []
    ensures observations[0].call.failureCode == None && Faultless(observations[1..])
    ensures PublishedIds(observations) == IdsOf(observations[0].published) + PublishedIds(observations[1..])
  {
  }

  lemma {:induction false} FaultlessRunFollowsPlan(
    table: map<string, BatchUnitRequest>, identity: BatchWorkIdentity, slots: seq<Slot>,
    observations: seq<BatchExecutionObservation>, first: int, i: nat)
    requires i <= |slots| && forall id :: id in table ==> table[id].unitId == id
    requires RunObserved(Requests(table, identity, slots), i, observations, first)
    requires Faultless(observations)
    ensures PublishedIds(observations) == FlattenFrom(slots, i)
    decreases |slots| - i
  {
    if i < |slots| {
      var o := observations[0];
      FirstObserved(Requests(table, identity, slots), i, observations, first);
      FaultlessFirst(observations);
      PublishedSlot(table, identity, slots[i], i, o, first);
      FaultlessRunFollowsPlan(table, identity, slots, observations[1..], first + |o.published|, i + 1);
    }
  }

  lemma {:induction false} WarmupIds(pair: Pair)
    requires |pair.unitIds| >= 2
    ensures FlattenIds(WarmupSlots(pair)) == [pair.unitIds[0], pair.unitIds[1]] + pair.unitIds
  {
    var one := Slot(Warmup, None, pair.pairId, [pair.unitIds[0]]);
    var two := Slot(Warmup, None, pair.pairId, [pair.unitIds[1]]);
    var both := Slot(Warmup, None, pair.pairId, pair.unitIds);
    FlattenOne(one);
    FlattenOne(two);
    FlattenOne(both);
    FlattenJoin([one, two], [one], [two], one.unitIds, two.unitIds);
    FlattenJoin(WarmupSlots(pair), [one, two], [both], one.unitIds + two.unitIds, both.unitIds);
  }

  /**
   * A run of the frozen order in which no call fails publishes the warm-up units and then the corpus,
   * in corpus order, once for every batch size of every pass: nothing is skipped, repeated or reordered.
   */
  lemma {:induction false} FaultlessRunPublishesCorpus(
    authority: Authority, identity: BatchWorkIdentity, observations: seq<BatchExecutionObservation>, first: int)
    requires AuthorityError(authority) == None
    requires RunObserved(Requests(UnitTable(authority.units), identity, AllSlots(authority)), 0, observations, first)
    requires Faultless(observations)
    ensures var warmup, order := authority.pairs[0].unitIds, authority.passBatchOrder;
      PublishedIds(observations) ==
        [warmup[0], warmup[1]] + warmup +
        Repeat(CorpusOrder(authority.pairs, |authority.pairs|), BlockCount(order, |order|))
  {
    var order, pairs := authority.passBatchOrder, authority.pairs;
    var corpus := CorpusOrder(pairs, |pairs|);
    FaultlessRunFollowsPlan(UnitTable(authority.units), identity, AllSlots(authority), observations, first, 0);
    WarmupIds(pairs[0]);
    MeasuredCoversCorpus(order, pairs, |order|, corpus);
    FlattenJoin(AllSlots(authority), WarmupSlots(pairs[0]), MeasuredSlots(order, pairs, |order|),
                [pairs[0].unitIds[0], pairs[0].unitIds[1]] + pairs[0].unitIds,
                Repeat(corpus, BlockCount(order, |order|)));
  }
}
