/** The wide-access rewrite of the PTX code generator: a dense, unpredicated,
    suitably aligned load or store of four 32-bit lanes is issued as one 128-bit
    access at a quarter of the index, and reinterpreted back to four lanes. */
module WideAccess {
  import opened HalideType
  import opened Ir
  import opened Wrappers

  /** The shared precondition of both rewrites: a true predicate, a ramp index of
      stride one and four lanes, 32-bit elements, and an alignment whose modulus and
      remainder are both multiples of 4. */
  predicate IsAlignedDenseQuad(index: Expr, pred: Expr, bits: nat, alignment: ModulusRemainder)
  {
    IsConstOne(pred) && index.Ramp? && IsConstOne(index.stride) && index.lanes == 4 &&
    bits == 32 && alignment.modulus % 4 == 0 && alignment.remainder % 4 == 0
  }

  /** The index of the 128-bit access: the ramp's base divided by 4. */
  function QuarterIndex(index: Expr): Expr
    requires index.Ramp?
  {
    Div(index.base, IntImm(TypeOf(index.base), 4))
  }

  /** The rewrite applied to a load (`None`: the generic per-lane path is used). */
  function FuseLoad(e: Expr): Option<Expr>
    requires e.Load?
  {
    if IsAlignedDenseQuad(e.index, e.pred, e.ty.bits, e.alignment) then
      Some(Reinterpret(e.ty, Load(UIntType(128, 1), e.name, QuarterIndex(e.index),
                                  ConstTrue(1), AlignmentDiv(e.alignment, 4))))
    else None
  }

  /** The rewrite applied to a store (`None`: the generic per-lane path is used). */
  function FuseStore(s: Stmt): Option<Stmt>
    requires s.Store?
  {
    if IsAlignedDenseQuad(s.index, s.pred, TypeOf(s.value).bits, s.alignment) then
      Some(Store(s.name, Reinterpret(UIntType(128, 1), s.value), QuarterIndex(s.index),
                 ConstTrue(1), AlignmentDiv(s.alignment, 4)))
    else None
  }

  /** Each precondition, broken on its own, stops the load rewrite. */
  lemma FuseLoadBoundaries(e: Expr)
    requires e.Load?
    ensures !IsConstOne(e.pred) ==> FuseLoad(e).None?
    ensures !e.index.Ramp? ==> FuseLoad(e).None?
    ensures e.index.Ramp? && !IsConstOne(e.index.stride) ==> FuseLoad(e).None?
    ensures e.index.Ramp? && e.index.lanes != 4 ==> FuseLoad(e).None?
    ensures e.ty.bits != 32 ==> FuseLoad(e).None?
    ensures e.alignment.modulus % 4 != 0 || e.alignment.remainder % 4 != 0 ==> FuseLoad(e).None?
  {
  }

  /** When the load rewrite fires it yields one unpredicated 128-bit load of the same
      buffer at the quarter index with the alignment divided by 4, viewed back at the
      original type; that inner load is not rewritten again, so lowering it takes
      the generic path. */
  lemma FuseLoadResult(e: Expr)
    requires e.Load? && FuseLoad(e).Some?
    ensures var r := FuseLoad(e).value;
      && r.Reinterpret? && TypeOf(r) == e.ty
      && var w := r.value;
      && w.Load? && w.ty == UIntType(128, 1) && w.name == e.name
      && w.index == Div(e.index.base, IntImm(TypeOf(e.index.base), 4))
      && IsConstOne(w.pred)
      && w.alignment.modulus * 4 == e.alignment.modulus
      && w.alignment.remainder * 4 == e.alignment.remainder
      && FuseLoad(w).None?
  {
  }

  /** Each precondition, broken on its own, stops the store rewrite. */
  lemma FuseStoreBoundaries(s: Stmt)
    requires s.Store?
    ensures !IsConstOne(s.pred) ==> FuseStore(s).None?
    ensures !s.index.Ramp? ==> FuseStore(s).None?
    ensures s.index.Ramp? && !IsConstOne(s.index.stride) ==> FuseStore(s).None?
    ensures s.index.Ramp? && s.index.lanes != 4 ==> FuseStore(s).None?
    ensures TypeOf(s.value).bits != 32 ==> FuseStore(s).None?
    ensures s.alignment.modulus % 4 != 0 || s.alignment.remainder % 4 != 0 ==> FuseStore(s).None?
  {
  }

  /** When the store rewrite fires it yields one unpredicated store of the value
      reinterpreted as 128 bits, at the quarter index, alignment divided by 4; that
      store is not rewritten again and is at least 32 bits wide and unpredicated, so
      it also passes the checks made inside an atomic region. */
  lemma FuseStoreResult(s: Stmt)
    requires s.Store? && FuseStore(s).Some?
    ensures var r := FuseStore(s).value;
      && r.Store? && r.name == s.name
      && r.value == Reinterpret(UIntType(128, 1), s.value)
      && r.index == Div(s.index.base, IntImm(TypeOf(s.index.base), 4))
      && IsConstOne(r.pred) && TypeOf(r.value).bits >= 32
      && r.alignment.modulus * 4 == s.alignment.modulus
      && r.alignment.remainder * 4 == s.alignment.remainder
      && FuseStore(r).None?
  {
  }

  // ---------------------------------------------------------------------------
  // Meaning of the rewrite over a memory of 32-bit words. A 128-bit word at
  // index j occupies 32-bit words 4j .. 4j+3, lane 0 in the low bits.

  type Word = bv32
  type Memory = int -> Word

  /** The four lanes a dense 4 x 32-bit access at `base` reads. */
  function Lanes(mem: Memory, base: int): (w: seq<Word>)
    ensures |w| == 4
  {
    [mem(base), mem(base + 1), mem(base + 2), mem(base + 3)]
  }

  /** Four words laid out as one 128-bit value. */
  function Pack(w: seq<Word>): bv128
    requires |w| == 4
  {
    (w[3] as bv128 << 96) | (w[2] as bv128 << 64) | (w[1] as bv128 << 32) | (w[0] as bv128)
  }

  /** Lane `i` of a 128-bit value reinterpreted as four 32-bit lanes. */
  function WordOf(v: bv128, i: nat): Word
    requires i < 4
  {
    if i == 0 then (v & 0xFFFF_FFFF) as Word
    else if i == 1 then ((v >> 32) & 0xFFFF_FFFF) as Word
    else if i == 2 then ((v >> 64) & 0xFFFF_FFFF) as Word
    else ((v >> 96) & 0xFFFF_FFFF) as Word
  }

  /** Reinterpreting a 128-bit value as four 32-bit lanes. */
  function Unpack(v: bv128): (w: seq<Word>)
    ensures |w| == 4
  {
    [WordOf(v, 0), WordOf(v, 1), WordOf(v, 2), WordOf(v, 3)]
  }

  /** A 128-bit load at index `j`. */
  function Load128(mem: Memory, j: int): bv128
  {
    Pack(Lanes(mem, 4 * j))
  }

  /** The memory after storing four lanes at `base`. */
  function StoreLanes(mem: Memory, base: int, w: seq<Word>): Memory
    requires |w| == 4
  {
    k => if base <= k < base + 4 then w[k - base] else mem(k)
  }

  /** The memory after a 128-bit store of `v` at index `j`. */
  function Store128(mem: Memory, j: int, v: bv128): Memory
  {
    k => if 4 * j <= k < 4 * j + 4 then WordOf(v, k - 4 * j) else mem(k)
  }

  lemma UnpackPack(w: seq<Word>)
    requires |w| == 4
    ensures Unpack(Pack(w)) == w
  {
    assert w == [w[0], w[1], w[2], w[3]];
    PackedLow(w[0], w[1], w[2], w[3]);
    PackedSecond(w[0], w[1], w[2], w[3]);
    PackedThird(w[0], w[1], w[2], w[3]);
    PackedHigh(w[0], w[1], w[2], w[3]);
  }

  /** Each 32-bit lane of the packed value is the word placed there, lane 0 in
      the low bits. */
  lemma PackedLow(w0: Word, w1: Word, w2: Word, w3: Word)
    ensures WordOf(Pack([w0, w1, w2, w3]), 0) == w0
  {
    var v := (w3 as bv128 << 96) | (w2 as bv128 << 64) | (w1 as bv128 << 32) | (w0 as bv128);
    assert Pack([w0, w1, w2, w3]) == v;
  }

  lemma PackedSecond(w0: Word, w1: Word, w2: Word, w3: Word)
    ensures WordOf(Pack([w0, w1, w2, w3]), 1) == w1
  {
    var v := (w3 as bv128 << 96) | (w2 as bv128 << 64) | (w1 as bv128 << 32) | (w0 as bv128);
    assert Pack([w0, w1, w2, w3]) == v;
  }

  lemma PackedThird(w0: Word, w1: Word, w2: Word, w3: Word)
    ensures WordOf(Pack([w0, w1, w2, w3]), 2) == w2
  {
    var v := (w3 as bv128 << 96) | (w2 as bv128 << 64) | (w1 as bv128 << 32) | (w0 as bv128);
    assert Pack([w0, w1, w2, w3]) == v;
  }

  lemma PackedHigh(w0: Word, w1: Word, w2: Word, w3: Word)
    ensures WordOf(Pack([w0, w1, w2, w3]), 3) == w3
  {
    var v := (w3 as bv128 << 96) | (w2 as bv128 << 64) | (w1 as bv128 << 32) | (w0 as bv128);
    assert Pack([w0, w1, w2, w3]) == v;
  }

  /** The base of a ramp the alignment fact admits is a multiple of 4, so the
      quarter index addresses exactly the words the ramp covers. */
  lemma QuarterIndexExact(alignment: ModulusRemainder, base: int)
    requires alignment.modulus % 4 == 0 && alignment.remainder % 4 == 0
    requires Admits(alignment, base)
    ensures 4 * (base / 4) == base
    ensures Admits(AlignmentDiv(alignment, 4), base / 4)
  {
    AlignmentDivSound(alignment, 4, base);
  }

  /** A fused load reads the same four lanes as the four 32-bit loads it replaces,
      for every memory content and every ramp base the alignment admits. */
  lemma FusedLoadEquivalent(e: Expr, mem: Memory, base: int)
    requires e.Load? && FuseLoad(e).Some?
    requires Admits(e.alignment, base)
    ensures Unpack(Load128(mem, base / 4)) == Lanes(mem, base)
  {
    QuarterIndexExact(e.alignment, base);
    UnpackPack(Lanes(mem, base));
  }

  /** A fused store leaves memory exactly as the four 32-bit stores it replaces. */
  lemma FusedStoreEquivalent(s: Stmt, mem: Memory, base: int, w: seq<Word>)
    requires s.Store? && FuseStore(s).Some? && |w| == 4
    requires Admits(s.alignment, base)
    ensures forall k :: Store128(mem, base / 4, Pack(w))(k) == StoreLanes(mem, base, w)(k)
  {
    QuarterIndexExact(s.alignment, base);
    UnpackPack(w);
    forall k ensures Store128(mem, base / 4, Pack(w))(k) == StoreLanes(mem, base, w)(k) {
      if base <= k < base + 4 {
        assert WordOf(Pack(w), k - base) == Unpack(Pack(w))[k - base];
      }
    }
  }

  /** Storing through the fused path and loading back through it yields the lanes
      stored, as storing and loading the four lanes one by one does. */
  lemma FusedStoreLoadRoundTrip(mem: Memory, j: int, w: seq<Word>)
    requires |w| == 4
    ensures Unpack(Load128(Store128(mem, j, Pack(w)), j)) == w
    ensures Lanes(StoreLanes(mem, 4 * j, w), 4 * j) == w
  {
    var m := Store128(mem, j, Pack(w));
    UnpackPack(w);
    assert Lanes(m, 4 * j) == Unpack(Pack(w));
    UnpackPack(Lanes(m, 4 * j));
  }
}
