/** The dot-product rewrite of the PTX code generator: a vector sum of products
    whose operands narrow losslessly to 8 (and 16) bits is computed with chained
    `dp4a`/`dp2a` instructions, each consuming 32-bit words of packed operands. */
module DotProduct {
  import opened HalideType
  import opened Ir
  import opened Wrappers

  /** Halide's `lossless_cast(t, e)`, taken as an oracle: an expression of type `t`
      equal to `e`, or `None` when no such narrowing is known. */
  type CastOracle = (Type, Expr) -> Option<Expr>

  /** A narrowed operand and the narrow type it was cast to. */
  datatype Narrowed = Narrowed(e: Expr, ty: Type)

  function LosslessCast(cast: CastOracle, t: Type, e: Expr): Option<Narrowed>
  {
    match cast(t, e)
    case Some(x) => Some(Narrowed(x, t))
    case None => None
  }

  /** The reduction operators of Halide's VectorReduce node. */
  datatype ReduceOp = AddOp | SaturatingAddOp | MulOp | MinOp | MaxOp | AndOp | OrOp

  /** A VectorReduce node: `value` reduced to `lanes` lanes by `op`. */
  datatype VectorReduce = VectorReduce(op: ReduceOp, value: Expr, lanes: nat)

  function InputLanes(r: VectorReduce): nat { TypeOf(r.value).lanes }

  /** Input lanes per output lane. */
  function Factor(r: VectorReduce): nat
    requires r.lanes > 0
  {
    InputLanes(r) / r.lanes
  }

  /** The reductions the rewrite is attempted on: a sum of a product, a factor that is
      a multiple of 4, and 32-bit integer elements. */
  predicate IsDotCandidate(r: VectorReduce)
    requires r.lanes > 0
  {
    r.op == AddOp && r.value.Mul? && Factor(r) % 4 == 0 &&
    (TypeOf(r.value).ElementOf() == IntType(32, 1) || TypeOf(r.value).ElementOf() == UIntType(32, 1))
  }

  // ---------------------------------------------------------------------------
  // The narrowing order, stated declaratively.

  /** The 8-bit types tried for an operand, in order. */
  function Narrow8Types(isUint: bool, lanes: nat): seq<Type>
  {
    if isUint then [UIntType(8, lanes)] else [IntType(8, lanes), UIntType(8, lanes)]
  }

  /** The 16-bit types tried for the operand that did not narrow to 8 bits, in order. */
  function Narrow16Types(isUint: bool, lanes: nat): seq<Type>
  {
    if isUint then [UIntType(16, lanes)] else [UIntType(16, lanes), IntType(16, lanes)]
  }

  /** The first type of `types` that `e` narrows to. */
  function FirstNarrowing(cast: CastOracle, types: seq<Type>, e: Expr): Option<Narrowed>
  {
    if types == [] then None
    else match LosslessCast(cast, types[0], e)
      case Some(n) => Some(n)
      case None => FirstNarrowing(cast, types[1..], e)
  }

  /** The operands `(a, b)` of the fused instruction for the product `x * y`: both
      8-bit when both narrow; otherwise the one that narrowed to 8 bits becomes `b` and
      the other must narrow to 16 bits. */
  function DotOperands(cast: CastOracle, isUint: bool, lanes: nat, x: Expr, y: Expr): Option<(Narrowed, Narrowed)>
  {
    var x8 := FirstNarrowing(cast, Narrow8Types(isUint, lanes), x);
    var y8 := FirstNarrowing(cast, Narrow8Types(isUint, lanes), y);
    if x8.Some? && y8.Some? then Some((x8.value, y8.value))
    else if x8.Some? then
      match FirstNarrowing(cast, Narrow16Types(isUint, lanes), y)
      case Some(y16) => Some((y16, x8.value))
      case None => None
    else if y8.Some? then
      match FirstNarrowing(cast, Narrow16Types(isUint, lanes), x)
      case Some(x16) => Some((x16, y8.value))
      case None => None
    else None
  }

  /** The fused instruction for an operand pair: `dp4a` for two 8-bit operands,
      `dp2a` for a 16-bit `a`, then the signedness of `a` and of `b`. */
  function DotName(aIs8Bit: bool, aSigned: bool, bSigned: bool): string
  {
    match (aIs8Bit, aSigned, bSigned)
    case (true, true, true) => "dp4a_s32_s32"
    case (true, true, false) => "dp4a_s32_u32"
    case (true, false, true) => "dp4a_u32_s32"
    case (true, false, false) => "dp4a_u32_u32"
    case (false, true, true) => "dp2a_s32_s32"
    case (false, true, false) => "dp2a_s32_u32"
    case (false, false, true) => "dp2a_u32_s32"
    case (false, false, false) => "dp2a_u32_u32"
  }

  /** The operand re-expressed as a vector of 32-bit words: a dense load whose
      alignment allows it is re-issued at the word type (its index divided by the
      elements per word, a ramp again when more than one word is loaded), anything
      else is reinterpreted. The load's own predicate is not consulted. */
  function Repack(n: Narrowed, inputLanes: nat): (r: Expr)
    requires n.ty.bits == 8 || n.ty.bits == 16
    ensures TypeOf(r) == IntType(32, inputLanes / (32 / n.ty.bits))
  {
    var subLanes := 32 / n.ty.bits;
    var e := n.e;
    if e.Load? && e.index.Ramp? && IsConstOne(e.index.stride) &&
       e.alignment.modulus % subLanes == 0 && e.alignment.remainder % subLanes == 0
    then
      var newIndex := Div(e.index.base, IntImm(TypeOf(e.index.base), subLanes));
      var loadLanes := inputLanes / subLanes;
      Load(IntType(32, loadLanes), e.name,
           if inputLanes > subLanes then Ramp(newIndex, IntImm(IntType(32, 1), 1), loadLanes) else newIndex,
           ConstTrue(loadLanes), AlignmentDiv(e.alignment, subLanes))
    else
      Reinterpret(IntType(32, inputLanes / subLanes), e)
  }

  // ---------------------------------------------------------------------------
  // Meaning of the repacking over a buffer of narrow elements. Viewed as 32-bit
  // words, word `q` holds elements `sub * q .. sub * q + sub - 1` (`sub` the
  // elements per word), the first in the low bits.

  /** A buffer of 8- or 16-bit elements, each given by its unsigned bit pattern. */
  type ElementMemory = int -> nat

  function Pow2(k: nat): nat
  {
    if k == 0 then 1 else 2 * Pow2(k - 1)
  }

  /** The elements a dense load of `n` lanes at `base` reads. */
  function DenseLanes(mem: ElementMemory, base: int, n: nat): (xs: seq<nat>)
    ensures |xs| == n && forall i :: 0 <= i < n ==> xs[i] == mem(base + i)
  {
    seq(n, i requires 0 <= i < n => mem(base + i))
  }

  /** Elements of `bits` bits each laid out as one word, the first in the low bits. */
  function PackElements(xs: seq<nat>, bits: nat): nat
  {
    if |xs| == 0 then 0 else xs[0] + Pow2(bits) * PackElements(xs[1..], bits)
  }

  /** `reinterpret` of narrow lanes as 32-bit words: word `w` packs the `sub` lanes
      starting at lane `sub * w`. */
  function ReinterpretWords(xs: seq<nat>, bits: nat): (ws: seq<int>)
    requires bits == 8 || bits == 16
    ensures |ws| == |xs| / (32 / bits)
  {
    if bits == 8 then seq(|xs| / 4, w requires 0 <= w < |xs| / 4 => PackElements(xs[4 * w .. 4 * w + 4], bits))
    else seq(|xs| / 2, w requires 0 <= w < |xs| / 2 => PackElements(xs[2 * w .. 2 * w + 2], bits))
  }

  /** Word `q` of the buffer viewed as 32-bit words. */
  function WordAt(mem: ElementMemory, bits: nat, q: int): nat
    requires bits == 8 || bits == 16
  {
    PackElements(DenseLanes(mem, (32 / bits) * q, 32 / bits), bits)
  }

  /** A dense 32-bit load of `n` words starting at word `q`. */
  function WordLoad(mem: ElementMemory, bits: nat, q: int, n: nat): (ws: seq<int>)
    requires bits == 8 || bits == 16
    ensures |ws| == n && forall w :: 0 <= w < n ==> ws[w] == WordAt(mem, bits, q + w)
  {
    seq(n, w requires 0 <= w < n => WordAt(mem, bits, q + w))
  }

  /** When `Repack` re-issues a dense load, the new load is at the word type, and
      its word index is the old base divided exactly by the elements per word and
      admitted by the divided alignment. */
  lemma RepackedLoadIndex(n: Narrowed, inputLanes: nat, base: int)
    requires n.ty.bits == 8 || n.ty.bits == 16
    requires n.e.Load? && n.e.index.Ramp? && IsConstOne(n.e.index.stride)
    requires n.e.alignment.modulus % (32 / n.ty.bits) == 0 && n.e.alignment.remainder % (32 / n.ty.bits) == 0
    requires Admits(n.e.alignment, base)
    ensures var r, sub := Repack(n, inputLanes), 32 / n.ty.bits;
      var q := Div(n.e.index.base, IntImm(TypeOf(n.e.index.base), sub));
      && r.Load? && r.name == n.e.name && TypeOf(r) == IntType(32, inputLanes / sub)
      && r.index == (if inputLanes > sub then Ramp(q, IntImm(IntType(32, 1), 1), inputLanes / sub) else q)
      && base % sub == 0
      && Admits(r.alignment, base / sub)
  {
    AlignmentDivSound(n.e.alignment, 32 / n.ty.bits, base);
  }

  /** Word `base / 4 + w` of the buffer is the `w`-th group of four byte lanes of
      the dense load at `base`. */
  lemma ByteWord(mem: ElementMemory, base: int, lanes: nat, w: nat)
    requires base % 4 == 0 && 4 * w + 4 <= lanes
    ensures WordAt(mem, 8, base / 4 + w) == PackElements(DenseLanes(mem, base, lanes)[4 * w .. 4 * w + 4], 8)
  {
    assert 4 * (base / 4 + w) == base + 4 * w;
    assert DenseLanes(mem, 4 * (base / 4 + w), 4) == DenseLanes(mem, base, lanes)[4 * w .. 4 * w + 4];
  }

  /** Word `base / 2 + w` of the buffer is the `w`-th pair of 16-bit lanes of the
      dense load at `base`. */
  lemma HalfwordWord(mem: ElementMemory, base: int, lanes: nat, w: nat)
    requires base % 2 == 0 && 2 * w + 2 <= lanes
    ensures WordAt(mem, 16, base / 2 + w) == PackElements(DenseLanes(mem, base, lanes)[2 * w .. 2 * w + 2], 16)
  {
    assert 2 * (base / 2 + w) == base + 2 * w;
    assert DenseLanes(mem, 2 * (base / 2 + w), 2) == DenseLanes(mem, base, lanes)[2 * w .. 2 * w + 2];
  }

  /** Over bytes: the words a dense load of `lanes` elements at a 4-aligned
      `base` reinterprets to are the words loaded from `base / 4`. */
  lemma ByteWordsEquivalent(mem: ElementMemory, base: int, lanes: nat)
    requires base % 4 == 0
    ensures WordLoad(mem, 8, base / 4, lanes / 4) == ReinterpretWords(DenseLanes(mem, base, lanes), 8)
  {
    var loaded := WordLoad(mem, 8, base / 4, lanes / 4);
    var words := ReinterpretWords(DenseLanes(mem, base, lanes), 8);
    forall w | 0 <= w < lanes / 4
      ensures loaded[w] == words[w]
    {
      ByteWord(mem, base, lanes, w);
    }
  }

  /** Over 16-bit elements: the same with pairs and a 2-aligned `base`. */
  lemma HalfwordWordsEquivalent(mem: ElementMemory, base: int, lanes: nat)
    requires base % 2 == 0
    ensures WordLoad(mem, 16, base / 2, lanes / 2) == ReinterpretWords(DenseLanes(mem, base, lanes), 16)
  {
    var loaded := WordLoad(mem, 16, base / 2, lanes / 2);
    var words := ReinterpretWords(DenseLanes(mem, base, lanes), 16);
    forall w | 0 <= w < lanes / 2
      ensures loaded[w] == words[w]
    {
      HalfwordWord(mem, base, lanes, w);
    }
  }

  /** The load `Repack` re-issues reads the same words as reinterpreting the lanes
      the original dense load reads, for every buffer content and every value `base`
      of the original ramp's base that the alignment admits: its first word is
      `base` divided by the elements per word (the value of its index's base, which
      the divided alignment admits), and it loads as many words as the reinterpret
      would produce. */
  lemma RepackedLoadEquivalent(n: Narrowed, inputLanes: nat, mem: ElementMemory, base: int)
    requires n.ty.bits == 8 || n.ty.bits == 16
    requires n.e.Load? && n.e.index.Ramp? && IsConstOne(n.e.index.stride)
    requires n.e.alignment.modulus % (32 / n.ty.bits) == 0 && n.e.alignment.remainder % (32 / n.ty.bits) == 0
    requires Admits(n.e.alignment, base)
    ensures var r, sub := Repack(n, inputLanes), 32 / n.ty.bits;
      var q := Div(n.e.index.base, IntImm(TypeOf(n.e.index.base), sub));
      && r.Load? && r.name == n.e.name
      && r.index == (if inputLanes > sub then Ramp(q, IntImm(IntType(32, 1), 1), TypeOf(r).lanes) else q)
      && Admits(r.alignment, base / sub)
      && WordLoad(mem, n.ty.bits, base / sub, TypeOf(r).lanes) == ReinterpretWords(DenseLanes(mem, base, inputLanes), n.ty.bits)
  {
    RepackedLoadIndex(n, inputLanes, base);
    if n.ty.bits == 8 {
      ByteWordsEquivalent(mem, base, inputLanes);
    } else {
      HalfwordWordsEquivalent(mem, base, inputLanes);
    }
  }

  /** Everything the per-lane construction needs. */
  datatype DotPlan = DotPlan(name: string, a: Expr, b: Expr, init: Expr, aWords: nat, bWords: nat)

  /** The accumulator slice, the `a` slice and the `b` slice of output lane `l`. */
  function InitSlice(p: DotPlan, l: nat): Expr
  {
    if TypeOf(p.init).IsScalar() then p.init else ExtractElement(p.init, l)
  }

  function ASlice(p: DotPlan, l: nat): Expr
  {
    if TypeOf(p.a).IsScalar() then p.a else Slice(p.a, l * p.aWords, 1, p.aWords)
  }

  function BSlice(p: DotPlan, l: nat): Expr
  {
    if TypeOf(p.b).IsScalar() then p.b else Slice(p.b, l * p.bWords, 1, p.bWords)
  }

  /** The `k`-th fused call of a lane: word `k` of the slices (two `a` words against
      one `b` word when `a` has twice as many), accumulated onto `acc`. */
  function DotCall(name: string, aSlice: Expr, bSlice: Expr, acc: Expr, k: nat): Expr
  {
    var bLane := if TypeOf(bSlice).IsScalar() then bSlice else ExtractElement(bSlice, k);
    if TypeOf(aSlice).lanes == TypeOf(bSlice).lanes then
      var aLane := if TypeOf(bSlice).IsScalar() then aSlice else ExtractElement(aSlice, k);
      Call(TypeOf(acc), name, [aLane, bLane, acc], PureExtern)
    else
      Call(TypeOf(acc), name, [ExtractElement(aSlice, 2 * k), ExtractElement(aSlice, 2 * k + 1), bLane, acc],
           PureExtern)
  }

  /** `n` fused calls chained through their accumulator, the first onto `acc`. */
  function Chain(name: string, aSlice: Expr, bSlice: Expr, acc: Expr, n: nat): Expr
  {
    if n == 0 then acc else DotCall(name, aSlice, bSlice, Chain(name, aSlice, bSlice, acc, n - 1), n - 1)
  }

  /** Output lane `l` of the fused result. */
  function Lane(p: DotPlan, l: nat): Expr
  {
    Chain(p.name, ASlice(p, l), BSlice(p, l), InitSlice(p, l), p.bWords)
  }

  /** The zero of a type (Halide's `cast(t, 0)`): a broadcast for a vector type. */
  function Zero(t: Type): Expr
  {
    if t.lanes == 1 then IntImm(t, 0) else Broadcast(IntImm(t.ElementOf(), 0), t.lanes)
  }

  /** The plan for a candidate whose operands narrowed to `(a, b)`. */
  function PlanOf(r: VectorReduce, init: Option<Expr>, a: Narrowed, b: Narrowed): DotPlan
    requires r.lanes > 0
    requires a.ty.bits == 8 || a.ty.bits == 16
    requires b.ty.bits == 8 || b.ty.bits == 16
  {
    var i := if init.Some? then init.value else Zero(TypeOf(r.value));
    DotPlan(DotName(a.ty.bits == 8, a.ty.IsInt(), b.ty.IsInt()),
            Repack(a, InputLanes(r)), Repack(b, InputLanes(r)), i,
            (Factor(r) * a.ty.bits) / 32, (Factor(r) * b.ty.bits) / 32)
  }

  /** The result of the rewrite: `Fused(e)` when the reduction is computed as the
      concatenation `e` of the per-lane chains, `Generic` when it falls back. */
  datatype ReduceLowering = Fused(equiv: Expr) | Generic

  /** The per-lane chains of a plan, for `n` output lanes. */
  function Lanes(p: DotPlan, n: nat): (s: seq<Expr>)
    ensures |s| == n && forall l :: 0 <= l < n ==> s[l] == Lane(p, l)
  {
    seq(n, l requires 0 <= l => Lane(p, l))
  }

  /** The whole rewrite, stated on values. */
  function DotProductRewrite(r: VectorReduce, init: Option<Expr>, cast: CastOracle): ReduceLowering
    requires r.lanes > 0
  {
    if !IsDotCandidate(r) then Generic
    else
      var ops := DotOperands(cast, TypeOf(r.value).IsUInt(), InputLanes(r), r.value.a, r.value.b);
      if ops.None? then Generic
      else
        NarrowedWidths(cast, TypeOf(r.value).IsUInt(), InputLanes(r), r.value.a, r.value.b);
        Fused(Concat(Lanes(PlanOf(r, init, ops.value.0, ops.value.1), r.lanes)))
  }

  // ---------------------------------------------------------------------------
  // Facts about the narrowing order.

  lemma {:induction false} FirstNarrowingIn(cast: CastOracle, types: seq<Type>, e: Expr)
    requires FirstNarrowing(cast, types, e).Some?
    ensures FirstNarrowing(cast, types, e).value.ty in types
    ensures cast(FirstNarrowing(cast, types, e).value.ty, e) == Some(FirstNarrowing(cast, types, e).value.e)
  {
    if LosslessCast(cast, types[0], e).None? {
      FirstNarrowingIn(cast, types[1..], e);
    }
  }

  lemma FirstNarrowingOfOne(cast: CastOracle, t: Type, e: Expr)
    ensures FirstNarrowing(cast, [t], e) == LosslessCast(cast, t, e)
  {
    assert [t][1..] == [];
  }

  lemma FirstNarrowingOfTwo(cast: CastOracle, t: Type, u: Type, e: Expr)
    ensures FirstNarrowing(cast, [t, u], e) ==
              if LosslessCast(cast, t, e).Some? then LosslessCast(cast, t, e) else LosslessCast(cast, u, e)
  {
    assert [t, u][1..] == [u];
    FirstNarrowingOfOne(cast, u, e);
  }

  /** Both orders of narrowing an operand, unfolded. */
  lemma NarrowingsUnfolded(cast: CastOracle, isUint: bool, lanes: nat, e: Expr)
    ensures FirstNarrowing(cast, Narrow8Types(isUint, lanes), e) ==
              if isUint then LosslessCast(cast, UIntType(8, lanes), e)
              else if LosslessCast(cast, IntType(8, lanes), e).Some? then LosslessCast(cast, IntType(8, lanes), e)
              else LosslessCast(cast, UIntType(8, lanes), e)
    ensures FirstNarrowing(cast, Narrow16Types(isUint, lanes), e) ==
              if isUint then LosslessCast(cast, UIntType(16, lanes), e)
              else if LosslessCast(cast, UIntType(16, lanes), e).Some? then LosslessCast(cast, UIntType(16, lanes), e)
              else LosslessCast(cast, IntType(16, lanes), e)
  {
    if isUint {
      FirstNarrowingOfOne(cast, UIntType(8, lanes), e);
      FirstNarrowingOfOne(cast, UIntType(16, lanes), e);
    } else {
      FirstNarrowingOfTwo(cast, IntType(8, lanes), UIntType(8, lanes), e);
      FirstNarrowingOfTwo(cast, UIntType(16, lanes), IntType(16, lanes), e);
    }
  }

  /** `b` is always an 8-bit operand and `a` an 8- or 16-bit one. */
  lemma NarrowedWidths(cast: CastOracle, isUint: bool, lanes: nat, x: Expr, y: Expr)
    requires DotOperands(cast, isUint, lanes, x, y).Some?
    ensures var (a, b) := DotOperands(cast, isUint, lanes, x, y).value;
      b.ty.bits == 8 && (a.ty.bits == 8 || a.ty.bits == 16) &&
      a.ty.IsIntOrUInt() && b.ty.IsIntOrUInt() && a.ty.lanes == lanes && b.ty.lanes == lanes
  {
    var x8 := FirstNarrowing(cast, Narrow8Types(isUint, lanes), x);
    var y8 := FirstNarrowing(cast, Narrow8Types(isUint, lanes), y);
    if x8.Some? { FirstNarrowingIn(cast, Narrow8Types(isUint, lanes), x); }
    if y8.Some? { FirstNarrowingIn(cast, Narrow8Types(isUint, lanes), y); }
    if x8.Some? && y8.None? { FirstNarrowingIn(cast, Narrow16Types(isUint, lanes), y); }
    if x8.None? && y8.Some? { FirstNarrowingIn(cast, Narrow16Types(isUint, lanes), x); }
  }

  /** Each operand that narrows to 8 bits is taken at the first 8-bit type it narrows
      to: Int8 before UInt8 for a signed target, UInt8 only for an unsigned one. `y`
      always ends up as `b`; `x` is `a` when `y` narrows to 8 bits too, and is
      swapped into `b` otherwise. */
  lemma SignedTriedFirst(cast: CastOracle, isUint: bool, lanes: nat, x: Expr, y: Expr)
    requires DotOperands(cast, isUint, lanes, x, y).Some?
    ensures var (a, b) := DotOperands(cast, isUint, lanes, x, y).value;
      var xAt := if FirstNarrowing(cast, Narrow8Types(isUint, lanes), y).Some? then a else b;
      && (!isUint && cast(IntType(8, lanes), x).Some? ==>
            xAt == Narrowed(cast(IntType(8, lanes), x).value, IntType(8, lanes)))
      && (!isUint && cast(IntType(8, lanes), x).None? && cast(UIntType(8, lanes), x).Some? ==>
            xAt == Narrowed(cast(UIntType(8, lanes), x).value, UIntType(8, lanes)))
      && (isUint && cast(UIntType(8, lanes), x).Some? ==>
            xAt == Narrowed(cast(UIntType(8, lanes), x).value, UIntType(8, lanes)))
    ensures var b := DotOperands(cast, isUint, lanes, x, y).value.1;
      && (!isUint && cast(IntType(8, lanes), y).Some? ==>
            b == Narrowed(cast(IntType(8, lanes), y).value, IntType(8, lanes)))
      && (!isUint && cast(IntType(8, lanes), y).None? && cast(UIntType(8, lanes), y).Some? ==>
            b == Narrowed(cast(UIntType(8, lanes), y).value, UIntType(8, lanes)))
      && (isUint && cast(UIntType(8, lanes), y).Some? ==>
            b == Narrowed(cast(UIntType(8, lanes), y).value, UIntType(8, lanes)))
    ensures isUint ==> DotOperands(cast, isUint, lanes, x, y).value.1.ty == UIntType(8, lanes)
    ensures isUint ==> DotOperands(cast, isUint, lanes, x, y).value.0.ty in {UIntType(8, lanes), UIntType(16, lanes)}
  {
    NarrowingsUnfolded(cast, isUint, lanes, x);
    NarrowingsUnfolded(cast, isUint, lanes, y);
  }

  /** When just one operand narrows to 8 bits the other, which becomes `a`, gets a
      16-bit retry: UInt16 first, Int16 only for a signed target and only when UInt16
      fails; the rewrite is abandoned only when that fails too. */
  lemma SixteenBitRetry(cast: CastOracle, isUint: bool, lanes: nat, x: Expr, y: Expr)
    ensures var x8, y8 := FirstNarrowing(cast, Narrow8Types(isUint, lanes), x),
                          FirstNarrowing(cast, Narrow8Types(isUint, lanes), y);
      x8.Some? && y8.None? ==>
        && (DotOperands(cast, isUint, lanes, x, y).Some? <==>
              cast(UIntType(16, lanes), y).Some? || (!isUint && cast(IntType(16, lanes), y).Some?))
        && (cast(UIntType(16, lanes), y).Some? ==>
              DotOperands(cast, isUint, lanes, x, y) ==
              Some((Narrowed(cast(UIntType(16, lanes), y).value, UIntType(16, lanes)), x8.value)))
        && (!isUint && cast(UIntType(16, lanes), y).None? && cast(IntType(16, lanes), y).Some? ==>
              DotOperands(cast, isUint, lanes, x, y) ==
              Some((Narrowed(cast(IntType(16, lanes), y).value, IntType(16, lanes)), x8.value)))
    ensures var x8, y8 := FirstNarrowing(cast, Narrow8Types(isUint, lanes), x),
                          FirstNarrowing(cast, Narrow8Types(isUint, lanes), y);
      x8.None? && y8.Some? ==>
        && (DotOperands(cast, isUint, lanes, x, y).Some? <==>
              cast(UIntType(16, lanes), x).Some? || (!isUint && cast(IntType(16, lanes), x).Some?))
        && (cast(UIntType(16, lanes), x).Some? ==>
              DotOperands(cast, isUint, lanes, x, y) ==
              Some((Narrowed(cast(UIntType(16, lanes), x).value, UIntType(16, lanes)), y8.value)))
        && (!isUint && cast(UIntType(16, lanes), x).None? && cast(IntType(16, lanes), x).Some? ==>
              DotOperands(cast, isUint, lanes, x, y) ==
              Some((Narrowed(cast(IntType(16, lanes), x).value, IntType(16, lanes)), y8.value)))
  {
    NarrowingsUnfolded(cast, isUint, lanes, x);
    NarrowingsUnfolded(cast, isUint, lanes, y);
  }

  /** With neither operand narrowing to 8 bits there is no fused instruction. */
  lemma NoEightBitOperand(cast: CastOracle, isUint: bool, lanes: nat, x: Expr, y: Expr)
    requires FirstNarrowing(cast, Narrow8Types(isUint, lanes), x).None?
    requires FirstNarrowing(cast, Narrow8Types(isUint, lanes), y).None?
    ensures DotOperands(cast, isUint, lanes, x, y).None?
  {
  }

  // ---------------------------------------------------------------------------
  // Facts about the output.

  /** The depth of calls to `name` nested through their last argument. */
  function AccumulatedCalls(name: string, e: Expr): nat
  {
    if e.Call? && e.name == name && |e.args| > 0 then 1 + AccumulatedCalls(name, e.args[|e.args| - 1]) else 0
  }

  /** A chain of `n` calls adds exactly `n` fused calls on top of its accumulator and
      keeps the accumulator's type. */
  lemma {:induction false} ChainLength(name: string, aSlice: Expr, bSlice: Expr, acc: Expr, n: nat)
    ensures AccumulatedCalls(name, Chain(name, aSlice, bSlice, acc, n)) == AccumulatedCalls(name, acc) + n
    ensures TypeOf(Chain(name, aSlice, bSlice, acc, n)) == TypeOf(acc)
  {
    if n > 0 {
      ChainLength(name, aSlice, bSlice, acc, n - 1);
    }
  }

  /** Words per sum: a 16-bit `a` contributes twice as many 32-bit words to each
      output lane as the 8-bit `b`, an 8-bit `a` as many. */
  lemma WordsPerSum(r: VectorReduce, init: Option<Expr>, a: Narrowed, b: Narrowed)
    requires r.lanes > 0 && Factor(r) % 4 == 0
    requires (a.ty.bits == 8 || a.ty.bits == 16) && b.ty.bits == 8
    ensures var p := PlanOf(r, init, a, b);
      p.bWords * 4 == Factor(r) && p.aWords == (if a.ty.bits == 8 then p.bWords else 2 * p.bWords)
  {
    var k := Factor(r) / 4;
    assert Factor(r) * 8 == 32 * k && Factor(r) * 16 == 32 * (2 * k);
    DivisionOfMultiple(32, k);
    DivisionOfMultiple(32, 2 * k);
  }

  /** When the operands narrow to `(a, b)`, the fused result concatenates one chain
      per output lane, each of exactly `factor * 8 / 32` calls to the instruction
      that the widths and signedness of `a` and `b` select. */
  lemma FusedShape(r: VectorReduce, init: Option<Expr>, cast: CastOracle, a: Narrowed, b: Narrowed)
    requires r.lanes > 0 && IsDotCandidate(r)
    requires DotOperands(cast, TypeOf(r.value).IsUInt(), InputLanes(r), r.value.a, r.value.b) == Some((a, b))
    ensures (a.ty.bits == 8 || a.ty.bits == 16) && b.ty.bits == 8
    ensures DotProductRewrite(r, init, cast) == Fused(Concat(Lanes(PlanOf(r, init, a, b), r.lanes)))
    ensures var p := PlanOf(r, init, a, b);
      && p.name == DotName(a.ty.bits == 8, a.ty.IsInt(), b.ty.IsInt())
      && p.bWords * 4 == Factor(r)
      && forall l :: 0 <= l < r.lanes ==>
           AccumulatedCalls(p.name, Lane(p, l)) == AccumulatedCalls(p.name, InitSlice(p, l)) + p.bWords
  {
    NarrowedWidths(cast, TypeOf(r.value).IsUInt(), InputLanes(r), r.value.a, r.value.b);
    var p := PlanOf(r, init, a, b);
    forall l | 0 <= l < r.lanes
      ensures AccumulatedCalls(p.name, Lane(p, l)) == AccumulatedCalls(p.name, InitSlice(p, l)) + p.bWords
    {
      ChainLength(p.name, ASlice(p, l), BSlice(p, l), InitSlice(p, l), p.bWords);
    }
  }

  /** The rewrite fires exactly on candidates whose operands narrow. */
  lemma FusedIff(r: VectorReduce, init: Option<Expr>, cast: CastOracle)
    requires r.lanes > 0
    ensures DotProductRewrite(r, init, cast).Fused? <==>
              IsDotCandidate(r) &&
              DotOperands(cast, TypeOf(r.value).IsUInt(), InputLanes(r), r.value.a, r.value.b).Some?
  {
  }

  /** The lane slices always have equal word counts or `a` twice as many as `b`, the
      only two shapes the per-word call handles. */
  lemma SliceShapes(r: VectorReduce, init: Option<Expr>, a: Narrowed, b: Narrowed, l: nat)
    requires r.lanes > 0 && IsDotCandidate(r)
    requires (a.ty.bits == 8 || a.ty.bits == 16) && b.ty.bits == 8
    requires Factor(r) > 0
    ensures var p := PlanOf(r, init, a, b);
      if a.ty.bits == 8 then TypeOf(ASlice(p, l)).lanes == TypeOf(BSlice(p, l)).lanes
      else TypeOf(ASlice(p, l)).lanes == 2 * TypeOf(BSlice(p, l)).lanes > 0
  {
    var p := PlanOf(r, init, a, b);
    var n := InputLanes(r);
    var f := Factor(r);
    assert n >= f * r.lanes >= f >= 4 by {
      assert n == r.lanes * f + n % r.lanes;
      MulAtLeastSelf(f, r.lanes);
    }
    WordsPerSum(r, init, a, b);
    if a.ty.bits == 16 {
      assert TypeOf(p.a).lanes == n / 2 >= 2;
    }
    if TypeOf(p.b).IsScalar() {
      assert n / 4 == 1;
      assert f == 4;
    }
  }

  /** Every `dp4a` call takes one `a` word, one `b` word and the accumulator; every
      `dp2a` call takes two `a` words, one `b` word and the accumulator. */
  lemma CallArity(r: VectorReduce, init: Option<Expr>, a: Narrowed, b: Narrowed, l: nat, acc: Expr, k: nat)
    requires r.lanes > 0 && IsDotCandidate(r) && Factor(r) > 0
    requires (a.ty.bits == 8 || a.ty.bits == 16) && b.ty.bits == 8
    ensures var p := PlanOf(r, init, a, b);
      var c := DotCall(p.name, ASlice(p, l), BSlice(p, l), acc, k);
      c.Call? && c.name == p.name && |c.args| == (if a.ty.bits == 8 then 3 else 4) &&
      c.args[|c.args| - 1] == acc && TypeOf(c) == TypeOf(acc) &&
      c.args[|c.args| - 2] ==
        (if TypeOf(BSlice(p, l)).IsScalar() then BSlice(p, l) else ExtractElement(BSlice(p, l), k)) &&
      (if a.ty.bits == 8 then
         c.args[0] ==
           (if TypeOf(BSlice(p, l)).IsScalar() then ASlice(p, l) else ExtractElement(ASlice(p, l), k))
       else
         c.args[0] == ExtractElement(ASlice(p, l), 2 * k) &&
         c.args[1] == ExtractElement(ASlice(p, l), 2 * k + 1))
  {
    SliceShapes(r, init, a, b, l);
  }

  lemma MulAtLeastSelf(f: nat, k: nat)
    requires k >= 1
    ensures k * f >= f
  {
    assert k * f == f + (k - 1) * f;
  }

  // ---------------------------------------------------------------------------
  // The code generator's procedure.

  /** The narrowing step as the code generator runs it: both operands at 8 bits, the
      signed target retrying each unsigned, a swap that puts the narrowed operand in
      `b`, and the 16-bit retry of `a`. */
  method NarrowOperands(cast: CastOracle, isUint: bool, lanes: nat, x: Expr, y: Expr)
    returns (a: Option<Narrowed>, b: Option<Narrowed>)
    ensures a.Some? && b.Some? <==> DotOperands(cast, isUint, lanes, x, y).Some?
    ensures a.Some? && b.Some? ==> DotOperands(cast, isUint, lanes, x, y) == Some((a.value, b.value))
  {
    if isUint {
      a := LosslessCast(cast, UIntType(8, lanes), x);
      b := LosslessCast(cast, UIntType(8, lanes), y);
    } else {
      a := LosslessCast(cast, IntType(8, lanes), x);
      b := LosslessCast(cast, IntType(8, lanes), y);
      if a.None? {
        a := LosslessCast(cast, UIntType(8, lanes), x);
      }
      if b.None? {
        b := LosslessCast(cast, UIntType(8, lanes), y);
      }
    }
    var aOrig := x;
    if a.Some? && b.None? {
      a, b := b, a;
      aOrig := y;
    }
    if b.Some? && a.None? {
      a := LosslessCast(cast, UIntType(16, lanes), aOrig);
      if a.None? && !isUint {
        a := LosslessCast(cast, IntType(16, lanes), aOrig);
      }
    }
    NarrowingsUnfolded(cast, isUint, lanes, x);
    NarrowingsUnfolded(cast, isUint, lanes, y);
  }

  /** The instruction name, built piece by piece as the code generator does. */
  method InstructionName(a: Narrowed, b: Narrowed) returns (name: string)
    ensures name == DotName(a.ty.bits == 8, a.ty.IsInt(), b.ty.IsInt())
  {
    var base := if a.ty.bits == 8 then "dp4a" else "dp2a";
    var aSign := if a.ty.IsInt() then "_s32" else "_u32";
    var bSign := if b.ty.IsInt() then "_s32" else "_u32";
    name := base + aSign + bSign;
  }

  /** The slices of lane `l` have the shapes the per-word call handles (the code
      generator asserts this internally before the two-`a`-words form). */
  predicate SlicesCompatible(p: DotPlan, l: nat)
  {
    p.bWords == 0 ||
    TypeOf(ASlice(p, l)).lanes == TypeOf(BSlice(p, l)).lanes ||
    TypeOf(ASlice(p, l)).lanes == 2 * TypeOf(BSlice(p, l)).lanes
  }

  /** The inner loop: `n` fused calls chained onto `acc`. */
  method ChainCalls(name: string, aSlice: Expr, bSlice: Expr, acc: Expr, n: nat) returns (e: Expr)
    requires n == 0 || TypeOf(aSlice).lanes == TypeOf(bSlice).lanes ||
             TypeOf(aSlice).lanes == 2 * TypeOf(bSlice).lanes
    ensures e == Chain(name, aSlice, bSlice, acc, n)
  {
    e := acc;
    for k := 0 to n
      invariant e == Chain(name, aSlice, bSlice, acc, k)
    {
      assert Chain(name, aSlice, bSlice, acc, k + 1) == DotCall(name, aSlice, bSlice, e, k);
      if TypeOf(aSlice).lanes == TypeOf(bSlice).lanes {
        var aLane, bLane;
        if TypeOf(bSlice).IsScalar() {
          aLane, bLane := aSlice, bSlice;
        } else {
          aLane, bLane := ExtractElement(aSlice, k), ExtractElement(bSlice, k);
        }
        e := Call(TypeOf(e), name, [aLane, bLane, e], PureExtern);
      } else {
        assert TypeOf(aSlice).lanes == 2 * TypeOf(bSlice).lanes;
        var bLane := if TypeOf(bSlice).IsScalar() then bSlice else ExtractElement(bSlice, k);
        var aLo, aHi := ExtractElement(aSlice, 2 * k), ExtractElement(aSlice, 2 * k + 1);
        e := Call(TypeOf(e), name, [aLo, aHi, bLane, e], PureExtern);
      }
    }
  }

  /** The outer loop: the chain of every output lane, pushed in lane order. */
  method BuildLanes(p: DotPlan, n: nat) returns (result: seq<Expr>)
    requires forall l :: 0 <= l < n ==> SlicesCompatible(p, l)
    ensures result == Lanes(p, n)
  {
    result := [];
    for l := 0 to n
      invariant result == Lanes(p, l)
    {
      var iSlice := if TypeOf(p.init).IsScalar() then p.init else ExtractElement(p.init, l);
      var aSlice := if TypeOf(p.a).IsScalar() then p.a else Slice(p.a, l * p.aWords, 1, p.aWords);
      var bSlice := if TypeOf(p.b).IsScalar() then p.b else Slice(p.b, l * p.bWords, 1, p.bWords);
      assert SlicesCompatible(p, l);
      iSlice := ChainCalls(p.name, aSlice, bSlice, iSlice, p.bWords);
      result := result + [iSlice];
    }
  }

  /** `codegen_vector_reduce`: the fused expression the code generator lowers in place
      of the reduction, or `Generic` for the generic reduction lowering. */
  method CodegenVectorReduce(r: VectorReduce, init: Option<Expr>, cast: CastOracle)
    returns (result: ReduceLowering)
    requires r.lanes > 0
    ensures result == DotProductRewrite(r, init, cast)
  {
    var inputLanes := TypeOf(r.value).lanes;
    var factor := inputLanes / r.lanes;
    if !(r.op == AddOp && r.value.Mul? && factor % 4 == 0 &&
         (TypeOf(r.value).ElementOf() == IntType(32, 1) || TypeOf(r.value).ElementOf() == UIntType(32, 1))) {
      return Generic;
    }
    var mul := r.value;
    var i := if init.Some? then init.value else Zero(TypeOf(mul));
    var isUint := TypeOf(r.value).IsUInt();
    var a, b := NarrowOperands(cast, isUint, inputLanes, mul.a, mul.b);
    if !(a.Some? && b.Some?) {
      return Generic;
    }
    NarrowedWidths(cast, isUint, inputLanes, mul.a, mul.b);
    var name := InstructionName(a.value, b.value);
    var aWords := (factor * a.value.ty.bits) / 32;
    var bWords := (factor * b.value.ty.bits) / 32;
    var aw := Repack(a.value, inputLanes);
    var bw := Repack(b.value, inputLanes);
    var p := DotPlan(name, aw, bw, i, aWords, bWords);
    assert p == PlanOf(r, init, a.value, b.value);
    forall l | 0 <= l < r.lanes
      ensures SlicesCompatible(p, l)
    {
      if 0 < factor {
        SliceShapes(r, init, a.value, b.value, l);
      } else {
        assert bWords == 0;
      }
    }
    var lanes := BuildLanes(p, r.lanes);
    result := Fused(Concat(lanes));
  }
}
