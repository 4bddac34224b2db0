/** The fragment of Halide's IR that the PTX device code generator inspects:
    expressions and statements as a closed sum type. */
module Ir {
  import opened HalideType

  /** What is known at compile time about an integer `x`: `x == modulus * k + remainder`
      for some integer `k` (a modulus of 0 pins `x` to the remainder). */
  datatype ModulusRemainder = ModulusRemainder(modulus: nat, remainder: int)

  /** The kind of a call node. */
  datatype CallType = Intrinsic | Extern | PureExtern

  /** Halide expressions, restricted to the node kinds this code generator looks at. */
  datatype Expr =
    | IntImm(ty: Type, imm: int)              // an integer constant (IntImm or UIntImm, by `ty`)
    | Variable(ty: Type, name: string)
    | Broadcast(value: Expr, lanes: nat)
    | Ramp(base: Expr, stride: Expr, lanes: nat)
    | Add(a: Expr, b: Expr)
    | Mul(a: Expr, b: Expr)
    | Div(a: Expr, b: Expr)
    | Not(a: Expr)
    | Cast(ty: Type, value: Expr)
    | Reinterpret(ty: Type, value: Expr)
    | Load(ty: Type, name: string, index: Expr, pred: Expr, alignment: ModulusRemainder)
    | Call(ty: Type, name: string, args: seq<Expr>, callType: CallType)
    | ExtractElement(vector: Expr, lane: nat)
    | Slice(vector: Expr, begin: nat, step: nat, lanes: nat)
    | Concat(vectors: seq<Expr>)

  /** Where an allocation lives. */
  datatype MemoryType = Auto | Heap | Stack | Register | GPUShared

  /** Halide statements, restricted likewise. An `Allocate` carries the value of its
      `constant_allocation_size()`, which is 0 when the extents are not constant. */
  datatype Stmt =
    | For(name: string, min: Expr, extent: Expr, body: Stmt)
    | Allocate(name: string, ty: Type, memoryType: MemoryType, constantSize: int,
               hasNewExpr: bool, body: Stmt)
    | Free(name: string)
    | AssertStmt(condition: Expr, message: Expr)
    | Store(name: string, value: Expr, index: Expr, pred: Expr, alignment: ModulusRemainder)
    | Atomic(producerName: string, mutexName: string, body: Stmt)
    | Block(first: Stmt, rest: Stmt)
    | IfThenElse(condition: Expr, thenCase: Stmt, elseCase: Stmt)
    | Evaluate(value: Expr)
    | NoOp

  /** The constant true, as an unsigned one-bit immediate (Halide's `const_true()`). */
  function ConstTrue(lanes: nat): Expr
  {
    if lanes == 1 then IntImm(BoolType(1), 1) else Broadcast(IntImm(BoolType(1), 1), lanes)
  }

  /** Halide's `is_const_one`: an immediate one, or a broadcast of one. */
  predicate IsConstOne(e: Expr)
  {
    match e
    case IntImm(_, v) => v == 1
    case Broadcast(v, _) => IsConstOne(v)
    case _ => false
  }

  /** Halide's `is_const_zero`: an immediate zero, or a broadcast of zero. */
  predicate IsConstZero(e: Expr)
  {
    match e
    case IntImm(_, v) => v == 0
    case Broadcast(v, _) => IsConstZero(v)
    case _ => false
  }

  /** Halide's `as_const_int`: defined on signed integer immediates and broadcasts of them. */
  predicate IsConstInt(e: Expr)
  {
    match e
    case IntImm(t, _) => t.IsInt()
    case Broadcast(v, _) => IsConstInt(v)
    case _ => false
  }

  /** The type of an expression. */
  function TypeOf(e: Expr): Type
  {
    match e
    case IntImm(t, _) => t
    case Variable(t, _) => t
    case Broadcast(v, n) => TypeOf(v).WithLanes(n)
    case Ramp(b, _, n) => TypeOf(b).WithLanes(n)
    case Add(a, _) => TypeOf(a)
    case Mul(a, _) => TypeOf(a)
    case Div(a, _) => TypeOf(a)
    case Not(a) => TypeOf(a)
    case Cast(t, _) => t
    case Reinterpret(t, _) => t
    case Load(t, _, _, _, _) => t
    case Call(t, _, _, _) => t
    case ExtractElement(v, _) => TypeOf(v).ElementOf()
    case Slice(v, _, _, n) => TypeOf(v).WithLanes(n)
    case Concat(vs) => if vs == [] then IntType(32, 0) else TypeOf(vs[0]).WithLanes(ConcatLanes(vs))
  }

  function ConcatLanes(vs: seq<Expr>): nat
  {
    if vs == [] then 0 else TypeOf(vs[0]).lanes + ConcatLanes(vs[1..])
  }

  /** `x` is one of the values an alignment fact allows. */
  ghost predicate Admits(m: ModulusRemainder, x: int)
  {
    exists k :: x == m.modulus * k + m.remainder
  }

  /** Dividing an alignment fact by `k`, for the case the code generator uses it in:
      `k` divides both the modulus and the remainder. */
  function AlignmentDiv(m: ModulusRemainder, k: nat): ModulusRemainder
    requires k > 0 && m.modulus % k == 0 && m.remainder % k == 0
  {
    ModulusRemainder(m.modulus / k, m.remainder / k)
  }

  /** A value allowed by an alignment whose modulus and remainder are multiples of `k`
      is itself a multiple of `k`, and its quotient is allowed by the divided alignment. */
  lemma AlignmentDivSound(m: ModulusRemainder, k: nat, x: int)
    requires k > 0 && m.modulus % k == 0 && m.remainder % k == 0
    requires Admits(m, x)
    ensures x % k == 0
    ensures Admits(AlignmentDiv(m, k), x / k)
  {
    var q :| x == m.modulus * q + m.remainder;
    var mq, rq := m.modulus / k, m.remainder / k;
    assert m.modulus == k * mq && m.remainder == k * rq;
    var y := mq * q + rq;
    assert x == k * y by {
      calc {
        x;
        m.modulus * q + m.remainder;
        (k * mq) * q + k * rq;
        { assert (k * mq) * q == k * (mq * q); }
        k * (mq * q) + k * rq;
        k * (mq * q + rq);
      }
    }
    DivisionOfMultiple(k, y);
    assert x / k == AlignmentDiv(m, k).modulus * q + AlignmentDiv(m, k).remainder;
  }

  lemma MulAtLeast(k: nat, n: int)
    requires n > 0
    ensures k * n >= k
  {
    assert k * n == k * (n - 1) + k;
  }

  lemma DivisionOfMultiple(k: nat, y: int)
    requires k > 0
    ensures (k * y) % k == 0 && (k * y) / k == y
  {
    var x := k * y;
    var d, r := x / k, x % k;
    assert x == k * d + r && 0 <= r < k;
    var n := y - d;
    assert k * n == r by {
      assert k * n == k * y - k * d;
    }
    if n > 0 {
      MulAtLeast(k, n);
    } else if n < 0 {
      MulAtLeast(k, -n);
    }
  }
}
