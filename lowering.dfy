/** Lowering of a kernel body by the PTX device code generator, at the level of the
    decisions it makes: the symbol table with push/pop discipline, the scoped
    atomic-store flag, GPU loops read from special registers, allocations placed in
    the entry block or in shared memory, the assertion trap, the barrier, and the
    wide-access rewrites. Instructions are recorded abstractly, block by block. */
module PtxLowering {
  import opened HalideType
  import opened Ir
  import opened Wrappers
  import opened Scope
  import opened SimtAxis
  import opened WideAccess

  /** What a name can be bound to. */
  datatype Value =
    | Argument(index: nat)        // the kernel's parameter at this position
    | SharedBase                  // address 0 of the shared address space (3)
    | StackSlot(index: nat)       // the alloca at this position of the entry block
    | LoopCounter(name: string)   // the counter of a serial loop
    | Constant(v: int)
    | Computed(e: Expr)           // the value of `e`, computed by the emitted code

  /** The instructions the model records. */
  datatype Instr =
    | Alloca(ty: Type, size: int)
    | Jump                        // the entry block's branch to the body block
    | Barrier                     // llvm.nvvm.barrier0
    | CallInstr(callee: string)
    | LoadInstr(ty: Type, buffer: Value, index: Expr, alignment: ModulusRemainder)
    | StoreInstr(buffer: Value, valueType: Type, index: Expr, alignment: ModulusRemainder, atomic: bool)
    | Branch(condition: Value)
    | ElseBranch
    | EndBranch
    | LoopBegin(name: string, min: Value, extent: Value)
    | LoopEnd
    | ReturnVoid

  /** The internal and user errors lowering can raise. */
  datatype LoweringError =
    | UnboundSymbol(name: string)
    | PopOfUnbound(name: string)
    | BarrierArity
    | BarrierFenceNotConstant
    | GpuLoopMinNotZero(loop: string)
    | AllocationWithNewExpr(buffer: string)
    | DynamicAllocationSize(buffer: string)
    | PredicatedAtomicStore(buffer: string)
    | NarrowAtomicStore(buffer: string)
    | AtomicWithMutex(producer: string)

  /** The code generator's state while a kernel is lowered. */
  datatype LState = LState(symbols: Table<Value>, atomic: bool, entry: seq<Instr>, body: seq<Instr>)

  /** The instructions emitted for an expression and the value it yields. */
  datatype Emitted = Emitted(instrs: seq<Instr>, value: Value)

  /** The intrinsic call lowering an assertion failure. */
  const Trap: Expr := Call(IntType(32, 1), "halide_ptx_trap", [], Extern)

  // ---------------------------------------------------------------------------
  // Expressions: lowering reads the symbol table and emits into the current block.

  function InstrsOf(r: Result<Emitted, LoweringError>): Result<seq<Instr>, LoweringError>
  {
    match r
    case Ok(x) => Ok(x.instrs)
    case Err(err) => Err(err)
  }

  /** Two operands lowered in order: the first error, or both instruction lists. */
  function Then(r1: Result<seq<Instr>, LoweringError>, r2: Result<seq<Instr>, LoweringError>):
    Result<seq<Instr>, LoweringError>
  {
    match r1
    case Err(err) => Err(err)
    case Ok(i1) => match r2 case Err(err) => Err(err) case Ok(i2) => Ok(i1 + i2)
  }

  function Finish(r: Result<seq<Instr>, LoweringError>, last: seq<Instr>, v: Value): Result<Emitted, LoweringError>
  {
    match r
    case Err(err) => Err(err)
    case Ok(code) => Ok(Emitted(code + last, v))
  }

  /** A load of `buffer`: the operands' code, then the load from the buffer's binding. */
  function LoadFrom(syms: Table<Value>, operands: Result<seq<Instr>, LoweringError>, ty: Type, buffer: string,
                    index: Expr, alignment: ModulusRemainder, v: Expr): Result<Emitted, LoweringError>
  {
    match operands
    case Err(err) => Err(err)
    case Ok(code) =>
      match Lookup(syms, buffer)
      case None => Err(UnboundSymbol(buffer))
      case Some(b) => Ok(Emitted(code + [LoadInstr(ty, b, index, alignment)], Computed(v)))
  }

  /** Lowering an expression. The barrier call and the load rewrite are the PTX code
      generator's own; a variable reads its innermost binding; the other nodes lower
      their operands in order. */
  function LowerExpr(syms: Table<Value>, e: Expr): Result<Emitted, LoweringError>
    decreases e
  {
    match e
    case IntImm(_, v) => Ok(Emitted([], Constant(v)))
    case Variable(_, n) =>
      (match Lookup(syms, n)
       case None => Err(UnboundSymbol(n))
       case Some(v) => Ok(Emitted([], v)))
    case Call(_, name, args, ct) =>
      if ct == Intrinsic && name == "gpu_thread_barrier" then
        if |args| != 1 then Err(BarrierArity)
        else if !IsConstInt(args[0]) then Err(BarrierFenceNotConstant)
        else Ok(Emitted([Barrier], Constant(0)))
      else Finish(LowerAll(syms, args), [CallInstr(name)], Computed(e))
    case Load(t, name, index, pred, al) =>
      if FuseLoad(e).Some? then
        LoadFrom(syms, InstrsOf(LowerExpr(syms, index.base)), UIntType(128, 1), name,
                 QuarterIndex(index), AlignmentDiv(al, 4), FuseLoad(e).value)
      else
        LoadFrom(syms, Then(InstrsOf(LowerExpr(syms, index)), InstrsOf(LowerExpr(syms, pred))), t, name,
                 index, al, e)
    case Broadcast(v, _) => Finish(InstrsOf(LowerExpr(syms, v)), [], Computed(e))
    case Ramp(b, s, _) => Finish(Then(InstrsOf(LowerExpr(syms, b)), InstrsOf(LowerExpr(syms, s))), [], Computed(e))
    case Add(a, b) => Finish(Then(InstrsOf(LowerExpr(syms, a)), InstrsOf(LowerExpr(syms, b))), [], Computed(e))
    case Mul(a, b) => Finish(Then(InstrsOf(LowerExpr(syms, a)), InstrsOf(LowerExpr(syms, b))), [], Computed(e))
    case Div(a, b) => Finish(Then(InstrsOf(LowerExpr(syms, a)), InstrsOf(LowerExpr(syms, b))), [], Computed(e))
    case Not(a) => Finish(InstrsOf(LowerExpr(syms, a)), [], Computed(e))
    case Cast(_, v) => Finish(InstrsOf(LowerExpr(syms, v)), [], Computed(e))
    case Reinterpret(_, v) => Finish(InstrsOf(LowerExpr(syms, v)), [], Computed(e))
    case ExtractElement(v, _) => Finish(InstrsOf(LowerExpr(syms, v)), [], Computed(e))
    case Slice(v, _, _, _) => Finish(InstrsOf(LowerExpr(syms, v)), [], Computed(e))
    case Concat(vs) => Finish(LowerAll(syms, vs), [], Computed(e))
  }

  function LowerAll(syms: Table<Value>, es: seq<Expr>): Result<seq<Instr>, LoweringError>
    decreases es
  {
    if es == [] then Ok([]) else Then(InstrsOf(LowerExpr(syms, es[0])), LowerAll(syms, es[1..]))
  }

  // ---------------------------------------------------------------------------
  // Statements.

  /** A measure under which an assertion is larger than the conditional it becomes. */
  function Rank(s: Stmt): nat
  {
    match s
    case For(_, _, _, b) => 1 + Rank(b)
    case Allocate(_, _, _, _, _, b) => 1 + Rank(b)
    case Atomic(_, _, b) => 1 + Rank(b)
    case Block(a, b) => 1 + Rank(a) + Rank(b)
    case IfThenElse(_, t, e) => 1 + Rank(t) + Rank(e)
    case AssertStmt(_, _) => 4
    case _ => 1
  }

  function Append(st: LState, code: seq<Instr>): LState
  {
    st.(body := st.body + code)
  }

  function Bind(st: LState, n: string, v: Value): LState
  {
    st.(symbols := Push(st.symbols, n, v))
  }

  function Unbind(st: LState, n: string): Result<LState, LoweringError>
  {
    match Pop(st.symbols, n)
    case None => Err(PopOfUnbound(n))
    case Some(t) => Ok(st.(symbols := t))
  }

  /** The register read that gives a GPU loop variable its value. */
  function RegisterRead(n: string): Expr
    requires IsGpuVar(n)
  {
    SimtIntrinsicDefinedIff(n);
    Call(IntType(32, 1), SimtIntrinsic(n).value, [], Extern)
  }

  /** A store of the buffer's binding: the value's code, the index's, the
      predicate's, then the store, atomic when the atomic flag code set. */
  function StoreInto(st: LState, s: Stmt): Result<LState, LoweringError>
    requires s.Store?
  {
    var ops := Then(Then(InstrsOf(LowerExpr(st.symbols, s.value)), InstrsOf(LowerExpr(st.symbols, s.index))),
                    InstrsOf(LowerExpr(st.symbols, s.pred)));
    match ops
    case Err(err) => Err(err)
    case Ok(code) =>
      match Lookup(st.symbols, s.name)
      case None => Err(UnboundSymbol(s.name))
      case Some(b) => Ok(Append(st, code + [StoreInstr(b, TypeOf(s.value), s.index, s.alignment, st.atomic)]))
  }

  /** `visit(For)` for a GPU axis loop: the minimum must be zero; the variable is
      bound to the register read for the body, which is lowered once, and released. */
  function LowerGpuLoop(st: LState, s: Stmt): Result<LState, LoweringError>
    requires s.For? && IsGpuVar(s.name)
    decreases Rank(s), 0
  {
    if !IsConstZero(s.min) then Err(GpuLoopMinNotZero(s.name))
    else
      match LowerExpr(st.symbols, RegisterRead(s.name))
      case Err(err) => Err(err)
      case Ok(x) =>
        match LowerStmt(Bind(Append(st, x.instrs), s.name, x.value), s.body)
        case Err(err) => Err(err)
        case Ok(st2) => Unbind(st2, s.name)
  }

  /** A serial loop, as lowered by the generic path: bounds, loop header, the counter
      bound for the body, release, loop end. */
  function LowerSerialLoop(st: LState, s: Stmt): Result<LState, LoweringError>
    requires s.For?
    decreases Rank(s), 0
  {
    match Then(InstrsOf(LowerExpr(st.symbols, s.min)), InstrsOf(LowerExpr(st.symbols, s.extent)))
    case Err(err) => Err(err)
    case Ok(code) =>
      var header := LoopBegin(s.name, LowerExpr(st.symbols, s.min).value.value,
                              LowerExpr(st.symbols, s.extent).value.value);
      match LowerStmt(Bind(Append(st, code + [header]), s.name, LoopCounter(s.name)), s.body)
      case Err(err) => Err(err)
      case Ok(st2) =>
        match Unbind(st2, s.name)
        case Err(err) => Err(err)
        case Ok(st3) => Ok(Append(st3, [LoopEnd]))
  }

  /** `visit(Allocate)`: no custom allocator; shared memory is bound to the shared base,
      anything else to a new alloca of the constant size in the entry block; then the
      body. The binding is released by the matching `Free`. */
  function LowerAllocate(st: LState, s: Stmt): Result<LState, LoweringError>
    requires s.Allocate?
    decreases Rank(s), 0
  {
    if s.hasNewExpr then Err(AllocationWithNewExpr(s.name))
    else if s.memoryType == GPUShared then LowerStmt(Bind(st, s.name, SharedBase), s.body)
    else if s.constantSize <= 0 then Err(DynamicAllocationSize(s.name))
    else LowerStmt(Bind(st.(entry := st.entry + [Alloca(s.ty, s.constantSize)]), s.name, StackSlot(|st.entry|)),
                   s.body)
  }

  /** `visit(Store)`: inside an atomic region the store must be unpredicated and at
      least 32 bits wide; an aligned dense quad is re-lowered as one 128-bit store,
      which takes the generic path. */
  function LowerStore(st: LState, s: Stmt): Result<LState, LoweringError>
    requires s.Store?
    decreases if FuseStore(s).Some? then 1 else 0
  {
    if st.atomic && !IsConstOne(s.pred) then Err(PredicatedAtomicStore(s.name))
    else if st.atomic && TypeOf(s.value).bits < 32 then Err(NarrowAtomicStore(s.name))
    else if FuseStore(s).Some? then
      FuseStoreResult(s);
      LowerStore(st, FuseStore(s).value)
    else StoreInto(st, s)
  }

  /** `visit(Atomic)`: no mutex; the body is lowered with atomic stores on, and the
      flag is restored afterwards. */
  function LowerAtomic(st: LState, s: Stmt): Result<LState, LoweringError>
    requires s.Atomic?
    decreases Rank(s), 0
  {
    if s.mutexName != "" then Err(AtomicWithMutex(s.producerName))
    else
      match LowerStmt(st.(atomic := true), s.body)
      case Err(err) => Err(err)
      case Ok(st2) => Ok(st2.(atomic := st.atomic))
  }

  /** A conditional, as lowered by the generic path. */
  function LowerIf(st: LState, s: Stmt): Result<LState, LoweringError>
    requires s.IfThenElse?
    decreases Rank(s), 0
  {
    match LowerExpr(st.symbols, s.condition)
    case Err(err) => Err(err)
    case Ok(x) =>
      match LowerStmt(Append(st, x.instrs + [Branch(x.value)]), s.thenCase)
      case Err(err) => Err(err)
      case Ok(st2) =>
        match LowerStmt(Append(st2, [ElseBranch]), s.elseCase)
        case Err(err) => Err(err)
        case Ok(st3) => Ok(Append(st3, [EndBranch]))
  }

  /** Lowering a statement from state `st`. */
  function LowerStmt(st: LState, s: Stmt): Result<LState, LoweringError>
    decreases Rank(s), 1
  {
    match s
    case For(n, _, _, _) => if IsGpuVar(n) then LowerGpuLoop(st, s) else LowerSerialLoop(st, s)
    case Allocate(_, _, _, _, _, _) => LowerAllocate(st, s)
    case Free(n) => Unbind(st, n)
    case AssertStmt(c, _) =>
      var guarded := IfThenElse(Not(c), Evaluate(Trap), NoOp);
      assert Rank(guarded.thenCase) == 1 && Rank(guarded.elseCase) == 1;
      LowerStmt(st, guarded)
    case Store(_, _, _, _, _) => LowerStore(st, s)
    case Atomic(_, _, _) => LowerAtomic(st, s)
    case Block(a, b) => (match LowerStmt(st, a) case Err(err) => Err(err) case Ok(st2) => LowerStmt(st2, b))
    case IfThenElse(_, _, _) => LowerIf(st, s)
    case Evaluate(e) => (match LowerExpr(st.symbols, e) case Err(err) => Err(err) case Ok(x) => Ok(Append(st, x.instrs)))
    case NoOp => Ok(st)
  }

  // ---------------------------------------------------------------------------
  // Kernels.

  /** A kernel argument: a buffer (passed as a pointer to bytes) or a scalar. */
  datatype DeviceArgument = DeviceArgument(name: string, isBuffer: bool, ty: Type)

  datatype ParamType = BytePointer | ScalarParam(ty: Type)

  /** A finished kernel: its name, parameter types and its two blocks. */
  datatype Kernel = Kernel(name: string, params: seq<ParamType>, entry: seq<Instr>, body: seq<Instr>)

  function ParamTypeOf(a: DeviceArgument): ParamType
  {
    if a.isBuffer then BytePointer else ScalarParam(a.ty)
  }

  function ArgNames(args: seq<DeviceArgument>): (ns: seq<string>)
    ensures |ns| == |args| && forall i :: 0 <= i < |args| ==> ns[i] == args[i].name
  {
    seq(|args|, i requires 0 <= i < |args| => args[i].name)
  }

  function ArgValues(n: nat): (vs: seq<Value>)
    ensures |vs| == n && forall i :: 0 <= i < n ==> vs[i] == Argument(i)
  {
    seq(n, i requires 0 <= i => Argument(i))
  }

  function ParamTypes(args: seq<DeviceArgument>): (ps: seq<ParamType>)
    ensures |ps| == |args| && forall i :: 0 <= i < |args| ==> ps[i] == ParamTypeOf(args[i])
  {
    seq(|args|, i requires 0 <= i < |args| => ParamTypeOf(args[i]))
  }

  /** The body of `add_kernel`: bind the arguments, lower the body into fresh blocks,
      end the body with a return and the entry block with the branch to the body. */
  function KernelBody(st: LState, stmt: Stmt, args: seq<DeviceArgument>): Result<LState, LoweringError>
  {
    var st1 := LState(PushAll(st.symbols, ArgNames(args), ArgValues(|args|)), st.atomic, [], []);
    match LowerStmt(st1, stmt)
    case Err(err) => Err(err)
    case Ok(st2) => Ok(st2.(entry := st2.entry + [Jump], body := st2.body + [ReturnVoid]))
  }

  /** `add_kernel`: the kernel body, then the arguments' bindings released. */
  function AddKernelSpec(st: LState, stmt: Stmt, name: string, args: seq<DeviceArgument>):
    Result<(LState, Kernel), LoweringError>
  {
    match KernelBody(st, stmt, args)
    case Err(err) => Err(err)
    case Ok(st3) =>
      match PopAll(st3.symbols, ArgNames(args))
      case Err(n) => Err(PopOfUnbound(n))
      case Ok(t) => Ok((st3.(symbols := t), Kernel(name, ParamTypes(args), st3.entry, st3.body)))
  }
}
