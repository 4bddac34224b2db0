/** The PTX device code generator as an object: its symbol table, the flag that turns
    stores atomic, the two blocks of the kernel being generated, and the kernels
    added so far. Each visitor updates these fields step by step and is proved to
    reach the state that the lowering functions of `PtxLowering` describe. */
module PtxCodeGen {
  import opened HalideType
  import opened Ir
  import opened Wrappers
  import opened Scope
  import opened SimtAxis
  import opened WideAccess
  import opened PtxLowering

  /** The generic store, one operand at a time: the first operand that fails to
      lower, the unbound buffer, or the operands' code followed by the store. */
  lemma StoreIntoSteps(st: LState, s: Stmt)
    requires s.Store?
    ensures var v, i, p := LowerExpr(st.symbols, s.value), LowerExpr(st.symbols, s.index),
                          LowerExpr(st.symbols, s.pred);
      StoreInto(st, s) ==
        if v.Err? then Err(v.error)
        else if i.Err? then Err(i.error)
        else if p.Err? then Err(p.error)
        else if Lookup(st.symbols, s.name).None? then Err(UnboundSymbol(s.name))
        else Ok(Append(Append(Append(Append(st, v.value.instrs), i.value.instrs), p.value.instrs),
                       [StoreInstr(Lookup(st.symbols, s.name).value, TypeOf(s.value), s.index, s.alignment, st.atomic)]))
  {
    var v, i, p := LowerExpr(st.symbols, s.value), LowerExpr(st.symbols, s.index), LowerExpr(st.symbols, s.pred);
    if v.Ok? && i.Ok? && p.Ok? && Lookup(st.symbols, s.name).Some? {
      var last := [StoreInstr(Lookup(st.symbols, s.name).value, TypeOf(s.value), s.index, s.alignment, st.atomic)];
      assert st.body + v.value.instrs + i.value.instrs + p.value.instrs + last
          == st.body + (v.value.instrs + i.value.instrs + p.value.instrs + last);
    }
  }

  class CodeGenPtxDev {
    var symbols: Table<Value>
    var emitAtomicStores: bool
    var entryBlock: seq<Instr>
    var bodyBlock: seq<Instr>
    var kernels: seq<Kernel>

    /** The generator's state as the lowering functions see it. */
    function State(): LState
      reads this
    {
      LState(symbols, emitAtomicStores, entryBlock, bodyBlock)
    }

    /** The outcome `r` of a visitor is the one `spec` describes: the same error, or
        success with the generator in the state `spec` gives. After an error the
        state is not described. */
    ghost predicate Reports(r: Result<(), LoweringError>, spec: Result<LState, LoweringError>)
      reads this
    {
      match spec
      case Err(err) => r == Err(err)
      case Ok(st) => r == Ok(()) && State() == st
    }

    constructor ()
      ensures State() == LState(map[], false, [], []) && kernels == []
    {
      symbols := map[];
      emitAtomicStores := false;
      entryBlock := [];
      bodyBlock := [];
      kernels := [];
    }

    /** `codegen(Expr)`: emit the expression's code into the body block and return its
        value; on an error nothing is emitted. */
    method Codegen(e: Expr) returns (r: Result<Value, LoweringError>)
      modifies this
      ensures match LowerExpr(old(symbols), e)
              case Err(err) => r == Err(err) && State() == old(State())
              case Ok(x) => r == Ok(x.value) && State() == Append(old(State()), x.instrs)
      ensures kernels == old(kernels)
    {
      match LowerExpr(symbols, e)
      case Err(err) =>
        r := Err(err);
      case Ok(x) =>
        bodyBlock := bodyBlock + x.instrs;
        r := Ok(x.value);
    }

    /** `codegen(Stmt)`: dispatch on the statement. */
    method Visit(s: Stmt) returns (r: Result<(), LoweringError>)
      modifies this
      decreases Rank(s), 2, 0
      ensures Reports(r, LowerStmt(old(State()), s)) && kernels == old(kernels)
    {
      match s
      case For(_, _, _, _) => r := VisitFor(s);
      case Allocate(_, _, _, _, _, _) => r := VisitAllocate(s);
      case Free(_) => r := VisitFree(s);
      case AssertStmt(_, _) => r := VisitAssertStmt(s);
      case Store(_, _, _, _, _) => r := VisitStore(s);
      case Atomic(_, _, _) => r := VisitAtomic(s);
      case Block(a, b) =>
        r := Visit(a);
        if r.Ok? {
          r := Visit(b);
        }
      case IfThenElse(_, _, _) => r := VisitIf(s);
      case Evaluate(e) =>
        var v := Codegen(e);
        r := if v.Ok? then Ok(()) else Err(v.error);
      case NoOp => r := Ok(());
    }

    /** `visit(For)`: a GPU loop reads its axis register and lowers the body once;
        any other loop takes the generic path. */
    method VisitFor(s: Stmt) returns (r: Result<(), LoweringError>)
      requires s.For?
      modifies this
      decreases Rank(s), 1, 0
      ensures Reports(r, LowerStmt(old(State()), s)) && kernels == old(kernels)
    {
      ghost var st := State();
      if IsGpuVar(s.name) {
        assert LowerStmt(st, s) == LowerGpuLoop(st, s);
        var read := RegisterRead(s.name);
        if !IsConstZero(s.min) {
          return Err(GpuLoopMinNotZero(s.name));
        }
        var v := Codegen(read);
        if v.Err? {
          return Err(v.error);
        }
        symbols := Push(symbols, s.name, v.value);
        r := Visit(s.body);
        if r.Err? {
          return;
        }
        var t := Pop(symbols, s.name);
        if t.None? {
          return Err(PopOfUnbound(s.name));
        }
        symbols := t.value;
      } else {
        assert LowerStmt(st, s) == LowerSerialLoop(st, s);
        r := VisitSerialLoop(s);
      }
    }

    /** A serial loop, as the generic path lowers it. */
    method VisitSerialLoop(s: Stmt) returns (r: Result<(), LoweringError>)
      requires s.For? && !IsGpuVar(s.name)
      modifies this
      decreases Rank(s), 0, 0
      ensures Reports(r, LowerSerialLoop(old(State()), s)) && kernels == old(kernels)
    {
      ghost var st := State();
      var mn := Codegen(s.min);
      if mn.Err? {
        return Err(mn.error);
      }
      var ext := Codegen(s.extent);
      if ext.Err? {
        return Err(ext.error);
      }
      ghost var code := LowerExpr(st.symbols, s.min).value.instrs + LowerExpr(st.symbols, s.extent).value.instrs;
      bodyBlock := bodyBlock + [LoopBegin(s.name, mn.value, ext.value)];
      symbols := Push(symbols, s.name, LoopCounter(s.name));
      ghost var st1 := Bind(Append(st, code + [LoopBegin(s.name, mn.value, ext.value)]), s.name, LoopCounter(s.name));
      assert State() == st1;
      r := Visit(s.body);
      if r.Err? {
        assert LowerStmt(st1, s.body).Err?;
        return;
      }
      var t := Pop(symbols, s.name);
      if t.None? {
        return Err(PopOfUnbound(s.name));
      }
      symbols := t.value;
      bodyBlock := bodyBlock + [LoopEnd];
    }

    /** `visit(Allocate)`: bind the buffer to shared memory or to a new alloca at the
        end of the entry block, then lower the body. */
    method VisitAllocate(s: Stmt) returns (r: Result<(), LoweringError>)
      requires s.Allocate?
      modifies this
      decreases Rank(s), 1, 0
      ensures Reports(r, LowerAllocate(old(State()), s)) && kernels == old(kernels)
    {
      if s.hasNewExpr {
        return Err(AllocationWithNewExpr(s.name));
      }
      if s.memoryType == GPUShared {
        symbols := Push(symbols, s.name, SharedBase);
      } else {
        if s.constantSize <= 0 {
          return Err(DynamicAllocationSize(s.name));
        }
        var slot := |entryBlock|;
        entryBlock := entryBlock + [Alloca(s.ty, s.constantSize)];
        symbols := Push(symbols, s.name, StackSlot(slot));
      }
      r := Visit(s.body);
    }

    /** `visit(Free)`: release the buffer's binding. */
    method VisitFree(s: Stmt) returns (r: Result<(), LoweringError>)
      requires s.Free?
      modifies this
      decreases Rank(s), 1, 0
      ensures Reports(r, LowerStmt(old(State()), s)) && kernels == old(kernels)
    {
      var t := Pop(symbols, s.name);
      if t.None? {
        return Err(PopOfUnbound(s.name));
      }
      symbols := t.value;
      r := Ok(());
    }

    /** `visit(AssertStmt)`: drop the message and lower a conditional trap. */
    method VisitAssertStmt(s: Stmt) returns (r: Result<(), LoweringError>)
      requires s.AssertStmt?
      modifies this
      decreases Rank(s), 1, 0
      ensures Reports(r, LowerStmt(old(State()), s)) && kernels == old(kernels)
    {
      var guarded := IfThenElse(Not(s.condition), Evaluate(Trap), NoOp);
      assert Rank(guarded) < Rank(s);
      r := Visit(guarded);
    }

    /** `visit(Store)`: the atomic-region checks, then the 128-bit rewrite or the
        generic store. */
    method VisitStore(s: Stmt) returns (r: Result<(), LoweringError>)
      requires s.Store?
      modifies this
      decreases Rank(s), 1, if FuseStore(s).Some? then 1 else 0
      ensures Reports(r, LowerStore(old(State()), s)) && kernels == old(kernels)
    {
      if emitAtomicStores {
        if !IsConstOne(s.pred) {
          return Err(PredicatedAtomicStore(s.name));
        }
        if TypeOf(s.value).bits < 32 {
          return Err(NarrowAtomicStore(s.name));
        }
      }
      var fused := FuseStore(s);
      if fused.Some? {
        FuseStoreResult(s);
        assert Rank(fused.value) == Rank(s);
        r := VisitStore(fused.value);
      } else {
        r := GenericStore(s);
      }
    }

    /** The generic store: the value, the index and the predicate, then the store into
        the buffer's binding, atomic when the flag is set. */
    method GenericStore(s: Stmt) returns (r: Result<(), LoweringError>)
      requires s.Store?
      modifies this
      ensures Reports(r, StoreInto(old(State()), s)) && kernels == old(kernels)
    {
      ghost var st := State();
      StoreIntoSteps(st, s);
      var v := Codegen(s.value);
      if v.Err? {
        return Err(v.error);
      }
      var i := Codegen(s.index);
      if i.Err? {
        return Err(i.error);
      }
      var p := Codegen(s.pred);
      if p.Err? {
        return Err(p.error);
      }
      var b := Lookup(symbols, s.name);
      if b.None? {
        return Err(UnboundSymbol(s.name));
      }
      bodyBlock := bodyBlock + [StoreInstr(b.value, TypeOf(s.value), s.index, s.alignment, emitAtomicStores)];
      r := Ok(());
    }

    /** `visit(Atomic)`: no mutex; atomic stores on for the body, then back as they were. */
    method VisitAtomic(s: Stmt) returns (r: Result<(), LoweringError>)
      requires s.Atomic?
      modifies this
      decreases Rank(s), 1, 0
      ensures Reports(r, LowerAtomic(old(State()), s)) && kernels == old(kernels)
    {
      if s.mutexName != "" {
        return Err(AtomicWithMutex(s.producerName));
      }
      var saved := emitAtomicStores;
      emitAtomicStores := true;
      r := Visit(s.body);
      emitAtomicStores := saved;
    }

    /** A conditional, as the generic path lowers it. */
    method VisitIf(s: Stmt) returns (r: Result<(), LoweringError>)
      requires s.IfThenElse?
      modifies this
      decreases Rank(s), 1, 0
      ensures Reports(r, LowerIf(old(State()), s)) && kernels == old(kernels)
    {
      ghost var st := State();
      var c := Codegen(s.condition);
      if c.Err? {
        return Err(c.error);
      }
      ghost var x := LowerExpr(st.symbols, s.condition).value;
      bodyBlock := bodyBlock + [Branch(c.value)];
      ghost var st1 := Append(st, x.instrs + [Branch(x.value)]);
      assert State() == st1;
      r := Visit(s.thenCase);
      if r.Err? {
        assert LowerStmt(st1, s.thenCase).Err?;
        return;
      }
      ghost var st2 := State();
      bodyBlock := bodyBlock + [ElseBranch];
      r := Visit(s.elseCase);
      if r.Err? {
        assert LowerStmt(Append(st2, [ElseBranch]), s.elseCase).Err?;
        return;
      }
      bodyBlock := bodyBlock + [EndBranch];
    }

    /** The kernel's parameter types: a byte pointer for a buffer, the argument's own
        type for a scalar. */
    static method ArgTypes(args: seq<DeviceArgument>) returns (ps: seq<ParamType>)
      ensures ps == ParamTypes(args)
    {
      ps := [];
      var i := 0;
      while i < |args|
        invariant 0 <= i <= |args|
        invariant ps == ParamTypes(args)[..i]
      {
        ps := ps + [if args[i].isBuffer then BytePointer else ScalarParam(args[i].ty)];
        i := i + 1;
      }
    }

    /** Bind each argument's name to its parameter, in order, and return the names. */
    method BindArguments(args: seq<DeviceArgument>) returns (names: seq<string>)
      modifies this
      ensures names == ArgNames(args)
      ensures symbols == PushAll(old(symbols), names, ArgValues(|args|))
      ensures emitAtomicStores == old(emitAtomicStores) && entryBlock == old(entryBlock) && bodyBlock == old(bodyBlock)
      ensures kernels == old(kernels)
    {
      names := [];
      var i := 0;
      while i < |args|
        invariant 0 <= i <= |args|
        invariant names == ArgNames(args)[..i]
        invariant symbols == PushAll(old(symbols), names, ArgValues(i))
        invariant emitAtomicStores == old(emitAtomicStores) && entryBlock == old(entryBlock) && bodyBlock == old(bodyBlock)
        invariant kernels == old(kernels)
      {
        PushAllSnoc(old(symbols), names, ArgValues(i), args[i].name, Argument(i));
        assert ArgValues(i + 1) == ArgValues(i) + [Argument(i)];
        assert ArgNames(args)[..i + 1] == names + [args[i].name];
        symbols := Push(symbols, args[i].name, Argument(i));
        names := names + [args[i].name];
        i := i + 1;
      }
    }

    /** Release the bindings of `names`, in order; the error names the first that has
        none left. */
    method ReleaseArguments(names: seq<string>) returns (r: Result<(), LoweringError>)
      modifies this
      ensures match PopAll(old(symbols), names)
              case Err(n) => r == Err(PopOfUnbound(n))
              case Ok(t) => r == Ok(()) && symbols == t
      ensures emitAtomicStores == old(emitAtomicStores) && entryBlock == old(entryBlock) && bodyBlock == old(bodyBlock)
      ensures kernels == old(kernels)
    {
      var i := 0;
      while i < |names|
        invariant 0 <= i <= |names|
        invariant PopAll(old(symbols), names[..i]) == Ok(symbols)
        invariant emitAtomicStores == old(emitAtomicStores) && entryBlock == old(entryBlock) && bodyBlock == old(bodyBlock)
        invariant kernels == old(kernels)
      {
        PopAllSnoc(old(symbols), names[..i], names[i]);
        assert names[..i + 1] == names[..i] + [names[i]];
        var t := Pop(symbols, names[i]);
        if t.None? {
          PopAllErrPrefix(old(symbols), names[..i + 1], names[i + 1..]);
          assert names[..i + 1] + names[i + 1..] == names;
          return Err(PopOfUnbound(names[i]));
        }
        symbols := t.value;
        i := i + 1;
      }
      assert names[..i] == names;
      r := Ok(());
    }

    /** The body of `add_kernel`: the arguments bound, the statement lowered into
        fresh entry and body blocks, the return and the branch to the body added. */
    method LowerKernelBody(stmt: Stmt, args: seq<DeviceArgument>) returns (r: Result<(), LoweringError>, names: seq<string>)
      modifies this
      ensures names == ArgNames(args)
      ensures Reports(r, KernelBody(old(State()), stmt, args)) && kernels == old(kernels)
    {
      entryBlock := [];
      bodyBlock := [];
      names := BindArguments(args);
      ghost var st1 := State();
      assert st1 == LState(PushAll(old(symbols), ArgNames(args), ArgValues(|args|)), old(emitAtomicStores), [], []);
      r := Visit(stmt);
      if r.Err? {
        assert LowerStmt(st1, stmt).Err?;
        return;
      }
      ghost var st2 := State();
      assert KernelBody(old(State()), stmt, args) == Ok(st2.(entry := st2.entry + [Jump], body := st2.body + [ReturnVoid]));
      bodyBlock := bodyBlock + [ReturnVoid];
      entryBlock := entryBlock + [Jump];
    }

    /** `add_kernel`: the kernel body lowered, the arguments released, and the kernel
        added. */
    method AddKernel(stmt: Stmt, name: string, args: seq<DeviceArgument>) returns (r: Result<Kernel, LoweringError>)
      modifies this
      ensures match AddKernelSpec(old(State()), stmt, name, args)
              case Err(err) => r == Err(err)
              case Ok((st, k)) => r == Ok(k) && State() == st && kernels == old(kernels) + [k]
    {
      var paramTypes := ArgTypes(args);
      var res, names := LowerKernelBody(stmt, args);
      if res.Err? {
        return Err(res.error);
      }
      var k := Kernel(name, paramTypes, entryBlock, bodyBlock);
      var popped := ReleaseArguments(names);
      if popped.Err? {
        return Err(popped.error);
      }
      kernels := kernels + [k];
      r := Ok(k);
    }
  }
}
