/** What lowering guarantees: the state it leaves, the bindings it restores, and the
    behaviour of each PTX-specific visitor. */
module LoweringFacts {
  import opened HalideType
  import opened Ir
  import opened Wrappers
  import opened Scope
  import opened SimtAxis
  import opened WideAccess
  import opened PtxLowering

  /** `st2` is a state lowering can reach from `st`: bindings well formed, the atomic
      flag as before, the body block only appended to, and the entry block only
      extended with allocas. */
  ghost predicate Extends(st: LState, st2: LState)
  {
    && WellFormed(st2.symbols) && st2.atomic == st.atomic
    && |st.body| <= |st2.body| && st2.body[..|st.body|] == st.body
    && |st.entry| <= |st2.entry| && st2.entry[..|st.entry|] == st.entry
    && forall i :: |st.entry| <= i < |st2.entry| ==> st2.entry[i].Alloca?
  }

  lemma ExtendsTrans(a: LState, b: LState, c: LState)
    requires Extends(a, b) && Extends(b, c)
    ensures Extends(a, c)
  {
    assert c.body[..|a.body|] == c.body[..|b.body|][..|a.body|];
    assert c.entry[..|a.entry|] == c.entry[..|b.entry|][..|a.entry|];
    forall i | |a.entry| <= i < |c.entry| ensures c.entry[i].Alloca? {
      if i < |b.entry| {
        assert c.entry[i] == c.entry[..|b.entry|][i];
      }
    }
  }

  lemma AppendExtends(st: LState, code: seq<Instr>)
    requires WellFormed(st.symbols)
    ensures Extends(st, Append(st, code))
  {
    assert (st.body + code)[..|st.body|] == st.body;
  }

  lemma UnbindExtends(st: LState, n: string)
    requires WellFormed(st.symbols) && Unbind(st, n).Ok?
    ensures Extends(st, Unbind(st, n).value)
  {
    PopWellFormed(st.symbols, n);
  }

  /** The fused store passes the atomic checks again and is not fused again, so a store
      is lowered as one generic store of the original or of its 128-bit form. */
  lemma StoreLowersOnce(st: LState, s: Stmt)
    requires s.Store?
    ensures LowerStore(st, s) ==
              if st.atomic && !IsConstOne(s.pred) then Err(PredicatedAtomicStore(s.name))
              else if st.atomic && TypeOf(s.value).bits < 32 then Err(NarrowAtomicStore(s.name))
              else StoreInto(st, if FuseStore(s).Some? then FuseStore(s).value else s)
  {
    if FuseStore(s).Some? {
      FuseStoreResult(s);
    }
  }

  lemma StoreExtends(st: LState, s: Stmt)
    requires s.Store? && WellFormed(st.symbols) && LowerStore(st, s).Ok?
    ensures Extends(st, LowerStore(st, s).value)
  {
    StoreLowersOnce(st, s);
    var f := if FuseStore(s).Some? then FuseStore(s).value else s;
    var ops := Then(Then(InstrsOf(LowerExpr(st.symbols, f.value)), InstrsOf(LowerExpr(st.symbols, f.index))),
                    InstrsOf(LowerExpr(st.symbols, f.pred)));
    AppendExtends(st, ops.value + [StoreInstr(Lookup(st.symbols, f.name).value, TypeOf(f.value), f.index,
                                              f.alignment, st.atomic)]);
  }

  /** Every successful lowering of a statement reaches a state that `Extends` the one
      it started from; in particular the atomic flag always comes back to its value,
      and allocas only ever go to the entry block. */
  lemma {:induction false} FrameStmt(st: LState, s: Stmt)
    requires WellFormed(st.symbols) && LowerStmt(st, s).Ok?
    ensures Extends(st, LowerStmt(st, s).value)
    decreases Rank(s), 1
  {
    match s
    case For(n, _, _, _) =>
      if IsGpuVar(n) { FrameGpuLoop(st, s); } else { FrameSerialLoop(st, s); }
    case Allocate(_, _, _, _, _, _) => FrameAllocate(st, s);
    case Free(n) => UnbindExtends(st, n);
    case AssertStmt(c, _) =>
      var guarded := IfThenElse(Not(c), Evaluate(Trap), NoOp);
      assert Rank(guarded.thenCase) == 1 && Rank(guarded.elseCase) == 1;
      FrameStmt(st, guarded);
    case Store(_, _, _, _, _) => StoreExtends(st, s);
    case Atomic(_, _, _) => FrameAtomic(st, s);
    case Block(a, b) =>
      FrameStmt(st, a);
      var st2 := LowerStmt(st, a).value;
      FrameStmt(st2, b);
      ExtendsTrans(st, st2, LowerStmt(st2, b).value);
    case IfThenElse(_, _, _) => FrameIf(st, s);
    case Evaluate(e) => AppendExtends(st, LowerExpr(st.symbols, e).value.instrs);
    case NoOp => AppendExtends(st, []);
      assert st.body + [] == st.body;
  }

  lemma {:induction false} FrameGpuLoop(st: LState, s: Stmt)
    requires s.For? && IsGpuVar(s.name)
    requires WellFormed(st.symbols) && LowerGpuLoop(st, s).Ok?
    ensures Extends(st, LowerGpuLoop(st, s).value)
    decreases Rank(s), 0
  {
    var x := LowerExpr(st.symbols, RegisterRead(s.name)).value;
    var st1 := Bind(Append(st, x.instrs), s.name, x.value);
    AppendExtends(st, x.instrs);
    PushWellFormed(st.symbols, s.name, x.value);
    FrameStmt(st1, s.body);
    var st2 := LowerStmt(st1, s.body).value;
    UnbindExtends(st2, s.name);
    ExtendsTrans(st, st1, st2);
    ExtendsTrans(st, st2, Unbind(st2, s.name).value);
  }

  lemma {:induction false} FrameSerialLoop(st: LState, s: Stmt)
    requires s.For?
    requires WellFormed(st.symbols) && LowerSerialLoop(st, s).Ok?
    ensures Extends(st, LowerSerialLoop(st, s).value)
    decreases Rank(s), 0
  {
    var code := Then(InstrsOf(LowerExpr(st.symbols, s.min)), InstrsOf(LowerExpr(st.symbols, s.extent))).value;
    var header := LoopBegin(s.name, LowerExpr(st.symbols, s.min).value.value,
                            LowerExpr(st.symbols, s.extent).value.value);
    var st1 := Bind(Append(st, code + [header]), s.name, LoopCounter(s.name));
    AppendExtends(st, code + [header]);
    PushWellFormed(st.symbols, s.name, LoopCounter(s.name));
    FrameStmt(st1, s.body);
    var st2 := LowerStmt(st1, s.body).value;
    UnbindExtends(st2, s.name);
    var st3 := Unbind(st2, s.name).value;
    AppendExtends(st3, [LoopEnd]);
    ExtendsTrans(st, st1, st2);
    ExtendsTrans(st, st2, st3);
    ExtendsTrans(st, st3, Append(st3, [LoopEnd]));
  }

  lemma {:induction false} FrameAllocate(st: LState, s: Stmt)
    requires s.Allocate?
    requires WellFormed(st.symbols) && LowerAllocate(st, s).Ok?
    ensures Extends(st, LowerAllocate(st, s).value)
    decreases Rank(s), 0
  {
    if s.memoryType == GPUShared {
      var st1 := Bind(st, s.name, SharedBase);
      PushWellFormed(st.symbols, s.name, SharedBase);
      AppendExtends(st, []);
      assert st.body + [] == st.body;
      FrameStmt(st1, s.body);
      ExtendsTrans(st, st1, LowerStmt(st1, s.body).value);
    } else {
      var st1 := Bind(st.(entry := st.entry + [Alloca(s.ty, s.constantSize)]), s.name, StackSlot(|st.entry|));
      PushWellFormed(st.symbols, s.name, StackSlot(|st.entry|));
      assert st1.entry[..|st.entry|] == st.entry;
      assert Extends(st, st1);
      FrameStmt(st1, s.body);
      ExtendsTrans(st, st1, LowerStmt(st1, s.body).value);
    }
  }

  lemma {:induction false} FrameAtomic(st: LState, s: Stmt)
    requires s.Atomic?
    requires WellFormed(st.symbols) && LowerAtomic(st, s).Ok?
    ensures Extends(st, LowerAtomic(st, s).value)
    decreases Rank(s), 0
  {
    FrameStmt(st.(atomic := true), s.body);
  }

  lemma {:induction false} FrameIf(st: LState, s: Stmt)
    requires s.IfThenElse?
    requires WellFormed(st.symbols) && LowerIf(st, s).Ok?
    ensures Extends(st, LowerIf(st, s).value)
    decreases Rank(s), 0
  {
    var x := LowerExpr(st.symbols, s.condition).value;
    var st1 := Append(st, x.instrs + [Branch(x.value)]);
    AppendExtends(st, x.instrs + [Branch(x.value)]);
    FrameStmt(st1, s.thenCase);
    var st2 := LowerStmt(st1, s.thenCase).value;
    AppendExtends(st2, [ElseBranch]);
    FrameStmt(Append(st2, [ElseBranch]), s.elseCase);
    var st3 := LowerStmt(Append(st2, [ElseBranch]), s.elseCase).value;
    AppendExtends(st3, [EndBranch]);
    ExtendsTrans(st, st1, st2);
    ExtendsTrans(st, st2, Append(st2, [ElseBranch]));
    ExtendsTrans(st, Append(st2, [ElseBranch]), st3);
    ExtendsTrans(st, st3, Append(st3, [EndBranch]));
  }

  // ---------------------------------------------------------------------------
  // Bindings are scoped.

  /** The shape in which Halide's lowering hands statements to this code generator:
      every allocation's body frees it once, on the body's sequential spine, and no
      other `Free` occurs. */
  ghost predicate Scoped(s: Stmt)
  {
    match s
    case For(_, _, _, b) => Scoped(b)
    case Allocate(n, _, _, _, _, b) => FreedOnSpine(b, n)
    case Free(_) => false
    case Atomic(_, _, b) => Scoped(b)
    case Block(a, b) => Scoped(a) && Scoped(b)
    case IfThenElse(_, t, e) => Scoped(t) && Scoped(e)
    case _ => true
  }

  /** `Free(n)` occurs exactly once along the blocks of `s`, however they nest, and
      everything else in `s` is scoped. */
  ghost predicate FreedOnSpine(s: Stmt, n: string)
  {
    match s
    case Free(m) => m == n
    case Block(a, b) => (FreedOnSpine(a, n) && Scoped(b)) || (Scoped(a) && FreedOnSpine(b, n))
    case _ => false
  }

  /** Lowering a statement that frees `n` on its spine pops exactly the innermost
      binding of `n`. */
  lemma {:induction false} FreedOnSpinePops(st: LState, s: Stmt, n: string)
    requires WellFormed(st.symbols) && FreedOnSpine(s, n) && LowerStmt(st, s).Ok?
    ensures Pop(st.symbols, n).Some? && LowerStmt(st, s).value.symbols == Pop(st.symbols, n).value
    decreases Rank(s), 0
  {
    match s
    case Free(_) =>
    case Block(a, b) =>
      var st1 := LowerStmt(st, a).value;
      if FreedOnSpine(a, n) && Scoped(b) {
        FreedOnSpinePops(st, a, n);
        PopWellFormed(st.symbols, n);
        ScopedKeepsSymbols(st1, b);
      } else {
        ScopedKeepsSymbols(st, a);
        FreedOnSpinePops(st1, b, n);
      }
  }

  /** Whichever way the blocks around an allocation's final `Free` are bracketed,
      the allocation is scoped as long as the rest of its body is. */
  lemma ScopedAnyBracketing(n: string, t: Type, m: MemoryType, size: int, newExpr: bool, a: Stmt, b: Stmt)
    requires Scoped(a) && Scoped(b)
    ensures Scoped(Allocate(n, t, m, size, newExpr, Stmt.Block(a, Stmt.Block(b, Free(n)))))
    ensures Scoped(Allocate(n, t, m, size, newExpr, Stmt.Block(Stmt.Block(a, b), Free(n))))
    ensures Scoped(Allocate(n, t, m, size, newExpr, Stmt.Block(a, Stmt.Block(Free(n), b))))
  {
    assert FreedOnSpine(Stmt.Block(b, Free(n)), n);
    assert FreedOnSpine(Stmt.Block(Free(n), b), n);
  }

  /** Lowering a scoped statement leaves the symbol table exactly as it found it:
      every binding a loop or an allocation makes is released. */
  lemma {:induction false} ScopedKeepsSymbols(st: LState, s: Stmt)
    requires WellFormed(st.symbols) && Scoped(s) && LowerStmt(st, s).Ok?
    ensures LowerStmt(st, s).value.symbols == st.symbols
    decreases Rank(s), 1
  {
    match s
    case For(n, _, _, _) =>
      if IsGpuVar(n) {
        ScopedGpuLoop(st, s);
      } else {
        ScopedSerialLoop(st, s);
      }
    case Allocate(_, _, _, _, _, _) => ScopedAllocate(st, s);
    case AssertStmt(c, _) =>
      var guarded := IfThenElse(Not(c), Evaluate(Trap), NoOp);
      assert Rank(guarded.thenCase) == 1 && Rank(guarded.elseCase) == 1;
      ScopedIf(st, guarded);
    case Store(_, _, _, _, _) =>
      StoreLowersOnce(st, s);
    case Atomic(_, _, b) =>
      ScopedKeepsSymbols(st.(atomic := true), b);
    case Block(a, b) =>
      ScopedKeepsSymbols(st, a);
      ScopedKeepsSymbols(LowerStmt(st, a).value, b);
    case IfThenElse(_, _, _) => ScopedIf(st, s);
    case Evaluate(_) =>
    case NoOp =>
  }

  lemma {:induction false} ScopedGpuLoop(st: LState, s: Stmt)
    requires s.For? && IsGpuVar(s.name)
    requires WellFormed(st.symbols) && Scoped(s) && LowerGpuLoop(st, s).Ok?
    ensures LowerGpuLoop(st, s).value.symbols == st.symbols
    decreases Rank(s), 0
  {
    var x := LowerExpr(st.symbols, RegisterRead(s.name)).value;
    var st1 := Bind(Append(st, x.instrs), s.name, x.value);
    PushWellFormed(st.symbols, s.name, x.value);
    ScopedKeepsSymbols(st1, s.body);
    PopUndoesPush(st.symbols, s.name, x.value);
  }

  lemma {:induction false} ScopedSerialLoop(st: LState, s: Stmt)
    requires s.For?
    requires WellFormed(st.symbols) && Scoped(s) && LowerSerialLoop(st, s).Ok?
    ensures LowerSerialLoop(st, s).value.symbols == st.symbols
    decreases Rank(s), 0
  {
    var code := Then(InstrsOf(LowerExpr(st.symbols, s.min)), InstrsOf(LowerExpr(st.symbols, s.extent))).value;
    var header := LoopBegin(s.name, LowerExpr(st.symbols, s.min).value.value,
                            LowerExpr(st.symbols, s.extent).value.value);
    var st1 := Bind(Append(st, code + [header]), s.name, LoopCounter(s.name));
    PushWellFormed(st.symbols, s.name, LoopCounter(s.name));
    ScopedKeepsSymbols(st1, s.body);
    PopUndoesPush(st.symbols, s.name, LoopCounter(s.name));
  }

  lemma {:induction false} ScopedAllocate(st: LState, s: Stmt)
    requires s.Allocate?
    requires WellFormed(st.symbols) && Scoped(s) && LowerAllocate(st, s).Ok?
    ensures LowerAllocate(st, s).value.symbols == st.symbols
    decreases Rank(s), 0
  {
    var n, b := s.name, s.body;
    var v := if s.memoryType == GPUShared then SharedBase else StackSlot(|st.entry|);
    var st1 := if s.memoryType == GPUShared then Bind(st, n, v)
               else Bind(st.(entry := st.entry + [Alloca(s.ty, s.constantSize)]), n, v);
    assert LowerAllocate(st, s) == LowerStmt(st1, b);
    PushWellFormed(st.symbols, n, v);
    FreedOnSpinePops(st1, b, n);
    PopUndoesPush(st.symbols, n, v);
  }

  lemma {:induction false} ScopedIf(st: LState, s: Stmt)
    requires s.IfThenElse?
    requires WellFormed(st.symbols) && Scoped(s) && LowerIf(st, s).Ok?
    ensures LowerIf(st, s).value.symbols == st.symbols
    decreases Rank(s), 0
  {
    var x := LowerExpr(st.symbols, s.condition).value;
    var st1 := Append(st, x.instrs + [Branch(x.value)]);
    ScopedKeepsSymbols(st1, s.thenCase);
    ScopedKeepsSymbols(Append(LowerStmt(st1, s.thenCase).value, [ElseBranch]), s.elseCase);
  }

  // ---------------------------------------------------------------------------
  // The PTX-specific visitors.

  /** A thread barrier needs exactly one argument, a constant integer fence type; it
      always emits the same full barrier, whatever the fence, and yields 0. */
  lemma BarrierLowering(syms: Table<Value>, t: Type, args: seq<Expr>)
    ensures var r := LowerExpr(syms, Call(t, "gpu_thread_barrier", args, Intrinsic));
      && (|args| != 1 ==> r == Err(BarrierArity))
      && (|args| == 1 && !IsConstInt(args[0]) ==> r == Err(BarrierFenceNotConstant))
      && (|args| == 1 && IsConstInt(args[0]) ==> r == Ok(Emitted([Barrier], Constant(0))))
  {
  }

  /** The same call that is not the barrier intrinsic emits no barrier. */
  lemma ExternCallIsNotBarrier(syms: Table<Value>, t: Type, args: seq<Expr>)
    requires LowerExpr(syms, Call(t, "gpu_thread_barrier", args, Extern)).Ok?
    ensures Barrier !in LowerExpr(syms, Call(t, "gpu_thread_barrier", args, Extern)).value.instrs[|LowerAll(syms, args).value|..]
  {
  }

  /** Evaluating the trap only calls `halide_ptx_trap`. */
  lemma TrapLowering(st: LState)
    ensures LowerStmt(st, Evaluate(Trap)) == Ok(Append(st, [CallInstr("halide_ptx_trap")]))
  {
    assert LowerAll(st.symbols, []) == Ok([]);
    assert [] + [CallInstr("halide_ptx_trap")] == [CallInstr("halide_ptx_trap")];
    assert LowerExpr(st.symbols, Trap) == Ok(Emitted([CallInstr("halide_ptx_trap")], Computed(Trap)));
  }

  /** An assertion discards its message and becomes a conditional trap: the negated
      condition's code, then a branch whose taken side only calls `halide_ptx_trap`. */
  lemma AssertLowering(st: LState, c: Expr, m1: Expr, m2: Expr)
    ensures LowerStmt(st, AssertStmt(c, m1)) == LowerStmt(st, AssertStmt(c, m2))
    ensures LowerStmt(st, AssertStmt(c, m1)).Ok? <==> LowerExpr(st.symbols, c).Ok?
    ensures LowerExpr(st.symbols, c).Ok? ==>
              var x := LowerExpr(st.symbols, Not(c)).value;
              LowerStmt(st, AssertStmt(c, m1)) ==
              Ok(Append(st, x.instrs + [Branch(x.value), CallInstr("halide_ptx_trap"), ElseBranch, EndBranch]))
  {
    var guarded := IfThenElse(Not(c), Evaluate(Trap), NoOp);
    assert LowerStmt(st, AssertStmt(c, m1)) == LowerIf(st, guarded);
    assert LowerStmt(st, AssertStmt(c, m2)) == LowerIf(st, guarded);
    var rc := LowerExpr(st.symbols, Not(c));
    assert rc.Ok? <==> LowerExpr(st.symbols, c).Ok?;
    if rc.Ok? {
      var x := rc.value;
      var st1 := Append(st, x.instrs + [Branch(x.value)]);
      TrapLowering(st1);
      var st2 := Append(st1, [CallInstr("halide_ptx_trap")]);
      var st3 := Append(st2, [ElseBranch]);
      assert LowerStmt(st3, NoOp) == Ok(st3);
      assert LowerIf(st, guarded) == Ok(Append(st3, [EndBranch]));
      assert st.body + (x.instrs + [Branch(x.value)]) + [CallInstr("halide_ptx_trap")] + [ElseBranch] + [EndBranch] ==
             st.body + (x.instrs + [Branch(x.value), CallInstr("halide_ptx_trap"), ElseBranch, EndBranch]);
    } else {
      assert LowerIf(st, guarded).Err?;
    }
  }

  /** A conditional on a bound name with empty branches emits the branch on its binding. */
  lemma BranchOnBinding(st: LState, t: Type, n: string, v: Value)
    requires Lookup(st.symbols, n) == Some(v)
    ensures LowerStmt(st, IfThenElse(Variable(t, n), NoOp, NoOp)) == Ok(Append(st, [Branch(v), ElseBranch, EndBranch]))
  {
    var c := IfThenElse(Variable(t, n), NoOp, NoOp);
    assert LowerExpr(st.symbols, Variable(t, n)) == Ok(Emitted([], v));
    var st3 := Append(Append(Append(st, [] + [Branch(v)]), [ElseBranch]), [EndBranch]);
    assert LowerStmt(st, c) == LowerIf(st, c) == Ok(st3);
    assert st.body + ([] + [Branch(v)]) + [ElseBranch] + [EndBranch] == st.body + [Branch(v), ElseBranch, EndBranch];
  }

  /** A GPU loop whose minimum is not the constant zero is an internal error. */
  lemma GpuLoopMinMustBeZero(st: LState, n: string, mn: Expr, ext: Expr, b: Stmt)
    requires IsGpuVar(n) && !IsConstZero(mn)
    ensures LowerStmt(st, For(n, mn, ext, b)) == Err(GpuLoopMinNotZero(n))
  {
  }

  /** A GPU loop emits no loop: it reads the axis register once and lowers the body
      once with the loop variable bound to that read (here a body that branches on
      the variable); its extent is not lowered at all; and the binding is released
      afterwards. */
  lemma GpuLoopReadsRegister(st: LState, n: string, ext: Expr)
    requires WellFormed(st.symbols) && IsGpuVar(n)
    ensures SimtIntrinsic(n).Some?
    ensures LowerStmt(st, For(n, IntImm(IntType(32, 1), 0), ext, IfThenElse(Variable(IntType(32, 1), n), NoOp, NoOp))) ==
            Ok(Append(st, [CallInstr(SimtIntrinsic(n).value), Branch(Computed(RegisterRead(n))), ElseBranch, EndBranch]))
  {
    SimtIntrinsicDefinedIff(n);
    var read := RegisterRead(n);
    var body := IfThenElse(Variable(IntType(32, 1), n), NoOp, NoOp);
    var s := For(n, IntImm(IntType(32, 1), 0), ext, body);
    var code := [CallInstr(SimtIntrinsic(n).value)];
    assert LowerAll(st.symbols, []) == Ok([]);
    assert [] + code == code;
    assert LowerExpr(st.symbols, read) == Ok(Emitted(code, Computed(read)));
    var st1 := Bind(Append(st, code), n, Computed(read));
    BranchOnBinding(st1, IntType(32, 1), n, Computed(read));
    var st3 := Append(st1, [Branch(Computed(read)), ElseBranch, EndBranch]);
    PopUndoesPush(st.symbols, n, Computed(read));
    assert Unbind(st3, n) == Ok(st3.(symbols := st.symbols));
    assert LowerGpuLoop(st, s) == Unbind(st3, n);
    assert LowerStmt(st, s) == LowerGpuLoop(st, s);
    assert st.body + code + [Branch(Computed(read)), ElseBranch, EndBranch] ==
           st.body + [CallInstr(SimtIntrinsic(n).value), Branch(Computed(read)), ElseBranch, EndBranch];
    assert st3.(symbols := st.symbols) ==
           Append(st, [CallInstr(SimtIntrinsic(n).value), Branch(Computed(read)), ElseBranch, EndBranch]);
  }

  /** For a loop variable naming axis `(a, d)`, the register read is that axis's. */
  lemma GpuLoopScenario(st: LState, prefix: string, a: Axis, d: Dim, ext: Expr)
    requires WellFormed(st.symbols)
    ensures var n := prefix + AxisSuffix(a, d);
      var read := Call(IntType(32, 1), RegisterIntrinsic(a, d), [], Extern);
      LowerStmt(st, For(n, IntImm(IntType(32, 1), 0), ext, IfThenElse(Variable(IntType(32, 1), n), NoOp, NoOp))) ==
      Ok(Append(st, [CallInstr(RegisterIntrinsic(a, d)), Branch(Computed(read)), ElseBranch, EndBranch]))
  {
    var n := prefix + AxisSuffix(a, d);
    SimtIntrinsicOfAxis(prefix, a, d);
    SimtIntrinsicDefinedIff(n);
    GpuLoopReadsRegister(st, n, ext);
  }

  /** An allocation with a custom allocator is refused, and one outside shared memory
      needs a positive constant size. */
  lemma AllocateChecks(st: LState, n: string, ty: Type, mt: MemoryType, size: int, hasNewExpr: bool, b: Stmt)
    ensures hasNewExpr ==> LowerStmt(st, Allocate(n, ty, mt, size, hasNewExpr, b)) == Err(AllocationWithNewExpr(n))
    ensures !hasNewExpr && mt != GPUShared && size <= 0 ==>
              LowerStmt(st, Allocate(n, ty, mt, size, hasNewExpr, b)) == Err(DynamicAllocationSize(n))
  {
  }

  /** Inside its allocation a buffer is bound to the shared base (shared memory, with
      no alloca) or to the alloca appended to the entry block; its `Free` releases it. */
  lemma AllocateScenario(st: LState, n: string, ty: Type, mt: MemoryType, size: int)
    requires WellFormed(st.symbols)
    requires mt == GPUShared || size > 0
    ensures var v := if mt == GPUShared then SharedBase else StackSlot(|st.entry|);
      var entry := if mt == GPUShared then st.entry else st.entry + [Alloca(ty, size)];
      var body := Stmt.Block(IfThenElse(Variable(UIntType(8, 1), n), NoOp, NoOp), Free(n));
      LowerStmt(st, Allocate(n, ty, mt, size, false, body)) ==
      Ok(st.(entry := entry, body := st.body + [Branch(v), ElseBranch, EndBranch]))
  {
    var v := if mt == GPUShared then SharedBase else StackSlot(|st.entry|);
    var entry := if mt == GPUShared then st.entry else st.entry + [Alloca(ty, size)];
    var cond := IfThenElse(Variable(UIntType(8, 1), n), NoOp, NoOp);
    var body := Stmt.Block(cond, Free(n));
    var s := Allocate(n, ty, mt, size, false, body);
    var st1 := st.(entry := entry, symbols := Push(st.symbols, n, v));
    assert LowerAllocate(st, s) == LowerStmt(st1, body);
    BranchOnBinding(st1, UIntType(8, 1), n, v);
    var st3 := Append(st1, [Branch(v), ElseBranch, EndBranch]);
    PopUndoesPush(st.symbols, n, v);
    assert LowerStmt(st3, Free(n)) == Ok(st3.(symbols := st.symbols));
  }

  /** `Free` releases the innermost binding, and freeing an unbound name is an
      internal error. */
  lemma FreeReleases(st: LState, n: string, v: Value)
    requires WellFormed(st.symbols)
    ensures LowerStmt(Bind(st, n, v), Free(n)) == Ok(st)
    ensures |Scope.Stack(st.symbols, n)| == 0 ==> LowerStmt(st, Free(n)) == Err(PopOfUnbound(n))
  {
    PopUndoesPush(st.symbols, n, v);
  }

  /** An atomic region that needs a mutex is refused, whatever its body. */
  lemma AtomicMutexRefused(st: LState, p: string, mutex: string, b: Stmt)
    requires mutex != ""
    ensures LowerStmt(st, Atomic(p, mutex, b)) == Err(AtomicWithMutex(p))
  {
  }

  /** The errors expression lowering can raise. */
  predicate IsExprError(err: LoweringError)
  {
    err.UnboundSymbol? || err.BarrierArity? || err.BarrierFenceNotConstant?
  }

  /** Lowering an expression fails only on an unbound name or a malformed barrier. */
  lemma {:induction false} ExprErrors(syms: Table<Value>, e: Expr)
    ensures LowerExpr(syms, e).Err? ==> IsExprError(LowerExpr(syms, e).error)
    decreases e
  {
    match e
    case IntImm(_, _) =>
    case Variable(_, _) =>
    case Broadcast(v, _) => ExprErrors(syms, v);
    case Ramp(b, x, _) => ExprErrors(syms, b); ExprErrors(syms, x);
    case Add(a, b) => ExprErrors(syms, a); ExprErrors(syms, b);
    case Mul(a, b) => ExprErrors(syms, a); ExprErrors(syms, b);
    case Div(a, b) => ExprErrors(syms, a); ExprErrors(syms, b);
    case Not(a) => ExprErrors(syms, a);
    case Cast(_, v) => ExprErrors(syms, v);
    case Reinterpret(_, v) => ExprErrors(syms, v);
    case Load(_, _, index, pred, _) =>
      ExprErrors(syms, index);
      ExprErrors(syms, pred);
      if index.Ramp? {
        ExprErrors(syms, index.base);
      }
    case Call(_, _, args, _) => AllErrors(syms, args);
    case ExtractElement(v, _) => ExprErrors(syms, v);
    case Slice(v, _, _, _) => ExprErrors(syms, v);
    case Concat(vs) => AllErrors(syms, vs);
  }

  lemma {:induction false} AllErrors(syms: Table<Value>, es: seq<Expr>)
    ensures LowerAll(syms, es).Err? ==> IsExprError(LowerAll(syms, es).error)
    decreases es
  {
    if es != [] {
      ExprErrors(syms, es[0]);
      AllErrors(syms, es[1..]);
    }
  }

  /** While atomic stores are on, a predicated store and a store narrower than 32 bits
      are user errors; with them off neither error can arise from a store. */
  lemma AtomicStoreChecks(st: LState, s: Stmt)
    requires s.Store?
    ensures st.atomic && !IsConstOne(s.pred) ==> LowerStmt(st, s) == Err(PredicatedAtomicStore(s.name))
    ensures st.atomic && IsConstOne(s.pred) && TypeOf(s.value).bits < 32 ==>
              LowerStmt(st, s) == Err(NarrowAtomicStore(s.name))
    ensures !st.atomic ==> LowerStmt(st, s) != Err(PredicatedAtomicStore(s.name)) &&
                           LowerStmt(st, s) != Err(NarrowAtomicStore(s.name))
  {
    StoreLowersOnce(st, s);
    if !st.atomic {
      var f := if FuseStore(s).Some? then FuseStore(s).value else s;
      ExprErrors(st.symbols, f.value);
      ExprErrors(st.symbols, f.index);
      ExprErrors(st.symbols, f.pred);
    }
  }

  /** A store emits one store instruction into the buffer's binding: the 128-bit word
      at the quarter index when the rewrite fires, the original otherwise; it is
      atomic exactly when atomic stores are on. */
  lemma StoreEmits(st: LState, s: Stmt)
    requires s.Store? && LowerStmt(st, s).Ok?
    ensures var st2 := LowerStmt(st, s).value;
      && Lookup(st.symbols, s.name).Some? && |st2.body| > |st.body|
      && st2.symbols == st.symbols && st2.entry == st.entry && st2.atomic == st.atomic
      && (FuseStore(s).Some? ==>
            st2.body[|st2.body| - 1] ==
            StoreInstr(Lookup(st.symbols, s.name).value, UIntType(128, 1), QuarterIndex(s.index),
                       AlignmentDiv(s.alignment, 4), st.atomic))
      && (FuseStore(s).None? ==>
            st2.body[|st2.body| - 1] ==
            StoreInstr(Lookup(st.symbols, s.name).value, TypeOf(s.value), s.index, s.alignment, st.atomic))
  {
    StoreLowersOnce(st, s);
    if FuseStore(s).Some? {
      FuseStoreResult(s);
      var f := FuseStore(s).value;
      assert TypeOf(f.value) == UIntType(128, 1);
      assert LowerStmt(st, s) == StoreInto(st, f);
    } else {
      assert LowerStmt(st, s) == StoreInto(st, s);
    }
  }

  /** The body of an atomic region stores atomically, and the flag is off again after
      the region when it was off before. */
  lemma AtomicRegionStores(st: LState, p: string, s: Stmt)
    requires s.Store? && LowerStmt(st, Atomic(p, "", s)).Ok?
    ensures var st2 := LowerStmt(st, Atomic(p, "", s)).value;
      && st2.atomic == st.atomic && |st2.body| > 0
      && st2.body[|st2.body| - 1].StoreInstr? && st2.body[|st2.body| - 1].atomic
  {
    StoreEmits(st.(atomic := true), s);
  }

  /** A load emits, after its operands' code, one load from the buffer's binding: the
      128-bit word at the quarter index when the rewrite fires, the original otherwise. */
  lemma LoadEmits(syms: Table<Value>, e: Expr)
    requires e.Load? && LowerExpr(syms, e).Ok?
    ensures var x := LowerExpr(syms, e).value;
      && |x.instrs| > 0 && Lookup(syms, e.name).Some?
      && (FuseLoad(e).Some? ==>
            x.instrs[|x.instrs| - 1] ==
            LoadInstr(UIntType(128, 1), Lookup(syms, e.name).value, QuarterIndex(e.index), AlignmentDiv(e.alignment, 4))
            && x.value == Computed(FuseLoad(e).value))
      && (FuseLoad(e).None? ==>
            x.instrs[|x.instrs| - 1] == LoadInstr(e.ty, Lookup(syms, e.name).value, e.index, e.alignment)
            && x.value == Computed(e))
  {
  }

  // ---------------------------------------------------------------------------
  // Kernels.

  /** A kernel whose body is scoped and lowers is added: the symbol table is as before,
      the atomic flag too, the parameters follow the arguments, the body block ends
      with the return and the entry block holds only allocas and then the branch to
      the body. */
  lemma AddKernelFacts(st: LState, stmt: Stmt, name: string, args: seq<DeviceArgument>)
    requires WellFormed(st.symbols) && Scoped(stmt)
    requires LowerStmt(LState(PushAll(st.symbols, ArgNames(args), ArgValues(|args|)), st.atomic, [], []), stmt).Ok?
    ensures AddKernelSpec(st, stmt, name, args).Ok?
    ensures var (st2, k) := AddKernelSpec(st, stmt, name, args).value;
      && st2.symbols == st.symbols && st2.atomic == st.atomic
      && k.name == name && k.params == ParamTypes(args)
      && k.entry == st2.entry && k.body == st2.body
      && |k.body| > 0 && k.body[|k.body| - 1] == ReturnVoid
      && |k.entry| > 0 && k.entry[|k.entry| - 1] == Jump
      && forall i :: 0 <= i < |k.entry| - 1 ==> k.entry[i].Alloca?
  {
    var t1 := PushAll(st.symbols, ArgNames(args), ArgValues(|args|));
    PushAllWellFormed(st.symbols, ArgNames(args), ArgValues(|args|));
    var st1 := LState(t1, st.atomic, [], []);
    FrameStmt(st1, stmt);
    ScopedKeepsSymbols(st1, stmt);
    PushAllPopAll(st.symbols, ArgNames(args), ArgValues(|args|));
    var st2 := LowerStmt(st1, stmt).value;
    forall i | 0 <= i < |st2.entry| ensures (st2.entry + [Jump])[i].Alloca? {
      assert (st2.entry + [Jump])[i] == st2.entry[i];
    }
  }
}
