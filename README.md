# Halide's PTX device code generator, modelled in Dafny

This project models the decision layer of Halide's CUDA/PTX device back end,
`CodeGen_PTX_Dev`. That layer covers:

- how a target's CUDA compute-capability flags pick the `sm_XX` processor name and the PTX ISA feature string;
- which atomic adds the target supports;
- how a GPU loop variable is mapped to the special register that holds the thread or block index;
- the rewrite of dense, aligned four-lane 32-bit loads and stores into one 128-bit access;
- the `dp4a`/`dp2a` dot-product rewrite of 8- and 16-bit vector sums of products;
- how kernel statements are lowered over a symbol table with push/pop discipline.

The symbol table maps each name to a stack of bindings. Lowering also tracks the scoped atomic-store flag, an entry block that receives allocas, and a body block. Special cases are the thread barrier, the assertion trap, and the allocation rules.

Modules:

- `HalideType`, `Ir`: Halide's scalar/vector types, and the fragment of its IR that the generator inspects.
- `PtxTarget`: `mcpu`, `mattrs`, `supports_atomic_add`, `native_vector_bits`.
- `SimtAxis`: `simt_intrinsic` and the GPU axis names.
- `WideAccess`: the 128-bit rewrite of loads and stores. It also holds a word-level memory semantics that shows the rewrite preserves meaning.
- `DotProduct`: `codegen_vector_reduce`, as the code generator runs it. That means in-place narrowing, the operand swap, and the lane and word loops. It is proved equal to a declarative statement of the rewrite.
- `Scope`: the name→stack symbol table (`sym_push`, `sym_pop`, `sym_get`).
- `PtxLowering`: lowering of statements and expressions as functions over an abstract state. Instructions are recorded per block.
- `LoweringFacts`: what lowering guarantees:
  - the frame (allocas only in the entry block, the body only appended to, the atomic flag restored);
  - the scoping of bindings;
  - the behaviour of each PTX-specific visitor.
- `PtxCodeGen`: the code generator as a class. Its fields are the symbol table, `emit_atomic_stores`, the two blocks and the kernels. Its visitor methods update them step by step and are proved to reach the states the lowering functions describe.

Calls into code outside this file are modelled as follows:

- `lossless_cast` is an oracle parameter.
- `simplify` and `common_subexpression_elimination` preserve values and are taken as the identity.
- `reinterpret` and the `Shuffle` constructors are IR nodes (`Reinterpret`, `ExtractElement`, `Slice`, `Concat`).
- The generic `CodeGen_LLVM` paths are an assumed behaviour, described under "Left out". The PTX visitors fall through to them.

## Model

| member | source | states |
|---|---|---|
| PtxTarget.McpuIsFirstMatch | src/CodeGen_PTX_Dev.cpp:547-567 | the processor name is the first row, newest to oldest, whose capability flag is present, and `sm_20` when none is |
| PtxTarget.McpuIsNewest | src/CodeGen_PTX_Dev.cpp:547-567 | the processor name is the `sm_XX` of the newest capability flag present |
| PtxTarget.McpuDefault | src/CodeGen_PTX_Dev.cpp:564-566 | `sm_20` is chosen exactly when no capability flag is present |
| PtxTarget.MattrsIsFirstMatch | src/CodeGen_PTX_Dev.cpp:569-585 | the feature string follows the source's groups in order (80; 70 or 75; 61; 32 or 50), with the empty default |
| PtxTarget.MattrsIsNewestFeatureFlag | src/CodeGen_PTX_Dev.cpp:569-585 | the feature string is that of the newest flag other than 35 and 30 |
| PtxTarget.MattrsDefault | src/CodeGen_PTX_Dev.cpp:582-584 | the empty feature string is chosen exactly when every flag present is 35 or 30 |
| PtxTarget.MattrsNotByNewestFlag | src/CodeGen_PTX_Dev.cpp:547-585 | an illustration of the general MattrsIsNewestFeatureFlag on one input: flags {35, 32} give processor `sm_35`, but the feature string chosen for 32 |
| PtxTarget.ResolutionMonotone | src/CodeGen_PTX_Dev.cpp:547-585 | adding capability flags never selects an older processor or an older PTX ISA |
| PtxTarget.NewestFlagResolvesNewest | src/CodeGen_PTX_Dev.cpp:547-585 | flag 80 alone gives `sm_80`, and no flag set gives a newer processor or ISA |
| PtxTarget.LowerBoundIsOldest | src/CodeGen_PTX_Dev.cpp:794-795 | the capability lower bound consulted for double atomics is the oldest generation present |
| PtxTarget.AtomicAddNarrow | src/CodeGen_PTX_Dev.cpp:782-786 | atomic adds narrower than 32 bits are never supported |
| PtxTarget.AtomicAddByKind | src/CodeGen_PTX_Dev.cpp:787-797 | integer atomic adds of at least 32 bits and 32-bit float atomic adds are always supported; other kinds and float widths are not |
| PtxTarget.AtomicAddFloat64 | src/CodeGen_PTX_Dev.cpp:793-796 | a 64-bit float atomic add is supported exactly when some flag is present and every flag present is at least 6.1 |
| PtxTarget.NativeVectorBits | src/CodeGen_PTX_Dev.cpp:765-768 | the native vector width is the width of a double, 64 bits |
| SimtAxis.SimtIntrinsicOfAxis | src/CodeGen_PTX_Dev.cpp:254-274 | a name ending in an axis suffix maps to that axis's `tid`/`ctaid` register read, whatever comes before the suffix |
| SimtAxis.SimtIntrinsicSound | src/CodeGen_PTX_Dev.cpp:254-274 | every register returned is that of an axis whose suffix the name carries |
| SimtAxis.SimtIntrinsicDefinedIff | src/CodeGen_PTX_Dev.cpp:254-274 | the lookup is defined exactly on GPU axis variables; on any other name it is the internal error |
| WideAccess.FuseLoadBoundaries | src/CodeGen_PTX_Dev.cpp:334-338 | each condition of the load rewrite (true predicate, ramp, stride one, four lanes, 32 bits, alignment by 4), broken on its own, turns the rewrite off |
| WideAccess.FuseLoadResult | src/CodeGen_PTX_Dev.cpp:339-344 | the rewritten load is one unpredicated `UInt(128)` load of the same buffer, at base/4, with the alignment divided by 4, reinterpreted to the original type, and not rewritten again |
| WideAccess.FuseStoreBoundaries | src/CodeGen_PTX_Dev.cpp:359-363 | each condition of the store rewrite, broken on its own, turns the rewrite off |
| WideAccess.FuseStoreResult | src/CodeGen_PTX_Dev.cpp:363-369 | the rewritten store writes the value reinterpreted as 128 bits at base/4, unpredicated, with the alignment divided by 4; it is not rewritten again and passes the atomic checks |
| WideAccess.FusedLoadEquivalent | src/CodeGen_PTX_Dev.cpp:333-345 | for every memory and every base the alignment admits, the 128-bit load at base/4, split into lanes, equals the four 32-bit lanes at base |
| WideAccess.FusedStoreEquivalent | src/CodeGen_PTX_Dev.cpp:358-370 | the 128-bit store leaves memory exactly as the four 32-bit lane stores do |
| WideAccess.FusedStoreLoadRoundTrip | src/CodeGen_PTX_Dev.cpp:331-373 | a fused store and then a fused load give back the stored lanes, as the lane-by-lane path does |
| WideAccess.QuarterIndexExact | src/CodeGen_PTX_Dev.cpp:338-340 | alignment by 4 makes every admitted base a multiple of 4, and the divided alignment admits base/4 |
| WideAccess.UnpackPack | src/CodeGen_PTX_Dev.cpp:343 | reinterpreting four words as 128 bits and back is the identity |
| WideAccess.PackedLow | src/CodeGen_PTX_Dev.cpp:343 | lane 0 of four packed words is the first word (the low 32 bits) |
| WideAccess.PackedHigh | src/CodeGen_PTX_Dev.cpp:343 | lane 3 of four packed words is the last word (the high 32 bits) |
| Ir.AlignmentDivSound | src/CodeGen_PTX_Dev.cpp:340 | `align / 4` describes x/4 for every x that `align` describes, when modulus and remainder are multiples of 4 |
| DotProduct.NarrowOperands | src/CodeGen_PTX_Dev.cpp:401-427 | the in-place narrowing, swap and 16-bit retry yield two operands exactly when the declarative rule does, and the same operands |
| DotProduct.NarrowedWidths | src/CodeGen_PTX_Dev.cpp:401-427 | `b` is always an 8-bit integer operand and `a` an 8- or 16-bit one, each with the input lane count |
| DotProduct.SignedTriedFirst | src/CodeGen_PTX_Dev.cpp:403-424 | each operand that narrows to 8 bits takes Int8 when it can and UInt8 otherwise for a signed reduction, and UInt8 for an unsigned one, in the position it ends up in (`y` as `b`; `x` as `a`, or swapped into `b` when only `x` narrows); an unsigned reduction never uses a signed operand type |
| DotProduct.SixteenBitRetry | src/CodeGen_PTX_Dev.cpp:417-429 | when only one operand narrows to 8 bits (either one), the other becomes `a` and is tried as UInt16, then (signed only) Int16; each success gives exactly that operand pair, and the rewrite fails only when both tries fail |
| DotProduct.NoEightBitOperand | src/CodeGen_PTX_Dev.cpp:418-431 | with neither operand at 8 bits the rewrite does not fire |
| DotProduct.InstructionName | src/CodeGen_PTX_Dev.cpp:433-447 | the name built piece by piece is the table entry for (a is 8-bit, a signed, b signed): `dp4a`/`dp2a` then `_s32`/`_u32` twice |
| DotProduct.Repack | src/CodeGen_PTX_Dev.cpp:454-477 | each operand re-expressed as 32-bit words has type Int(32, input_lanes / (32 / bits)) |
| DotProduct.RepackedLoadIndex | src/CodeGen_PTX_Dev.cpp:458-473 | a re-issued load reads the same buffer at type Int(32, input_lanes / sub); its index is the old ramp base divided by sub, as a dense ramp of that many words when input_lanes > sub; the old base is an exact multiple of sub and the divided alignment admits the quotient |
| DotProduct.RepackedLoadEquivalent | src/CodeGen_PTX_Dev.cpp:454-477 | for every buffer content and every admitted base, the load that `Repack` re-issues, at its own index and lane count, reads the same words as reinterpreting the 8- or 16-bit lanes of the original dense load |
| DotProduct.ByteWordsEquivalent | src/CodeGen_PTX_Dev.cpp:454-477 | for 8-bit elements and a 4-aligned base, the words loaded from base / 4 are the reinterpreted groups of four lanes |
| DotProduct.HalfwordWordsEquivalent | src/CodeGen_PTX_Dev.cpp:454-477 | for 16-bit elements and a 2-aligned base, the words loaded from base / 2 are the reinterpreted pairs of lanes |
| DotProduct.WordsPerSum | src/CodeGen_PTX_Dev.cpp:449-450 | `b` contributes factor/4 words per output lane; `a` the same, or twice as many when it is 16-bit |
| DotProduct.SliceShapes | src/CodeGen_PTX_Dev.cpp:502-531 | per lane, the slices have equal lane counts (8-bit `a`) or `a` has twice as many (16-bit `a`), so the internal assertion at line 516 holds |
| DotProduct.CallArity | src/CodeGen_PTX_Dev.cpp:502-531 | a dp4a call (8-bit `a`) takes word `k` of the `a` slice, word `k` of the `b` slice and the accumulator (the slices themselves when they are scalar); a dp2a call (16-bit `a`) takes words `2k` and `2k+1` of the `a` slice, word `k` of the `b` slice and the accumulator; the name is the plan's and the result has the accumulator's type |
| DotProduct.ChainLength | src/CodeGen_PTX_Dev.cpp:502-531 | the word loop nests exactly `n` fused calls on the accumulator and keeps its type |
| DotProduct.ChainCalls | src/CodeGen_PTX_Dev.cpp:502-531 | the word loop builds the chain of fused calls onto the lane's accumulator |
| DotProduct.BuildLanes | src/CodeGen_PTX_Dev.cpp:479-534 | the lane loop pushes, in lane order, each lane's chain over its accumulator, `a` and `b` slices |
| DotProduct.FusedShape | src/CodeGen_PTX_Dev.cpp:386-541 | when both operands narrow, the result is the concatenation of one chain per output lane; each chain has factor/4 calls to the instruction chosen from the operand widths and signedness |
| DotProduct.FusedIff | src/CodeGen_PTX_Dev.cpp:392-396 | the rewrite fires exactly on a sum of a product with a factor that is a multiple of 4 and 32-bit integer lanes, whose operands narrow |
| DotProduct.CodegenVectorReduce | src/CodeGen_PTX_Dev.cpp:386-541 | the procedure returns the declarative rewrite, the fused expression or the generic fallback |
| Scope.Push | src/CodeGen_PTX_Dev.cpp:176 | a push adds the binding on top of its name's stack and leaves other names alone |
| Scope.Pop | src/CodeGen_PTX_Dev.cpp:221-223 | a pop removes the top binding of its name; popping a name without bindings is an error |
| Scope.Lookup | src/CodeGen_PTX_Dev.cpp:280-282 | a lookup of a name (the loop variable, inside the body) reads its innermost binding |
| Scope.PopUndoesPush | src/CodeGen_PTX_Dev.cpp:280-284 | a pop right after a push restores the table exactly, and a shadowed binding becomes visible again |
| Scope.PushAllPopAll | src/CodeGen_PTX_Dev.cpp:169-223 | binding a kernel's argument names in order and releasing them in the same order restores the table, even with repeated names |
| Scope.PushAllStacks | src/CodeGen_PTX_Dev.cpp:169-182 | binding a list of names adds, for each name, one binding per occurrence on top of its stack |
| Scope.PopAllRestores | src/CodeGen_PTX_Dev.cpp:220-223 | popping names as often as bindings were added above a table returns to that table, in any order |
| PtxLowering.ParamTypes | src/CodeGen_PTX_Dev.cpp:144-151 | each parameter is a byte pointer for a buffer argument and the argument's own type for a scalar |
| LoweringFacts.BarrierLowering | src/CodeGen_PTX_Dev.cpp:234-249 | the barrier needs exactly one constant-integer argument (otherwise internal errors); it always emits the same full barrier and yields 0, whatever the fence |
| LoweringFacts.ExternCallIsNotBarrier | src/CodeGen_PTX_Dev.cpp:234-252 | a non-intrinsic call of the same name emits no barrier of its own |
| LoweringFacts.GpuLoopMinMustBeZero | src/CodeGen_PTX_Dev.cpp:277-279 | a GPU loop whose minimum is not the constant zero is an internal error |
| LoweringFacts.GpuLoopReadsRegister | src/CodeGen_PTX_Dev.cpp:276-282 | for a GPU loop from 0 whose body branches on its variable, whatever the extent, the output is one read of the variable's register and a branch on that read, with no loop, and the binding is released |
| LoweringFacts.GpuLoopScenario | src/CodeGen_PTX_Dev.cpp:254-282 | for a variable naming axis (a, d), that read is the `tid`/`ctaid` register of (a, d) |
| LoweringFacts.AllocateChecks | src/CodeGen_PTX_Dev.cpp:288-310 | a custom allocator is a user error, and a non-shared allocation without positive constant size is an internal error |
| LoweringFacts.AllocateScenario | src/CodeGen_PTX_Dev.cpp:288-323 | inside its scope a shared buffer is bound to the shared base with no alloca; any other buffer is bound to a new alloca appended to the entry block; its `Free` releases it |
| LoweringFacts.FreeReleases | src/CodeGen_PTX_Dev.cpp:321-323 | `Free` pops exactly the innermost binding; freeing an unbound name is an internal error |
| LoweringFacts.AssertLowering | src/CodeGen_PTX_Dev.cpp:325-329 | an assertion ignores its message and becomes the negated condition's code, then a branch whose taken side only calls `halide_ptx_trap` |
| LoweringFacts.TrapLowering | src/CodeGen_PTX_Dev.cpp:327-328 | evaluating the trap call emits the call to `halide_ptx_trap` and nothing else |
| LoweringFacts.AtomicMutexRefused | src/CodeGen_PTX_Dev.cpp:378-380 | an atomic region that needs a mutex is a user error, whatever its body |
| LoweringFacts.AtomicStoreChecks | src/CodeGen_PTX_Dev.cpp:352-356 | under atomic stores, a predicated store and a store narrower than 32 bits are user errors; outside them neither error can occur |
| LoweringFacts.AtomicRegionStores | src/CodeGen_PTX_Dev.cpp:375-384 | a store inside an atomic region is emitted atomic, and the flag is back to its old value afterwards |
| LoweringFacts.StoreEmits | src/CodeGen_PTX_Dev.cpp:351-373 | a store emits one store into the buffer's binding, atomic exactly under the flag: the 128-bit word at base/4 with alignment/4 when fused, the original otherwise; nothing else changes |
| LoweringFacts.LoadEmits | src/CodeGen_PTX_Dev.cpp:331-349 | a load ends with one load from the buffer's binding: the 128-bit load at base/4 with its reinterpreted value when fused, the original load otherwise |
| LoweringFacts.StoreLowersOnce | src/CodeGen_PTX_Dev.cpp:351-373 | the re-lowered fused store passes the atomic checks and is not fused again, so a store becomes a single generic store |
| LoweringFacts.ExprErrors | src/CodeGen_PTX_Dev.cpp:234-252 | expression lowering fails only on an unbound name or a malformed barrier |
| LoweringFacts.FrameStmt | src/CodeGen_PTX_Dev.cpp:276-384 | every successful lowering only appends to the body, adds only allocas to the entry block, keeps the table well formed and restores the atomic flag |
| LoweringFacts.ScopedKeepsSymbols | src/CodeGen_PTX_Dev.cpp:276-323 | a statement whose allocations are each freed once along their body's sequence of blocks, however bracketed, leaves the symbol table as it found it |
| LoweringFacts.FreedOnSpinePops | src/CodeGen_PTX_Dev.cpp:321-323 | lowering a statement that frees `n` once along its blocks pops exactly the innermost binding of `n` |
| LoweringFacts.ScopedAnyBracketing | src/CodeGen_PTX_Dev.cpp:288-323 | an allocation whose body ends by freeing it is scoped whether its blocks nest to the right or to the left, and also when `Free` is followed by more scoped code |
| LoweringFacts.AddKernelFacts | src/CodeGen_PTX_Dev.cpp:136-224 | a kernel whose scoped body lowers is added: the table and flag are restored, the params follow the arguments, the body ends with the return, the entry block holds only allocas then the branch to the body |
| PtxCodeGen.CodeGenPtxDev.Codegen | src/CodeGen_PTX_Dev.cpp:234-252 | emitting an expression appends its code to the body block and returns its value, with nothing emitted on error |
| PtxCodeGen.CodeGenPtxDev.Visit | src/CodeGen_PTX_Dev.cpp:276-384 | visiting a statement reaches exactly the state lowering describes, or reports its error |
| PtxCodeGen.CodeGenPtxDev.VisitFor | src/CodeGen_PTX_Dev.cpp:276-286 | the loop visitor updates the table and blocks as the GPU-loop or serial-loop lowering says |
| PtxCodeGen.CodeGenPtxDev.VisitAllocate | src/CodeGen_PTX_Dev.cpp:288-319 | the allocation visitor pushes the binding, appends the alloca when not shared, and visits the body as lowering says |
| PtxCodeGen.CodeGenPtxDev.VisitFree | src/CodeGen_PTX_Dev.cpp:321-323 | the free visitor pops the binding or reports the unbound name |
| PtxCodeGen.CodeGenPtxDev.VisitAssertStmt | src/CodeGen_PTX_Dev.cpp:325-329 | the assertion visitor lowers the conditional trap |
| PtxCodeGen.CodeGenPtxDev.VisitStore | src/CodeGen_PTX_Dev.cpp:351-373 | the store visitor applies the atomic checks, then visits the fused store or takes the generic store |
| PtxCodeGen.CodeGenPtxDev.GenericStore | src/CodeGen_PTX_Dev.cpp:372 | the generic store emits the value, index and predicate code and the store into the bound buffer with the current atomic flag, or reports the first error |
| PtxCodeGen.StoreIntoSteps | src/CodeGen_PTX_Dev.cpp:372 | the generic store fails at the first operand that fails to lower or at an unbound buffer, and otherwise emits the operands in order followed by the store |
| PtxCodeGen.CodeGenPtxDev.VisitAtomic | src/CodeGen_PTX_Dev.cpp:375-384 | the atomic visitor sets the flag for the body and restores it |
| PtxCodeGen.CodeGenPtxDev.ArgTypes | src/CodeGen_PTX_Dev.cpp:144-151 | the parameter-type loop fills exactly the per-argument parameter types |
| PtxCodeGen.CodeGenPtxDev.BindArguments | src/CodeGen_PTX_Dev.cpp:169-182 | the argument loop pushes each name bound to its parameter, in order, and records the names |
| PtxCodeGen.CodeGenPtxDev.ReleaseArguments | src/CodeGen_PTX_Dev.cpp:220-223 | the release loop pops the recorded names in order, or reports the first with no binding |
| PtxCodeGen.CodeGenPtxDev.LowerKernelBody | src/CodeGen_PTX_Dev.cpp:165-200 | binding the arguments, lowering the body into fresh blocks and adding the return and the branch reach the kernel-body state, or report its error |
| PtxCodeGen.CodeGenPtxDev.AddKernel | src/CodeGen_PTX_Dev.cpp:136-224 | adding a kernel reaches the state and kernel the kernel lowering describes, and appends that kernel |

## Left out

- Code generation outside this file is taken as given:
  - `Target::get_cuda_capability_lower_bound` is modelled as the oldest capability flag present, with 20 when there is none.
  - `is_gpu_var` is modelled as the block/thread suffix test.
  - `is_const_one`, `is_const_zero` and `as_const_int` are modelled on immediates and broadcasts.
  - `constant_allocation_size` is a field of the `Allocate` node, 0 when the extents are not constant.
  - Target.cpp, CodeGen_GPU_Dev.cpp and IROperator.cpp are not part of this model.
- The generic `CodeGen_LLVM` paths appear only in the shape the PTX visitors need:
  - an expression's operands are lowered in order;
  - a variable reads its innermost binding;
  - a generic store emits the value, index and predicate and then the store;
  - a serial loop pushes its counter around its body;
  - a conditional emits branch markers;
  - the generic reduction lowering is only named (`Generic`).
- The fused dot-product expression is returned, not lowered (`equiv.accept(this)` at line 536). Lowering it is generic expression code generation.
- The model inlines the re-lowering of a fused load by `codegen(equiv)` as one 128-bit load. The inner load is not rewritten again (`FuseLoadResult`).
- PtxCodeGen.CodeGenPtxDev.Visit: after an error (an `internal_assert` or `user_assert`), the generator's state is not described. The source aborts compilation there.
- `lossless_cast` is an oracle parameter whose result is assumed to have the requested type.
- `simplify` and `common_subexpression_elimination` are the identity.
- `reinterpret` and `Shuffle` are IR nodes, so their internals are not modelled.
- LLVM IR details are not modelled:
  - function types, `NoAlias` attributes, basic blocks beyond the entry/body distinction, the nvvm.annotations metadata, and `verifyFunction`/`verifyModule`;
  - instructions are recorded abstractly, with no LLVM types or values.
- `compile_to_src`, the constructor and destructor, `init_module` and `dump` are I/O and LLVM lifetime code, so they are not modelled.
- `march`, `use_soft_float_abi`, `get_current_kernel_name` and `print_gpu_name` return constants or names and are not modelled.
- `upgrade_type_for_storage` is the Float16 case, which depends on the parent implementation.
- DotProduct.CodegenVectorReduce requires at least one output lane. Halide types always have at least one lane.
- DotProduct.CodegenVectorReduce tests signedness and the 32-bit element type on the reduced value's type. For a sum this agrees with `op->type`, which differs only in its lane count.
- DotProduct.Repack: the dense-load re-issue drops the original load's predicate, as the source does (lines 458-473). The model keeps that behaviour.
- DotProduct.RepackedLoadEquivalent: a buffer element is its unsigned bit pattern, and a word packs its elements little-endian. This is the meaning given to `reinterpret` (ReinterpretWords) and to a 32-bit load. The sign of `Int(32)` is not modelled. IR expressions are not evaluated: `base` stands for the value of the original ramp's base, and the lemma states that the new index is that base divided by the elements per word.
- LoweringFacts.ScopedKeepsSymbols: the table is shown to be restored when each allocation frees its buffer exactly once along its body's sequence of blocks, however they are bracketed (FreedOnSpine). A `Free` inside a loop or conditional of the allocation's body is outside this hypothesis, and so is LoweringFacts.AddKernelFacts for such a kernel body.
- Of Halide's type predicates only those the code generator inspects are modelled. `IsFloat` holds for Float and BFloat, as Halide's `Type::is_float` does, so a BFloat of 32 or 64 bits takes the float cases of `supports_atomic_add`.
