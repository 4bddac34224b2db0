/** Naming of the GPU parallel axes. A loop whose variable name ends in one of
    eight fixed suffixes is realized by hardware threads or blocks, and its index
    is read from a PTX special register whose intrinsic name the suffix selects. */
module SimtAxis {
  import opened Wrappers

  datatype Axis = Thread | Block
  datatype Dim = X | Y | Z | W

  /** The loop-name suffix that marks a variable as a GPU axis. */
  function AxisSuffix(a: Axis, d: Dim): string
  {
    match (a, d)
    case (Thread, X) => ".__thread_id_x"
    case (Thread, Y) => ".__thread_id_y"
    case (Thread, Z) => ".__thread_id_z"
    case (Thread, W) => ".__thread_id_w"
    case (Block, X) => ".__block_id_x"
    case (Block, Y) => ".__block_id_y"
    case (Block, Z) => ".__block_id_z"
    case (Block, W) => ".__block_id_w"
  }

  /** The intrinsic reading the special register of an axis: `tid` for threads,
      `ctaid` (cooperative thread array id) for blocks. */
  function RegisterIntrinsic(a: Axis, d: Dim): string
  {
    match (a, d)
    case (Thread, X) => "llvm.nvvm.read.ptx.sreg.tid.x"
    case (Thread, Y) => "llvm.nvvm.read.ptx.sreg.tid.y"
    case (Thread, Z) => "llvm.nvvm.read.ptx.sreg.tid.z"
    case (Thread, W) => "llvm.nvvm.read.ptx.sreg.tid.w"
    case (Block, X) => "llvm.nvvm.read.ptx.sreg.ctaid.x"
    case (Block, Y) => "llvm.nvvm.read.ptx.sreg.ctaid.y"
    case (Block, Z) => "llvm.nvvm.read.ptx.sreg.ctaid.z"
    case (Block, W) => "llvm.nvvm.read.ptx.sreg.ctaid.w"
  }

  predicate EndsWith(s: string, suffix: string)
  {
    |suffix| <= |s| && s[|s| - |suffix|..] == suffix
  }

  /** A block-axis variable, as Halide's GPU device layer recognizes it. */
  predicate IsGpuBlockVar(name: string)
  {
    EndsWith(name, ".__block_id_x") || EndsWith(name, ".__block_id_y") ||
    EndsWith(name, ".__block_id_z") || EndsWith(name, ".__block_id_w")
  }

  /** A thread-axis variable, as Halide's GPU device layer recognizes it. */
  predicate IsGpuThreadVar(name: string)
  {
    EndsWith(name, ".__thread_id_x") || EndsWith(name, ".__thread_id_y") ||
    EndsWith(name, ".__thread_id_z") || EndsWith(name, ".__thread_id_w")
  }

  predicate IsGpuVar(name: string)
  {
    IsGpuBlockVar(name) || IsGpuThreadVar(name)
  }

  /** The register-read intrinsic for a GPU axis variable, tested suffix by suffix;
      `None` is the internal error raised for any other name. */
  function SimtIntrinsic(name: string): Option<string>
  {
    if EndsWith(name, ".__thread_id_x") then Some("llvm.nvvm.read.ptx.sreg.tid.x")
    else if EndsWith(name, ".__thread_id_y") then Some("llvm.nvvm.read.ptx.sreg.tid.y")
    else if EndsWith(name, ".__thread_id_z") then Some("llvm.nvvm.read.ptx.sreg.tid.z")
    else if EndsWith(name, ".__thread_id_w") then Some("llvm.nvvm.read.ptx.sreg.tid.w")
    else if EndsWith(name, ".__block_id_x") then Some("llvm.nvvm.read.ptx.sreg.ctaid.x")
    else if EndsWith(name, ".__block_id_y") then Some("llvm.nvvm.read.ptx.sreg.ctaid.y")
    else if EndsWith(name, ".__block_id_z") then Some("llvm.nvvm.read.ptx.sreg.ctaid.z")
    else if EndsWith(name, ".__block_id_w") then Some("llvm.nvvm.read.ptx.sreg.ctaid.w")
    else None
  }

  /** The character that tells the dimension of an axis suffix: its last one. */
  function DimChar(d: Dim): char
  {
    match d
    case X => 'x'
    case Y => 'y'
    case Z => 'z'
    case W => 'w'
  }

  /** The character that tells threads from blocks: the sixth from the end of the
      suffix (`thread_id_x`, `block_id_x`). */
  function AxisChar(a: Axis): char
  {
    match a
    case Thread => 'd'
    case Block => 'k'
  }

  /** A name ending in an axis suffix carries that axis's two key characters. */
  lemma SuffixKey(n: string, a: Axis, d: Dim)
    requires EndsWith(n, AxisSuffix(a, d))
    ensures n[|n| - 1] == DimChar(d) && n[|n| - 6] == AxisChar(a)
  {
    var s := AxisSuffix(a, d);
    assert n[|n| - |s|..] == s;
    assert n[|n| - 1] == s[|s| - 1];
    assert n[|n| - 6] == s[|s| - 6];
  }

  lemma EndsWithOwnSuffix(prefix: string, s: string)
    ensures EndsWith(prefix + s, s)
  {
    var n := prefix + s;
    assert n[|n| - |s|..] == s;
  }

  /** A name ending in an axis suffix ends in no other axis suffix. */
  lemma OnlyOwnSuffix(prefix: string, a: Axis, d: Dim, b: Axis, e: Dim)
    requires EndsWith(prefix + AxisSuffix(a, d), AxisSuffix(b, e))
    ensures a == b && d == e
  {
    var n := prefix + AxisSuffix(a, d);
    EndsWithOwnSuffix(prefix, AxisSuffix(a, d));
    SuffixKey(n, a, d);
    SuffixKey(n, b, e);
  }

  /** A name ending in an axis suffix is mapped to that axis's register: no entry
      earlier in the chain can match it. */
  lemma SimtIntrinsicOfAxis(prefix: string, a: Axis, d: Dim)
    ensures SimtIntrinsic(prefix + AxisSuffix(a, d)) == Some(RegisterIntrinsic(a, d))
  {
    var n := prefix + AxisSuffix(a, d);
    EndsWithOwnSuffix(prefix, AxisSuffix(a, d));
    forall b: Axis, e: Dim | EndsWith(n, AxisSuffix(b, e)) ensures b == a && e == d {
      OnlyOwnSuffix(prefix, a, d, b, e);
    }
    assert AxisSuffix(Thread, X) == ".__thread_id_x" && AxisSuffix(Thread, Y) == ".__thread_id_y";
    assert AxisSuffix(Thread, Z) == ".__thread_id_z" && AxisSuffix(Thread, W) == ".__thread_id_w";
    assert AxisSuffix(Block, X) == ".__block_id_x" && AxisSuffix(Block, Y) == ".__block_id_y";
    assert AxisSuffix(Block, Z) == ".__block_id_z" && AxisSuffix(Block, W) == ".__block_id_w";
  }

  /** Every intrinsic returned is the register of an axis whose suffix the name carries. */
  lemma SimtIntrinsicSound(name: string)
    requires SimtIntrinsic(name).Some?
    ensures exists a: Axis, d: Dim :: EndsWith(name, AxisSuffix(a, d)) &&
                                      SimtIntrinsic(name).value == RegisterIntrinsic(a, d)
  {
    if EndsWith(name, ".__thread_id_x") { assert AxisSuffix(Thread, X) == ".__thread_id_x"; }
    else if EndsWith(name, ".__thread_id_y") { assert AxisSuffix(Thread, Y) == ".__thread_id_y"; }
    else if EndsWith(name, ".__thread_id_z") { assert AxisSuffix(Thread, Z) == ".__thread_id_z"; }
    else if EndsWith(name, ".__thread_id_w") { assert AxisSuffix(Thread, W) == ".__thread_id_w"; }
    else if EndsWith(name, ".__block_id_x") { assert AxisSuffix(Block, X) == ".__block_id_x"; }
    else if EndsWith(name, ".__block_id_y") { assert AxisSuffix(Block, Y) == ".__block_id_y"; }
    else if EndsWith(name, ".__block_id_z") { assert AxisSuffix(Block, Z) == ".__block_id_z"; }
    else { assert AxisSuffix(Block, W) == ".__block_id_w"; }
  }

  /** The intrinsic lookup succeeds exactly on the GPU axis variables, so the loop
      lowering, which consults it only for those, never reaches the internal error. */
  lemma SimtIntrinsicDefinedIff(name: string)
    ensures SimtIntrinsic(name).Some? <==> IsGpuVar(name)
  {
  }
}
