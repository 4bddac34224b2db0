/** Target capability resolution of the PTX back end: which `sm_XX` processor name,
    which `+ptxNN` feature string and which atomic additions a set of CUDA
    capability flags allows. */
module PtxTarget {
  import opened HalideType

  /** The CUDA compute-capability feature flags a Halide target can carry. */
  datatype Capability = Cuda30 | Cuda32 | Cuda35 | Cuda50 | Cuda61 | Cuda70 | Cuda75 | Cuda80

  /** The hardware generation a flag stands for (compute capability times ten). */
  function Generation(c: Capability): nat
  {
    match c
    case Cuda30 => 30
    case Cuda32 => 32
    case Cuda35 => 35
    case Cuda50 => 50
    case Cuda61 => 61
    case Cuda70 => 70
    case Cuda75 => 75
    case Cuda80 => 80
  }

  /** `c` is the newest generation among `caps`. */
  predicate IsNewest(c: Capability, caps: set<Capability>)
  {
    c in caps && forall d :: d in caps ==> Generation(d) <= Generation(c)
  }

  /** `c` is the oldest generation among `caps`. */
  predicate IsOldest(c: Capability, caps: set<Capability>)
  {
    c in caps && forall d :: d in caps ==> Generation(c) <= Generation(d)
  }

  /** The processor name for one generation. */
  function SmName(c: Capability): string
  {
    match c
    case Cuda30 => "sm_30"
    case Cuda32 => "sm_32"
    case Cuda35 => "sm_35"
    case Cuda50 => "sm_50"
    case Cuda61 => "sm_61"
    case Cuda70 => "sm_70"
    case Cuda75 => "sm_75"
    case Cuda80 => "sm_80"
  }

  /** The processor name handed to the PTX back end: the flags are tested from the
      newest generation down, and the first one present wins. */
  function Mcpu(caps: set<Capability>): string
  {
    if Cuda80 in caps then "sm_80"
    else if Cuda75 in caps then "sm_75"
    else if Cuda70 in caps then "sm_70"
    else if Cuda61 in caps then "sm_61"
    else if Cuda50 in caps then "sm_50"
    else if Cuda35 in caps then "sm_35"
    else if Cuda32 in caps then "sm_32"
    else if Cuda30 in caps then "sm_30"
    else "sm_20"
  }

  /** The PTX ISA feature string handed to the back end. The groups do not follow
      the generation order: 35 and 30 never select a feature of their own. */
  function Mattrs(caps: set<Capability>): string
  {
    if Cuda80 in caps then "+ptx70"
    else if Cuda70 in caps || Cuda75 in caps then "+ptx60"
    else if Cuda61 in caps then "+ptx50"
    else if Cuda32 in caps || Cuda50 in caps then "+ptx40"
    else ""
  }

  /** The feature string one generation asks for when it is the newest flag that
      selects a feature at all. */
  function PtxFeature(c: Capability): string
  {
    match c
    case Cuda80 => "+ptx70"
    case Cuda75 => "+ptx60"
    case Cuda70 => "+ptx60"
    case Cuda61 => "+ptx50"
    case Cuda50 => "+ptx40"
    case Cuda32 => "+ptx40"
    case Cuda35 => ""
    case Cuda30 => ""
  }

  /** The PTX ISA version a feature string selects; the empty string leaves the
      back end's default (ISA 3.2). */
  function PtxVersion(feature: string): nat
  {
    if feature == "+ptx70" then 70
    else if feature == "+ptx60" then 60
    else if feature == "+ptx50" then 50
    else if feature == "+ptx40" then 40
    else 32
  }

  /** The flags that select a feature string. */
  function FeatureFlags(caps: set<Capability>): set<Capability>
  {
    caps - {Cuda35, Cuda30}
  }

  /** Halide's lower bound on the target's compute capability: the flags are
      tested from the oldest generation up, 20 when none is present. */
  function CudaCapabilityLowerBound(caps: set<Capability>): nat
  {
    if Cuda30 in caps then 30
    else if Cuda32 in caps then 32
    else if Cuda35 in caps then 35
    else if Cuda50 in caps then 50
    else if Cuda61 in caps then 61
    else if Cuda70 in caps then 70
    else if Cuda75 in caps then 75
    else if Cuda80 in caps then 80
    else 20
  }

  /** Whether an atomic add of element type `t` may be emitted for this target. */
  function SupportsAtomicAdd(t: Type, caps: set<Capability>): bool
  {
    if t.bits < 32 then false
    else if t.IsIntOrUInt() then true
    else if t.IsFloat() && t.bits == 32 then true
    else if t.IsFloat() && t.bits == 64 then CudaCapabilityLowerBound(caps) >= 61
    else false
  }

  /** The widest natively supported vector: PTX does not vectorize, and its widest
      scalar, a double, is 64 bits. */
  function NativeVectorBits(): (bits: nat)
    ensures bits == FloatType(64, 1).bits
  {
    64
  }

  // ---------------------------------------------------------------------------
  // The decision tables as data, evaluated first match first.

  /** One ordered decision table: the first row whose flag is present gives the answer. */
  function FirstMatch(table: seq<(Capability, string)>, caps: set<Capability>, default: string): string
  {
    if table == [] then default
    else if table[0].0 in caps then table[0].1
    else FirstMatch(table[1..], caps, default)
  }

  const McpuTable: seq<(Capability, string)> :=
    [(Cuda80, "sm_80"), (Cuda75, "sm_75"), (Cuda70, "sm_70"), (Cuda61, "sm_61"),
     (Cuda50, "sm_50"), (Cuda35, "sm_35"), (Cuda32, "sm_32"), (Cuda30, "sm_30")]

  const MattrsTable: seq<(Capability, string)> :=
    [(Cuda80, "+ptx70"), (Cuda70, "+ptx60"), (Cuda75, "+ptx60"), (Cuda61, "+ptx50"),
     (Cuda32, "+ptx40"), (Cuda50, "+ptx40")]

  /** `mcpu` is the first-match table over newest-to-oldest with default `sm_20`. */
  lemma McpuIsFirstMatch(caps: set<Capability>)
    ensures Mcpu(caps) == FirstMatch(McpuTable, caps, "sm_20")
  {
    var t := McpuTable;
    var d := "sm_20";
    assert FirstMatch(t[8..], caps, d) == d;
    assert FirstMatch(t[7..], caps, d) == if Cuda30 in caps then "sm_30" else d;
    assert FirstMatch(t[6..], caps, d) == if Cuda32 in caps then "sm_32" else FirstMatch(t[7..], caps, d);
    assert FirstMatch(t[5..], caps, d) == if Cuda35 in caps then "sm_35" else FirstMatch(t[6..], caps, d);
    assert FirstMatch(t[4..], caps, d) == if Cuda50 in caps then "sm_50" else FirstMatch(t[5..], caps, d);
    assert FirstMatch(t[3..], caps, d) == if Cuda61 in caps then "sm_61" else FirstMatch(t[4..], caps, d);
    assert FirstMatch(t[2..], caps, d) == if Cuda70 in caps then "sm_70" else FirstMatch(t[3..], caps, d);
    assert FirstMatch(t[1..], caps, d) == if Cuda75 in caps then "sm_75" else FirstMatch(t[2..], caps, d);
    assert FirstMatch(t, caps, d) == if Cuda80 in caps then "sm_80" else FirstMatch(t[1..], caps, d);
  }

  /** `mattrs` is the first-match table over its own groups with the empty default. */
  lemma MattrsIsFirstMatch(caps: set<Capability>)
    ensures Mattrs(caps) == FirstMatch(MattrsTable, caps, "")
  {
    var t := MattrsTable;
    assert FirstMatch(t[6..], caps, "") == "";
    assert FirstMatch(t[5..], caps, "") == if Cuda50 in caps then "+ptx40" else "";
    assert FirstMatch(t[4..], caps, "") == if Cuda32 in caps then "+ptx40" else FirstMatch(t[5..], caps, "");
    assert FirstMatch(t[3..], caps, "") == if Cuda61 in caps then "+ptx50" else FirstMatch(t[4..], caps, "");
    assert FirstMatch(t[2..], caps, "") == if Cuda75 in caps then "+ptx60" else FirstMatch(t[3..], caps, "");
    assert FirstMatch(t[1..], caps, "") == if Cuda70 in caps then "+ptx60" else FirstMatch(t[2..], caps, "");
    assert FirstMatch(t, caps, "") == if Cuda80 in caps then "+ptx70" else FirstMatch(t[1..], caps, "");
  }

  /** The processor name is that of the newest flag present, `sm_20` when there is none. */
  lemma McpuIsNewest(caps: set<Capability>, c: Capability)
    requires IsNewest(c, caps)
    ensures Mcpu(caps) == SmName(c)
  {
    assert Generation(c) >= Generation(Cuda80) ==> c == Cuda80;
  }

  lemma McpuDefault(caps: set<Capability>)
    ensures Mcpu(caps) == "sm_20" <==> caps == {}
  {
    if Mcpu(caps) == "sm_20" {
      forall c ensures c !in caps {
        match c {
          case Cuda30 => case Cuda32 => case Cuda35 => case Cuda50 =>
          case Cuda61 => case Cuda70 => case Cuda75 => case Cuda80 =>
        }
      }
    }
  }

  /** The feature string is that of the newest flag other than 35 and 30; those two
      alone leave the default. */
  lemma MattrsIsNewestFeatureFlag(caps: set<Capability>, c: Capability)
    requires IsNewest(c, FeatureFlags(caps))
    ensures Mattrs(caps) == PtxFeature(c)
  {
    var f := FeatureFlags(caps);
    assert Cuda80 in caps ==> Cuda80 in f;
    assert Cuda75 in caps ==> Cuda75 in f;
    assert Cuda70 in caps ==> Cuda70 in f;
    assert Cuda61 in caps ==> Cuda61 in f;
    assert Cuda50 in caps ==> Cuda50 in f;
    assert Cuda32 in caps ==> Cuda32 in f;
  }

  lemma MattrsDefault(caps: set<Capability>)
    ensures Mattrs(caps) == "" <==> caps <= {Cuda35, Cuda30}
  {
    if !(caps <= {Cuda35, Cuda30}) {
      var c :| c in caps && c != Cuda35 && c != Cuda30;
    }
  }

  /** An illustration, on one input, of what MattrsIsNewestFeatureFlag states in
      general: the two resolutions disagree on grouping. With flags 35 and 32 the
      processor is `sm_35`, chosen for 35, while the feature string `+ptx40` is
      chosen for 32. */
  lemma MattrsNotByNewestFlag()
    ensures IsNewest(Cuda35, {Cuda35, Cuda32})
    ensures Mcpu({Cuda35, Cuda32}) == SmName(Cuda35)
    ensures Mattrs({Cuda35, Cuda32}) != PtxFeature(Cuda35)
  {
  }

  /** Adding flags never selects an older processor or an older PTX ISA. */
  lemma ResolutionMonotone(caps: set<Capability>, more: set<Capability>)
    requires caps <= more
    ensures SmVersion(Mcpu(caps)) <= SmVersion(Mcpu(more))
    ensures PtxVersion(Mattrs(caps)) <= PtxVersion(Mattrs(more))
  {
  }

  /** The processor version a name stands for. */
  function SmVersion(name: string): nat
  {
    if name == "sm_80" then 80
    else if name == "sm_75" then 75
    else if name == "sm_70" then 70
    else if name == "sm_61" then 61
    else if name == "sm_50" then 50
    else if name == "sm_35" then 35
    else if name == "sm_32" then 32
    else if name == "sm_30" then 30
    else 20
  }

  /** The newest flag alone resolves to the newest processor and to a PTX ISA at least
      as new as any flag set resolves to. */
  lemma NewestFlagResolvesNewest(caps: set<Capability>)
    ensures Mcpu({Cuda80}) == "sm_80"
    ensures PtxVersion(Mattrs(caps)) <= PtxVersion(Mattrs({Cuda80}))
    ensures SmVersion(Mcpu(caps)) <= SmVersion(Mcpu({Cuda80}))
  {
  }

  /** The lower bound is the oldest generation present, 20 when there is none. */
  lemma LowerBoundIsOldest(caps: set<Capability>, c: Capability)
    requires IsOldest(c, caps)
    ensures CudaCapabilityLowerBound(caps) == Generation(c)
  {
    assert Generation(c) <= Generation(Cuda30) ==> c == Cuda30;
  }

  /** Atomic adds narrower than 32 bits are never supported. */
  lemma AtomicAddNarrow(t: Type, caps: set<Capability>)
    requires t.bits < 32
    ensures !SupportsAtomicAdd(t, caps)
  {
  }

  /** Integer atomic adds of 32 bits or more and 32-bit float atomic adds are always
      supported; every other kind except 64-bit float never is. */
  lemma AtomicAddByKind(t: Type, caps: set<Capability>)
    requires t.bits >= 32
    ensures t.IsIntOrUInt() ==> SupportsAtomicAdd(t, caps)
    ensures t.IsFloat() && t.bits == 32 ==> SupportsAtomicAdd(t, caps)
    ensures !t.IsIntOrUInt() && !t.IsFloat() ==> !SupportsAtomicAdd(t, caps)
    ensures t.IsFloat() && t.bits != 32 && t.bits != 64 ==> !SupportsAtomicAdd(t, caps)
  {
  }

  /** 64-bit float atomic adds are supported exactly when some flag is present and
      every flag present is generation 61 or newer. */
  lemma AtomicAddFloat64(t: Type, caps: set<Capability>)
    requires t.IsFloat() && t.bits == 64
    ensures SupportsAtomicAdd(t, caps) <==> caps != {} && forall c :: c in caps ==> Generation(c) >= 61
  {
    if caps != {} && forall c :: c in caps ==> Generation(c) >= 61 {
      assert Cuda30 !in caps && Cuda32 !in caps && Cuda35 !in caps && Cuda50 !in caps;
      var c :| c in caps;
    }
  }
}
