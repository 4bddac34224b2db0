/** Halide's scalar/vector type descriptor, as the PTX code generator inspects it:
    an element kind, an element width in bits and a lane count. */
module HalideType {

  /** The element kinds Halide distinguishes. */
  datatype TypeCode = Int | UInt | Float | BFloat | Handle

  datatype Type = Type(code: TypeCode, bits: nat, lanes: nat) {

    predicate IsInt() { code == Int }
    predicate IsUInt() { code == UInt }
    /** Brain floats count as floating point, as in Halide's `Type::is_float`. */
    predicate IsFloat() { code == Float || code == BFloat }
    predicate IsIntOrUInt() { code == Int || code == UInt }
    predicate IsScalar() { lanes == 1 }

    /** The same element type with a single lane. */
    function ElementOf(): (t: Type)
      ensures t.code == code && t.bits == bits && t.IsScalar()
    {
      Type(code, bits, 1)
    }

    /** The same element type with `n` lanes. */
    function WithLanes(n: nat): (t: Type)
      ensures t.code == code && t.bits == bits && t.lanes == n
    {
      Type(code, bits, n)
    }
  }

  function IntType(bits: nat, lanes: nat): Type { Type(Int, bits, lanes) }
  function UIntType(bits: nat, lanes: nat): Type { Type(UInt, bits, lanes) }
  function FloatType(bits: nat, lanes: nat): Type { Type(Float, bits, lanes) }

  /** The type of predicates and conditions: a single unsigned bit. */
  function BoolType(lanes: nat): Type { Type(UInt, 1, lanes) }
}
