/**
 * The floating-point library functions the aiming code calls (math.pi, math.sqrt,
 * math.atan, math.atan2). Their values are not computed here: the model is stated for
 * every library that obeys the few laws below, which are all the proofs rely on.
 */
module Transcendentals {
  datatype Library = Library(pi: real, sqrt: real -> real, atan: real -> real, atan2: (real, real) -> real)

  /** The laws: pi is positive, the root of a positive number is positive, atan is
    * positive on positive arguments, and atan2(0, z) = 0 on the positive z axis. */
  ghost predicate Lawful(lib: Library) {
    && lib.pi > 0.0
    && (forall v :: v > 0.0 ==> lib.sqrt(v) > 0.0)
    && (forall p :: p > 0.0 ==> lib.atan(p) > 0.0)
    && (forall z :: z > 0.0 ==> lib.atan2(0.0, z) == 0.0)
  }

  type Maths = lib: Library | Lawful(lib)
    witness Library(3.0, v => v, p => p, (y, x) => y)
}
