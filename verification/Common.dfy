/** Small things several modules need. */
module Common {

  datatype Option<+T> = None | Some(value: T)

  function Min(a: nat, b: nat): nat { if a < b then a else b }

  function Zeros(n: nat): seq<bv8> { seq(n, _ => 0) }
}
