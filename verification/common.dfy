/** Vocabulary shared by the request and the response side: status codes,
    results, opaque pointers and the fixed-width integer conversions the
    C++ code performs implicitly. */
module Common {

  /** A 32-bit unsigned integer (uint32_t). */
  type uint32 = x: int | 0 <= x < 0x1_0000_0000

  /** A 32-bit signed integer (int32 fields of the model configuration). */
  type int32 = x: int | -0x8000_0000 <= x < 0x8000_0000

  const TwoTo64: int := 0x1_0000_0000_0000_0000

  /** The value an integer takes once stored in a uint64_t: two's-complement
      wrap-around, so a negative int64 becomes a huge unsigned value and an
      overflowing product keeps only its low 64 bits. */
  function U64(x: int): (r: nat)
    ensures r < TwoTo64
    ensures 0 <= x < TwoTo64 ==> r == x
    ensures (r - x) % TwoTo64 == 0
  {
    x % TwoTo64
  }

  /** Multiplying a uint64_t in place (`bs *= m`) wraps the same way as
      wrapping the exact product once. */
  lemma U64Mul(x: int, m: int)
    ensures U64(U64(x) * m) == U64(x * m)
  {
    var q := x / TwoTo64;
    var r := x % TwoTo64;
    assert x * m == r * m + (q * m) * TwoTo64 by {
      assert x == q * TwoTo64 + r;
    }
    ModAddMultiple(r * m, q * m);
  }

  lemma ModAddMultiple(a: int, k: int)
    ensures (a + k * TwoTo64) % TwoTo64 == a % TwoTo64
  {
    var q := a / TwoTo64;
    var r := a % TwoTo64;
    assert a + k * TwoTo64 == (q + k) * TwoTo64 + r;
  }

  /** The value a uint32_t takes when cast to int (a C++ `(int)` cast). */
  function Int32Of(x: uint32): (r: int32)
    ensures x < 0x8000_0000 ==> r == x
    ensures x >= 0x8000_0000 ==> r < 0
  {
    if x < 0x8000_0000 then x else x - 0x1_0000_0000
  }

  /** The value an int64_t takes when stored in a uint32_t. */
  function U32(x: int): (r: uint32)
    ensures 0 <= x < 0x1_0000_0000 ==> r == x
  {
    x % 0x1_0000_0000
  }

  /** Status::Code, without SUCCESS (which is the Success status). */
  datatype Code = Unknown | Internal | NotFound | InvalidArg | Unavailable | Unsupported | AlreadyExists

  /** Status: success or an error carrying its code (messages are not modelled). */
  datatype Status = Success | Failure(code: Code)

  datatype Option<+T> = None | Some(value: T)

  /** A value or the code of the error that prevented it. */
  datatype Result<+T> = Ok(value: T) | Err(code: Code) {
    function ToStatus(): (s: Status)
      ensures s.Success? <==> this.Ok?
      ensures this.Err? ==> s == Failure(this.code)
    {
      match this
      case Ok(_) => Success
      case Err(c) => Failure(c)
    }
  }

  /** An opaque pointer: nullptr or some address. */
  datatype Ptr = Null | Addr(address: nat)
}
