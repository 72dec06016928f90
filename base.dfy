/** Shared vocabulary of the fingerprinting model: the Python exceptions and
    non-finite numpy results the core can run into, a Result type that carries
    them, bytes, 32-byte SHA-256 digests, and the foreign functions (hashing,
    serialisation, the L2 norm) that the core calls but does not define. */
module Base {

  /** An unsigned byte, the element type of numpy `uint8` arrays and of `bytes`. */
  newtype uint8 = x: int | 0 <= x < 256

  /** The 32 bytes of a SHA-256 digest. */
  type Hash32 = s: seq<uint8> | |s| == 32 witness seq(32, _ => 0 as uint8)

  /** The ways an operation of the core stops without a value. */
  datatype Error =
    | InvalidHex          // ValueError from bytes.fromhex
    | UnsupportedMetric   // ValueError raised by the metric dispatch
    | LengthMismatch      // ValueError from scipy: arrays of different lengths
    | EmptyReduction      // ValueError from numpy max/min of a zero-size array
    | EmptyIterable       // ValueError from Python min() of an empty sequence
    | StackFailed         // ValueError from np.stack (no rows, or ragged rows)
    | MixedShapes         // np.array over values that are not one flat list of numbers
    | NonFinite           // numpy division by zero: inf or nan instead of a number
    | ZeroDivision        // ZeroDivisionError from Python float division
    | MissingAttribute    // AttributeError: the called attribute does not exist
    | MissingArgument     // TypeError: a call leaves out a required argument

  datatype Result<T> = Success(value: T) | Failure(error: Error) {
    predicate IsFailure() { Failure? }
    function PropagateFailure<U>(): Result<U>
      requires Failure?
    {
      Failure(error)
    }
    function Extract(): T
      requires Success?
    {
      value
    }
  }

  datatype Option<T> = None | Some(value: T)

  /** A loop that applies `f` to each element in turn and stops at the first
      error, as a Python loop stops at the first exception. */
  function MapResult<T, U>(f: T -> Result<U>, s: seq<T>): Result<seq<U>>
  {
    if s == [] then Success([])
    else
      var init :- MapResult(f, s[..|s| - 1]);
      var last :- f(s[|s| - 1]);
      Success(init + [last])
  }

  /** It succeeds exactly when `f` succeeds on every element, and then holds
      the results in order. */
  lemma {:induction false} MapResultSpec<T, U>(f: T -> Result<U>, s: seq<T>)
    ensures MapResult(f, s).Success? <==> forall i :: 0 <= i < |s| ==> f(s[i]).Success?
    ensures MapResult(f, s).Success? ==>
      |MapResult(f, s).value| == |s| &&
      forall i :: 0 <= i < |s| ==> MapResult(f, s).value[i] == f(s[i]).value
    decreases |s|
  {
    if s != [] {
      var init := s[..|s| - 1];
      MapResultSpec(f, init);
      assert forall i :: 0 <= i < |init| ==> init[i] == s[i];
    }
  }

  /** An error among the first `k` elements is the error of the whole loop. */
  lemma {:induction false} MapResultPrefixFails<T, U>(f: T -> Result<U>, s: seq<T>, k: nat)
    requires k <= |s| && MapResult(f, s[..k]).Failure?
    ensures MapResult(f, s) == MapResult(f, s[..k])
    decreases |s| - k
  {
    if k < |s| {
      var init := s[..|s| - 1];
      assert init[..k] == s[..k];
      MapResultPrefixFails(f, init, k);
    } else {
      assert s[..k] == s;
    }
  }

  /** The product of two reals. Products in the model are written with `Mul`,
      so that reasoning about them goes through the lemmas of module Vectors. */
  function Mul(x: real, y: real): real
  {
    x * y
  }

  function Sq(x: real): real
  {
    Mul(x, x)
  }

  /** The sum of squares of a vector, the square of its L2 norm. */
  function SumSq(v: seq<real>): real
  {
    if v == [] then 0.0 else Sq(v[0]) + SumSq(v[1..])
  }

  /** `n` is the L2 norm of `v`: the non-negative square root of its sum of squares. */
  ghost predicate IsL2Norm(v: seq<real>, n: real)
  {
    n >= 0.0 && Sq(n) == SumSq(v)
  }

  /** The foreign functions the core calls: SHA-256 (FIPS 180-4), the UTF-8 bytes
      of Python's `str()` of a list of floats, numpy's `ndarray.tobytes()` and
      `np.linalg.norm`. Each is a deterministic function of its argument. */
  datatype Externals = Externals(
    sha256: seq<uint8> -> Hash32,
    strEncode: seq<real> -> seq<uint8>,
    toBytes: seq<real> -> seq<uint8>,
    norm: seq<real> -> real)
  {
    /** What `np.linalg.norm` computes, stated without a square root. */
    ghost predicate NormIsL2()
    {
      forall v :: IsL2Norm(v, norm(v))
    }
  }
}
