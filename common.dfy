/** Shared vocabulary: the failure type that stands for the C++ exceptions, the
    transcendental functions (left uninterpreted), and the double-to-int cast. */
module Common {

  /** The exceptions the pricer can raise, one constructor per distinct throw site. */
  datatype Error =
    | KeyNotFound(key: string)          // runtime_error "Key not found: <key>"
    | TypeMismatch(key: string)         // std::bad_any_cast from get<T>
    | UnknownPayoffType(name: string)   // runtime_error "Unknown payoff type"
    | ModelNotFound(name: string)       // runtime_error "Model not found: <name>"
    | QuantileDomain(p: real)           // boost domain_error: probability outside [0, 1]
    | QuantileOverflow(p: real)         // boost overflow_error: probability 0 or 1

  /** The text the source attaches to each exception. */
  function Message(e: Error): string
  {
    match e
    case KeyNotFound(k) => "Key not found: " + k
    case TypeMismatch(_) => "bad any_cast"
    case UnknownPayoffType(_) => "Unknown payoff type"
    case ModelNotFound(n) => "Model not found: " + n
    case QuantileDomain(_) => "Probability argument must be >= 0 and <= 1"
    case QuantileOverflow(_) => "Overflow Error"
  }

  /** A computation that either yields a value or throws. */
  datatype Result<+T> = Ok(value: T) | Err(error: Error) {
    predicate IsFailure() { Err? }
    function PropagateFailure<U>(): Result<U> requires Err? { Err(error) }
    function Extract(): T requires Ok? { value }
  }

  datatype Option<+T> = None | Some(value: T)

  /** The library functions the source calls, passed in rather than computed. */
  datatype Math = Math(
    exp: real -> real,
    sqrt: real -> real,
    pow: (real, real) -> real,
    normalQuantile: real -> real)

  /** std::exp is strictly positive. */
  ghost predicate ExpPositive(m: Math)
  {
    forall x :: m.exp(x) > 0.0
  }

  /** std::sqrt is exact at zero and strictly positive at every positive argument. */
  ghost predicate SqrtExact(m: Math)
  {
    m.sqrt(0.0) == 0.0 && forall x :: x > 0.0 ==> m.sqrt(x) > 0.0
  }

  function Abs(x: real): real { if x < 0.0 then -x else x }

  function Max0(x: real): (r: real)
    ensures r >= 0.0 && r >= x && (r == x || r == 0.0)
  {
    if x > 0.0 then x else 0.0
  }

  /** The sum of a vector, accumulated from the front. */
  function Sum(xs: seq<real>): real
  {
    if xs == [] then 0.0 else Sum(xs[..|xs| - 1]) + xs[|xs| - 1]
  }

  /** The arithmetic mean (Eigen's mean(), and rowwise().mean() on one row). */
  function Mean(xs: seq<real>): real
    requires |xs| > 0
  {
    Sum(xs) / (|xs| as real)
  }

  /** The C++ conversion from double to int, which truncates toward zero. */
  function Truncate(x: real): (n: int)
    ensures x >= 0.0 ==> 0 <= n && n as real <= x < n as real + 1.0
    ensures x < 0.0 ==> n <= 0 && n as real - 1.0 < x <= n as real
  {
    if x >= 0.0 then x.Floor else -((-x).Floor)
  }
}
