/** Stand-ins for the `http` and `axum` types that the middleware touches.
    Only what the middleware reads of them is kept: a request's method and
    URI, a response's status code. Everything else (headers, extensions,
    bodies) is an opaque `payload` that the middleware never looks at. */
module HttpTypes {

  /** An HTTP request method: the nine methods of section 9 of RFC 9110,
      or an extension method with its own (case-sensitive) token. */
  datatype Method =
    | Connect | Delete | Get | Head | Options | Patch | Post | Put | Trace
    | Extension(token: string)

  /** The method's textual name, as `Method::as_str` spells it. */
  function MethodName(m: Method): string
  {
    match m
    case Connect => "CONNECT"
    case Delete => "DELETE"
    case Get => "GET"
    case Head => "HEAD"
    case Options => "OPTIONS"
    case Patch => "PATCH"
    case Post => "POST"
    case Put => "PUT"
    case Trace => "TRACE"
    case Extension(t) => t
  }

  /** A URI, kept as its text. */
  type Uri = string

  /** `http::StatusCode` only holds the codes 100 through 999. */
  type StatusCode = c: int | 100 <= c <= 999 witness 200

  /** Rust's `u16`. */
  type U16 = n: int | 0 <= n < 0x1_0000

  datatype Request = Request(verb: Method, uri: Uri, payload: nat)

  datatype Response = Response(status: StatusCode, payload: nat)

  /** Rust's `Result`. */
  datatype Result<T, E> = Ok(value: T) | Err(error: E)

  /** Rust's `std::task::Poll`. */
  datatype Poll<T> = Pending | Ready(value: T)
}

/** Time as the middleware sees it: a monotonic instant, read by
    `Instant::now()`, and the distance between two instants. */
module Time {

  /** The monotonic clock behind `Instant::now()`, in abstract ticks. Its only
      mutator moves it forward, so no reading is ever smaller than an earlier one. */
  class Clock {
    var now: nat

    constructor (start: nat)
      ensures now == start
    {
      now := start;
    }

    /** Time passes: `d` ticks go by. */
    method Advance(d: nat)
      modifies this
      ensures now == old(now) + d
    {
      now := now + d;
    }
  }

  /** `start.elapsed()` read at instant `now`: `Instant - Instant` saturates at
      zero in Rust's standard library instead of going negative. */
  function Elapsed(start: nat, now: nat): (d: nat)
    ensures start <= now ==> start + d == now
    ensures now < start ==> d == 0
  {
    if start <= now then now - start else 0
  }
}
