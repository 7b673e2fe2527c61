/** The response codes a client sends to the server, and the failures the two
    endpoints raise. Both endpoint files declare the same three-member enum
    with the same values; here it is declared once. */
module Codes {
  import opened Wire

  datatype ResponseCode = Invalid | AcceptData | DeclineData

  /** `ResponseCode.X.value` */
  function CodeValue(c: ResponseCode): (v: int)
    ensures 0 <= v <= 2
  {
    match c
    case Invalid => 0
    case AcceptData => 1
    case DeclineData => 2
  }

  /** `ResponseCode(n)`: the member whose value is `n`, or `None` where the
      enum lookup raises `ValueError`. */
  function Lookup(n: int): (r: Option<ResponseCode>)
    ensures r.Some? <==> 0 <= n <= 2
    ensures r.Some? ==> CodeValue(r.value) == n
  {
    if n == 0 then Some(Invalid)
    else if n == 1 then Some(AcceptData)
    else if n == 2 then Some(DeclineData)
    else None
  }

  /** The lookup and the values are inverse: the three values are distinct. */
  lemma LookupCodeValue(c: ResponseCode)
    ensures Lookup(CodeValue(c)) == Some(c)
  {
  }

  /** `isinstance(v, int)`, and the integer `v` stands for when it holds
      (`True == 1` and `False == 0`, since `bool` subclasses `int`). */
  function AsInt(v: Value): (r: Option<int>)
    ensures r.Some? <==> v.IntValue? || v.BoolValue?
    ensures v.IntValue? ==> r == Some(v.n)
    ensures v.BoolValue? ==> r == Some(if v.b then 1 else 0)
  {
    match v
    case IntValue(n) => Some(n)
    case BoolValue(b) => Some(if b then 1 else 0)
    case _ => None
  }

  /** The exceptions the endpoints raise, one constructor per raise site, and
      `StillRefused` for a retry loop that has not connected yet. */
  datatype Error =
    | LoadFailed          // pickle.loads raises on the bytes it was given
    | NotAnInteger        // ValueError: the decoded response is not an int
    | UnknownCode(n: int) // ValueError: ResponseCode(n) has no member n
    | InvalidResponse     // TCPickleException: the client answered INVALID
    | SendFailed          // TCPickleException: sendall of the payload failed
    | AcceptFailed        // socket error: accept on a socket that is not listening
    | BindFailed          // socket error from setsockopt, bind or listen
    | ConnectFailed       // socket error from connect other than a refusal
    | StillRefused        // every connect attempt observed so far was refused
    | NotConnected        // socket error: sendall on a socket that is not connected
    | NoData              // UnboundLocalError: nothing received and debug off

  datatype Result<T> = Ok(value: T) | Err(error: Error)
}
