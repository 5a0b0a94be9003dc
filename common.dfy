/** Values shared by every generation of the provider: optional values, the
    outcome of one call to the RHSM API, Terraform attribute values and
    diagnostics, and the int32 conversion the handlers apply to quantities. */
module Common {

  datatype Option<T> = None | Some(value: T) {
    /** The Go getter of an optional field: the value, or the zero value. */
    function GetOr(default: T): T {
      match this
      case Some(v) => v
      case None => default
    }
  }

  /** The outcome of one call to the RHSM API. On failure, `message` is the
      error's text, `status` the HTTP status of the response (None when the
      client returned no response at all) and `responseBody` the text of the
      response body. */
  datatype ApiResult<T> =
    | Ok(body: T)
    | Failed(message: string, status: Option<int>, responseBody: string)

  const NotFoundStatus: int := 404

  /** A failure that came with a response whose status is 404. */
  predicate IsNotFound<T>(r: ApiResult<T>) {
    r.Failed? && r.status == Some(NotFoundStatus)
  }

  /** A value stored under an attribute of a Terraform resource. */
  datatype Value =
    | Str(s: string)
    | Int(i: int)
    | Bool(b: bool)
    | List(items: seq<Value>)
    | Record(fields: map<string, Value>)

  /** What a handler of the SDK generations leaves behind: the resource ID,
      the attributes and the error it returns. */
  datatype Outcome = Outcome(id: string, attrs: map<string, Value>, err: Option<string>)

  /** A Terraform diagnostic; `attribute` names the attribute it is about. */
  datatype Diagnostic = Diagnostic(summary: string, detail: string, attribute: Option<string>)

  function Error(summary: string, detail: string): Diagnostic {
    Diagnostic(summary, detail, None)
  }

  const Two32: int := 0x1_0000_0000
  const Two31: int := 0x8000_0000

  /** Go's `int32(n)`: keeps the low 32 bits, read as two's complement. */
  function Int32(n: int): (r: int)
    ensures -Two31 <= r < Two31
    ensures (r - n) % Two32 == 0
    ensures -Two31 <= n < Two31 ==> r == n
  {
    (n + Two31) % Two32 - Two31
  }
}
