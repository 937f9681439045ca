/** The JSON values exchanged between the coordinate API, the remote archive and the web client. */
module Wire {
  import opened Outcomes

  /** A decoded JSON value. `Null` is JSON null, which is also how Python's None
      and a missing table cell are represented. Numbers are modelled as reals:
      floating-point rounding, NaN and the infinities are not part of the model. */
  datatype Json =
    | Null
    | Bool(b: bool)
    | Num(n: real)
    | Str(s: string)
    | Arr(items: seq<Json>)
    | Obj(fields: map<string, Json>)

  /** A JSON object, or a Python dict with string keys. */
  type Object = map<string, Json>

  /** Why a request produced no usable body: the connection failed, the status
      was not 2xx, or the body could not be decoded. Each caller catches all three. */
  datatype FetchError = NetworkFailure | HttpStatus(code: int) | MalformedBody

  /** What a request hands to its caller: a decoded body or the reason there is none. */
  type Fetched<T> = Result<T, FetchError>
}
