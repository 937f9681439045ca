/** The fragments of Python semantics the API relies on. */
module Python {
  import opened Wire

  /** An exception that escapes an endpoint; the web framework turns it into a
      server error response. */
  datatype Fault = TypeError | AttributeError | KeyError

  /** `d.get(key)`: the stored value, or None when the key is absent. */
  function Get(d: Object, key: string): Json
  {
    if key in d then d[key] else Null
  }

  /** `s[:n]` on a list, which is also what `DataFrame.head(n)` selects: the
      first `n` elements for `n >= 0`, and all but the last `-n` elements for a
      negative `n`; never an error. */
  function Head<T>(s: seq<T>, n: int): (r: seq<T>)
    ensures r <= s
    ensures n >= 0 ==> |r| == if n < |s| then n else |s|
    ensures n < 0 ==> |r| == if |s| + n > 0 then |s| + n else 0
  {
    if n >= 0 then (if n < |s| then s[..n] else s)
    else if |s| + n > 0 then s[..|s| + n]
    else []
  }
}
