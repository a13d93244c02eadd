/**
 * Terraform plugin framework values: attributes that may be unknown or null, the
 * diagnostics a handler reports, and how a handler ends.
 */
module Tf {
  import opened Wrappers

  /** An attribute value: not yet known (while planning), null, or known. */
  datatype Value<T> = Unknown | Null | Known(value: T) {
    /** `ValueString`, `ValueBool`, `ValueInt32`: the known value, or Go's zero value. */
    function ValueOr(zero: T): T {
      if Known? then value else zero
    }
  }

  function ValueString(v: Value<string>): string {
    v.ValueOr("")
  }

  function ValueBool(v: Value<bool>): bool {
    v.ValueOr(false)
  }

  function ValueInt32(v: Value<int>): int {
    v.ValueOr(0)
  }

  /** `ValueStringPointer`: nil for a null value, otherwise a pointer to `ValueString`. */
  function ValueStringPointer(v: Value<string>): (p: Option<string>)
    ensures p.None? <==> v.Null?
    ensures v.Known? ==> p == Some(v.value)
  {
    if v.Null? then None else Some(ValueString(v))
  }

  /** `types.XxxPointerValue`, or an explicit nil check: null exactly when the pointer is nil. */
  function FromPointer<T>(p: Option<T>): (v: Value<T>)
    ensures v.Null? <==> p.None?
    ensures p.Some? ==> v == Known(p.value)
    ensures !v.Unknown?
  {
    if p.None? then Null else Known(p.value)
  }

  datatype Diagnostic =
    | Error(summary: string, detail: string)
    | AttributeError(path: string, summary: string, detail: string)

  /** How a Create, Read, Update or Delete handler ends. */
  datatype HandlerEnd =
    | Saved                              // no error diagnostics; the model is written to the state
    | Failed(diagnostics: seq<Diagnostic>)  // errors reported; the state is not written
    | Crashed(reason: string)               // a Go runtime panic

  /**
   * What an `ImportState` handler leaves: its diagnostics, and the attributes it set on the
   * state, as (attribute name, value) pairs in the order they were set.
   */
  datatype Imported = Imported(diagnostics: seq<Diagnostic>, attributes: seq<(string, string)>)

  /**
   * `time.Unix(int64(f), 0)` for a float64 number of seconds: the conversion truncates
   * toward zero. Rendering the instant as RFC 3339 or RFC 1123 text is not modelled.
   */
  datatype Timestamp = Unix(seconds: int)

  function UnixTime(f: real): (t: Timestamp)
    ensures f >= 0.0 ==> t.seconds as real <= f < t.seconds as real + 1.0
    ensures f < 0.0 ==> t.seconds as real - 1.0 < f <= t.seconds as real
  {
    if f >= 0.0 then Unix(f.Floor) else Unix(-((-f).Floor))
  }

  /** A float64 time pointer as a timestamp attribute: null when nil, otherwise the truncated instant. */
  function TimeValue(p: Option<real>): (v: Value<Timestamp>)
    ensures v.Null? <==> p.None?
    ensures p.Some? ==> v == Known(UnixTime(p.value))
  {
    if p.None? then Null else Known(UnixTime(p.value))
  }
}
