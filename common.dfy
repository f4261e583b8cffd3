/** Failure-compatible wrappers shared by the pipeline modules. */
module Common {

  /** A value that may be absent: pandas' NaN / a missing cell. */
  datatype Option<+T> = None | Some(value: T)

  /** The pipeline's fatal errors: a column the script needs is not there. */
  datatype Error = MissingColumn(column: string, table: string)

  datatype Result<+T> = Ok(value: T) | Err(error: Error)

  /** Lookup in a map, absent keys giving None (a left-join cell). */
  function Get<K, V>(m: map<K, V>, k: K): (r: Option<V>)
    ensures r.Some? <==> k in m
    ensures r.Some? ==> r.value == m[k]
  {
    if k in m then Some(m[k]) else None
  }

  /** `fillna(0)` of one numeric cell. */
  function OrZero(o: Option<nat>): (r: nat)
    ensures o.None? ==> r == 0
    ensures o.Some? ==> r == o.value
  {
    if o.Some? then o.value else 0
  }
}
