/** The value helpers of the holders model: timestamps, integers and floats under `raw`, object copies. */
module HolderValues {
  import opened Wrappers
  import Json

  /** chrono's representable range of `DateTime<Utc>`, in seconds since the epoch (years -262143 to 262142). */
  const MinTimestamp: int := -8_334_601_315_200
  const MaxTimestamp: int := 8_210_266_876_799

  /** `DateTime<Utc>` at whole seconds. */
  type Timestamp = t: int | MinTimestamp <= t <= MaxTimestamp witness 0

  /** `DateTime::from_timestamp(0, 0)`. */
  const Epoch: Timestamp := 0

  /** `DateTime::from_timestamp(ts, 0)`: None outside the representable range. */
  function FromTimestamp(ts: int): (r: Option<Timestamp>)
    ensures r.Some? <==> MinTimestamp <= ts <= MaxTimestamp
    ensures r.Some? ==> r.value == ts
  {
    if MinTimestamp <= ts <= MaxTimestamp then Some(ts) else None
  }

  /** `parse_timestamp`: only the `raw` member is read, and it must be an i64 in range. */
  function ParseTimestamp(v: Json.Value): (r: Option<Timestamp>)
    ensures r.Some? <==> exists raw :: Json.Get(v, "raw") == Some(Json.JInt(raw))
                          && Json.I64Min <= raw <= Json.I64Max && MinTimestamp <= raw <= MaxTimestamp
    ensures r.Some? ==> Json.Get(v, "raw") == Some(Json.JInt(r.value))
    ensures v.JInt? ==> r.None?
  {
    Json.Get(v, "raw").Bind(Json.AsI64).Bind(FromTimestamp)
  }

  /** `value_to_i64`: the integer under `raw` if there is one, else the value itself as an integer. */
  function ValueToI64(v: Json.Value): (r: Option<int>)
    ensures Json.Get(v, "raw").Some? && Json.AsI64(Json.Get(v, "raw").value).Some? ==>
              r == Json.AsI64(Json.Get(v, "raw").value)
    ensures !(Json.Get(v, "raw").Some? && Json.AsI64(Json.Get(v, "raw").value).Some?) ==> r == Json.AsI64(v)
    ensures r.Some? ==> Json.I64Min <= r.value <= Json.I64Max
  {
    match Json.Get(v, "raw").Bind(Json.AsI64)
    case Some(n) => Some(n)
    case None => Json.AsI64(v)
  }

  /** `value_to_f64`: the number under `raw` if there is one, else the value itself as a number. */
  function ValueToF64(v: Json.Value): (r: Option<real>)
    ensures Json.Get(v, "raw").Some? && Json.AsF64(Json.Get(v, "raw").value).Some? ==>
              r == Json.AsF64(Json.Get(v, "raw").value)
    ensures !(Json.Get(v, "raw").Some? && Json.AsF64(Json.Get(v, "raw").value).Some?) ==> r == Json.AsF64(v)
  {
    match Json.Get(v, "raw").Bind(Json.AsF64)
    case Some(x) => Some(x)
    case None => Json.AsF64(v)
  }

  /** `object_to_map`: a copy of the object's members. */
  function ObjectToMap(obj: map<string, Json.Value>): (r: map<string, Json.Value>)
    ensures r.Keys == obj.Keys
    ensures forall k :: k in r ==> r[k] == obj[k]
  {
    map k | k in obj :: obj[k]
  }

  /** The integer and float readers agree wherever the integer reader succeeds on a bare value. */
  lemma BareIntegerReadsAlike(n: int)
    requires Json.I64Min <= n <= Json.I64Max
    ensures ValueToI64(Json.JInt(n)) == Some(n)
    ensures ValueToF64(Json.JInt(n)) == Some(n as real)
    ensures ParseTimestamp(Json.JInt(n)) == None
  {
  }
}
