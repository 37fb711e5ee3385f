/** Dynamically typed Go values (`interface{}`) as stored in device records,
    claims and RPC requests. A `Record` is a `map[string]interface{}`. */
module Values {
  /** A Go `byte`. */
  type Byte = b: int | 0 <= b < 256

  datatype Value =
    | Nil
    | Str(s: string)
    | Int(i: int)
    | Bool(b: bool)
    /** A `time.Time`, as seconds since the epoch. */
    | Time(unix: int)
    | Obj(fields: map<string, Value>)

  type Record = map<string, Value>

  /** The entries of a record whose value is not `nil`. */
  function WithoutNil(r: Record): (out: Record)
    ensures forall k :: k in out <==> k in r && r[k] != Nil
    ensures forall k | k in out :: out[k] == r[k]
  {
    map k | k in r && r[k] != Nil :: r[k]
  }

  /** The keys of a record whose value is `nil`. */
  function NilKeys(r: Record): (ks: set<string>)
    ensures forall k :: k in ks <==> k in r && r[k] == Nil
  {
    set k | k in r && r[k] == Nil
  }

  /** A record is split exactly into its `nil` keys and the rest. */
  lemma NilSplit(r: Record)
    ensures WithoutNil(r).Keys + NilKeys(r) == r.Keys
    ensures WithoutNil(r).Keys !! NilKeys(r)
  {
  }
}
