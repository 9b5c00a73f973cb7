/**
 The shape of a record as the logging facade hands it to an adapter, and the facade's own
 operations the adapter calls. Those operations are outside this model: they enter as the
 function-valued fields of `Externals`, so every property proved here holds whatever they do.
 */
module Golog {
  import opened Wrappers

  /**
   The dynamic value of a structured field. Go's signed integer types (`int` … `int64`)
   become `Int`, its unsigned ones (`uint` … `uint64`) `Uint`, `float32`/`float64` `Float`;
   every other dynamic type (maps, slices, structs, nil, …) is `Other`, known by its type name.
   */
  datatype Value =
    | Str(s: string)
    | Int(i: int)
    | Uint(u: nat)
    | Float(f: real)
    | Bool(b: bool)
    | Other(typeName: string)

  /** `golog.Log.Data`; `error` is the text `Error()` returns, `None` for a nil error. */
  datatype Data = Data(fields: map<string, Value>, name: string, withName: bool, error: Option<string>)

  /** `golog.Log`, with its timestamp in nanoseconds since the Unix epoch. */
  datatype Log<L> = Log(timestamp: int, level: L, message: string, data: Data)

  /**
   The facade's operations and the library calls the formatter depends on:
   `isEnabled(threshold, level)` is `threshold.IsEnabled(level)`, `levelString` is
   `Level.String`, `floatText` is `fmt.Sprintf("%f", …)` and `marshalFields` is
   `json.Marshal` of a field map (`None` when it reports an error).
   */
  datatype Externals<!L> = Externals(
    isEnabled: (L, L) -> bool,
    levelString: L -> string,
    floatText: real -> string,
    marshalFields: map<string, Value> -> Option<string>)
}
