/**
 * Types shared by the API caller and the transform-and-load stage of the
 * ETL pipeline: the work kinds, the work item (EtlConfig), decoded JSON
 * values, and the usual Option/Result wrappers.
 */
module EtlTypes {

  datatype Option<T> = None | Some(value: T)

  datatype Result<T, E> = Success(value: T) | Failure(error: E)

  /** The kind of a fetch obligation: decides endpoint, query and target collection. */
  datatype WorkKind = Macros | Medium | Short | Signals

  /** A work item of the queue, identified by (kind, symbol). */
  datatype EtlConfig = EtlConfig(work: WorkKind, symbol: string)

  /** A decoded JSON value, as encoding/json produces it into an interface{}. */
  datatype Json =
    | JNull
    | JBool(b: bool)
    | JNumber(n: real)
    | JString(s: string)
    | JArray(items: seq<Json>)
    | JObject(fields: map<string, Json>)
}
