/** Small option type shared by every module. */
module Wrappers {
  datatype Option<+T> = None | Some(value: T)
}

/**
 * The untyped view of a record: what the persistence layer actually stores
 * and what the data browser shows. A row is a JavaScript object, that is a
 * map from field name to a JSON value.
 */
module Json {
  import opened Wrappers

  /** A JSON value. Numbers are integers in this model. */
  datatype Json =
    | JNull
    | JBool(b: bool)
    | JNum(n: int)
    | JStr(s: string)
    | JArr(items: seq<Json>)
    | JObj(fields: map<string, Json>)

  type Row = map<string, Json>

  /** `row.id`; `None` stands for `undefined` (the field is absent). */
  function IdOf(row: Row): (id: Option<Json>)
    ensures id.Some? <==> "id" in row
    ensures id.Some? ==> id.value == row["id"]
  {
    if "id" in row then Some(row["id"]) else None
  }

  /**
   * `item.id` as it travels in the positional parameters of a remote
   * command: the JSON encoding turns `undefined` into `null`.
   */
  function IdParam(row: Row): (p: Json)
    ensures "id" in row ==> p == row["id"]
    ensures "id" !in row ==> p == JNull
  {
    match IdOf(row)
    case Some(v) => v
    case None => JNull
  }

  /** A list of strings as a JSON array. */
  function StrArr(xs: seq<string>): (j: Json)
    ensures j.JArr? && |j.items| == |xs|
    ensures forall k :: 0 <= k < |xs| ==> j.items[k] == JStr(xs[k])
  {
    JArr(seq(|xs|, k requires 0 <= k < |xs| => JStr(xs[k])))
  }
}
