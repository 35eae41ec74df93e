/** The plain-object view of a stored document, and the `toJSON` projection the
    order and invoice schemas both configure. */
module Json {

  /** A field value: what a request body or a stored document can hold. */
  datatype Value = Null | Bool(b: bool) | Num(x: real) | Str(s: string) | Date(ms: int)

  /** A document or request body: field name to value; an absent key is `undefined`. */
  type Object = map<string, Value>

  /** Storage-internal keys no client sees: `_id`, the `id` virtual, and the version key `__v`. */
  const HIDDEN: set<string> := {"_id", "id", "__v"}

  /** `toJSON` with `virtuals: true`, `versionKey: false` and a transform that
      deletes `_id` and `id`: every business field is kept with its value, and
      nothing storage-internal remains. */
  function ToJSON(doc: Object): (ret: Object)
    ensures ret.Keys == doc.Keys - HIDDEN
    ensures forall k :: k in ret ==> ret[k] == doc[k]
  {
    // virtuals: true adds the `id` getter, a copy of `_id`
    var withVirtuals := if "_id" in doc then doc["id" := doc["_id"]] else doc;
    // versionKey: false drops `__v`
    var ret := withVirtuals - {"__v"};
    // the transform deletes `_id`, then `id`
    ret - {"_id"} - {"id"}
  }
}
