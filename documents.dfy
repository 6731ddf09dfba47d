/**
 * Stored documents as the API handlers see them: JSON-like trees of strings,
 * numbers and nested objects. The handlers build updates with object spread
 * (`{...data, updated: now}`); on a `Doc` that is map union, where the right
 * operand wins on a shared key. Mongoose's `findByIdAndUpdate` sets each
 * top-level key of the update, replacing a nested object as a whole.
 */
module Documents {

  datatype Value = Str(s: string) | Num(n: int) | Obj(fields: Doc)

  type Doc = map<string, Value>

  datatype Option<T> = None | Some(value: T)

  /** The text of a string field; a missing or non-string field reads as "". */
  function StrField(d: Doc, key: string): (r: string)
    ensures key in d && d[key].Str? ==> r == d[key].s
    ensures !(key in d && d[key].Str?) ==> r == ""
  {
    if key in d && d[key].Str? then d[key].s else ""
  }

  /** The `status` field every workflow document carries. */
  function StatusOf(d: Doc): string
  {
    StrField(d, "status")
  }

  /** A nested string field `d[outer][inner]`, or "" when absent. */
  function NestedStr(d: Doc, outer: string, inner: string): (r: string)
    ensures outer in d && d[outer].Obj? ==> r == StrField(d[outer].fields, inner)
    ensures !(outer in d && d[outer].Obj?) ==> r == ""
  {
    if outer in d && d[outer].Obj? then StrField(d[outer].fields, inner) else ""
  }

  /**
   * Mongoose filling schema defaults into a new document: every path the
   * schema declares and the document leaves out takes its default; nested
   * objects are filled path by path; whatever the document gives is kept.
   */
  function FillValue(def: Value, v: Value): (r: Value)
    decreases def
    ensures !(def.Obj? && v.Obj?) ==> r == v
    ensures def.Obj? && v.Obj? ==> r.Obj? && r.fields.Keys == def.fields.Keys + v.fields.Keys
    ensures def.Obj? && v.Obj? ==>
      forall k :: k in def.fields && k !in v.fields ==> r.fields[k] == def.fields[k]
    ensures def.Obj? && v.Obj? ==>
      forall k :: k in v.fields && !(k in def.fields && def.fields[k].Obj? && v.fields[k].Obj?) ==>
        r.fields[k] == v.fields[k]
  {
    if def.Obj? && v.Obj? then
      Obj(map k | k in def.fields.Keys + v.fields.Keys ::
        if k in v.fields then
          (if k in def.fields then FillValue(def.fields[k], v.fields[k]) else v.fields[k])
        else def.fields[k])
    else v
  }

  /** The document Mongoose stores for `create(doc)` under a schema with these defaults. */
  function FillDefaults(defaults: Doc, doc: Doc): (r: Doc)
    ensures r.Keys == defaults.Keys + doc.Keys
    ensures forall k :: k in defaults && k !in doc ==> r[k] == defaults[k]
    ensures forall k :: k in doc && !(k in defaults && defaults[k].Obj? && doc[k].Obj?) ==> r[k] == doc[k]
  {
    FillValue(Obj(defaults), Obj(doc)).fields
  }

  /**
   * A merge-update: every key the update names takes the update's value,
   * every other key keeps its stored value, and nothing is removed. This is
   * both object spread (`{...doc, ...update}`) and the top-level `$set` that
   * `findByIdAndUpdate` performs.
   */
  function Merge(doc: Doc, update: Doc): (r: Doc)
    ensures r.Keys == doc.Keys + update.Keys
    ensures forall k :: k in update ==> r[k] == update[k]
    ensures forall k :: k in doc && k !in update ==> r[k] == doc[k]
  {
    doc + update
  }

  /** Merging the same update twice is merging it once. */
  lemma MergeIdempotent(doc: Doc, update: Doc)
    ensures Merge(Merge(doc, update), update) == Merge(doc, update)
  {
  }

  /** A field as JavaScript reads it: `undefined` (None) when the key is absent. */
  function Field(d: Doc, key: string): (r: Option<Value>)
    ensures r.Some? <==> key in d
    ensures r.Some? ==> r.value == d[key]
  {
    if key in d then Some(d[key]) else None
  }

  /**
   * JavaScript `===` on two fields: two absent fields are equal, strings and
   * numbers compare by value, and two objects are never the same reference.
   */
  predicate StrictEquals(a: Option<Value>, b: Option<Value>)
  {
    match (a, b)
    case (None, None) => true
    case (Some(Str(x)), Some(Str(y))) => x == y
    case (Some(Num(x)), Some(Num(y))) => x == y
    case _ => false
  }

  lemma FillDefaultsOfEmpty(defaults: Doc)
    ensures FillDefaults(defaults, map[]) == defaults
  {
  }
}
