/** Values and documents as the API receives, stores and returns them, and the
    rewrite every listing applies before returning a stored document. */
module Documents {

  /** The identifier the store generates for an inserted document (an ObjectId). */
  type Id = nat

  /** A timezone-aware point in time; only its identity matters here. */
  datatype Instant = Instant(utcMicros: int)

  /** What a field of a JSON body or of a stored document can hold. */
  datatype Value =
    | Null
    | Bool(b: bool)
    | Int(i: int)
    | Real(x: real)
    | Str(s: string)
    | Time(t: Instant)
    | Oid(id: Id)
    | List(elems: seq<Value>)
    | Object(fields: map<string, Value>)

  /** A document: field name to value (key order is not significant). */
  type Doc = map<string, Value>

  /** The key under which the store keeps a document's identifier. */
  const StoreIdKey: string := "_id"

  /** The key under which responses expose the identifier, as text. */
  const PublicIdKey: string := "id"

  /** A top-level value after serialisation: a datetime becomes its UTC ISO-8601 text. */
  function Normalize(v: Value, isoUtc: Instant -> string): (r: Value)
    ensures !r.Time?
  {
    if v.Time? then Str(isoUtc(v.t)) else v
  }

  /** True of the keys of `doc` that serialisation neither drops nor overwrites. */
  predicate Kept(doc: Doc, k: string) {
    k != StoreIdKey && !(StoreIdKey in doc && k == PublicIdKey)
  }

  /** `serialize_doc`: the store id moves to a text `id`, datetimes become UTC text,
      everything else passes through. `text` is Python's `str`. */
  function SerializeDoc(doc: Doc, text: Value -> string, isoUtc: Instant -> string): (r: Doc)
    ensures StoreIdKey !in r
    ensures StoreIdKey in doc ==> PublicIdKey in r && r[PublicIdKey] == Str(text(doc[StoreIdKey]))
    ensures r.Keys == if StoreIdKey in doc then doc.Keys - {StoreIdKey} + {PublicIdKey} else doc.Keys
    ensures forall k :: k in doc && Kept(doc, k) && !doc[k].Time? ==> r[k] == doc[k]
    ensures forall k :: k in doc && Kept(doc, k) && doc[k].Time? ==> r[k] == Str(isoUtc(doc[k].t))
    ensures forall k :: k in r ==> !r[k].Time?
  {
    var renamed :=
      if StoreIdKey in doc then (doc - {StoreIdKey})[PublicIdKey := Str(text(doc[StoreIdKey]))]
      else doc;
    map k | k in renamed :: Normalize(renamed[k], isoUtc)
  }

  /** Serialising an already serialised document changes nothing. */
  lemma SerializeDocIdempotent(doc: Doc, text: Value -> string, isoUtc: Instant -> string)
    ensures SerializeDoc(SerializeDoc(doc, text, isoUtc), text, isoUtc) == SerializeDoc(doc, text, isoUtc)
  {
  }

  /** An equality filter as the store's `find` takes it. */
  type Filter = map<string, Value>

  /** A document matches a filter when it holds every filtered field with that value. */
  predicate Matches(doc: Doc, filter: Filter) {
    forall k :: k in filter ==> k in doc && doc[k] == filter[k]
  }
}
