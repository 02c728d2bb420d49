/**
 * The document mapper: `from_db` turns a stored document into keyword
 * arguments for a model (ObjectIds to text, "_id" renamed to "id"), and
 * `to_db` turns a model into a document for storage (identifiers to
 * ObjectIds, "id" dropped or renamed to "_id").
 */
module DbDumper {
  import opened Wrappers
  import opened Bson
  import opened Values
  import opened Models

  /** The model's identifier field. */
  const IdKey: string := "id"

  /** The storage layer's primary key. */
  const StorageIdKey: string := "_id"

  /** A value with any ObjectId replaced by its text form. */
  function Stringified(v: Value): (r: Value)
    ensures !r.Oid?
    ensures v.Oid? ==> r == Str(ToString(v.oid))
    ensures !v.Oid? ==> r == v
  {
    if v.Oid? then Str(PyStr(v)) else v
  }

  /** What from_db returns for a stored document. */
  function Imported(doc: Document): (r: Document)
    ensures StorageIdKey !in r
    ensures forall k :: k in r ==> !r[k].Oid?
    ensures r.Keys == (doc.Keys - {StorageIdKey}) + (if StorageIdKey in doc then {IdKey} else {})
    ensures StorageIdKey in doc ==> r[IdKey] == Str(PyStr(doc[StorageIdKey]))
    ensures forall k :: k in doc && k != StorageIdKey && (k != IdKey || StorageIdKey !in doc) ==>
              r[k] == Stringified(doc[k])
  {
    var copy := map k | k in doc :: Stringified(doc[k]);
    if StorageIdKey in copy then copy[IdKey := Str(PyStr(copy[StorageIdKey]))] - {StorageIdKey}
    else copy
  }

  /** What to_db makes of a model's field dump. */
  function Exported(dump: Document, includeId: bool): (r: Document)
    ensures IdKey !in r
    ensures forall k :: k != IdKey && k != StorageIdKey ==> (k in r <==> k in dump)
    ensures forall k :: k in dump && k != IdKey && k != StorageIdKey ==> r[k] == dump[k]
    ensures StorageIdKey in r <==> StorageIdKey in dump || (includeId && IdKey in dump)
    ensures includeId && IdKey in dump ==> r[StorageIdKey] == dump[IdKey]
    ensures !(includeId && IdKey in dump) && StorageIdKey in dump ==> r[StorageIdKey] == dump[StorageIdKey]
  {
    if IdKey in dump then
      (if includeId then dump[StorageIdKey := dump[IdKey]] else dump) - {IdKey}
    else dump
  }

  /** Loading a document with "_id" is loading the rest and adding "id" as the text of "_id". */
  lemma ImportedWithStorageId(rest: Document, v: Value)
    requires StorageIdKey !in rest
    ensures Imported(rest[StorageIdKey := v]) == Imported(rest)[IdKey := Str(PyStr(v))]
  {
  }

  /** from_db: copy the document, rewrite ObjectId values in place, then move "_id" to "id". */
  method FromDb(doc: Document) returns (modelDump: Document)
    ensures modelDump == Imported(doc)
  {
    modelDump := doc;
    var pending := modelDump.Keys;
    while pending != {}
      invariant modelDump.Keys == doc.Keys
      invariant pending <= doc.Keys
      invariant forall k :: k in pending ==> modelDump[k] == doc[k]
      invariant forall k :: k in doc && k !in pending ==> modelDump[k] == Stringified(doc[k])
      decreases pending
    {
      var key :| key in pending;
      var value := modelDump[key];
      if value.Oid? {
        modelDump := modelDump[key := Str(PyStr(value))];
      }
      pending := pending - {key};
    }
    if StorageIdKey in modelDump {
      modelDump := modelDump[IdKey := Str(PyStr(modelDump[StorageIdKey]))];
      modelDump := modelDump - {StorageIdKey};
    }
  }

  /** to_db: dump the model under the "objectid" context, then drop "id", keeping it as "_id" if asked. */
  method ToDb(model: Model, includeId: bool := false) returns (r: Result<Document, Error>)
    ensures r.Success? <==> ModelDump(model, Some(ObjectIdContext)).Success?
    ensures r.Success? ==> r.value == Exported(ModelDump(model, Some(ObjectIdContext)).value, includeId)
    ensures r.Failure? ==> r.error == ModelDump(model, Some(ObjectIdContext)).error
    ensures r.Success? ==> IdKey !in r.value
    ensures r.Success? ==> (StorageIdKey in r.value <==> includeId)
    ensures r.Success? && includeId ==> r.value[StorageIdKey] == ModelDump(model, Some(ObjectIdContext)).value[IdKey]
  {
    var dumped := ModelDump(model, Some(ObjectIdContext));
    if dumped.Failure? {
      return Failure(dumped.error);
    }
    var dump := dumped.value;
    if IdKey in dump {
      if includeId {
        dump := dump[StorageIdKey := dump[IdKey]];
      }
      dump := dump - {IdKey};
    }
    return Success(dump);
  }
}
