/**
 * Storing a model and loading it back: to_db, then from_db, then building
 * the model from the loaded fields.
 */
module RoundTrip {
  import opened Wrappers
  import opened Bson
  import opened Values
  import opened Models
  import opened DbDumper

  /** Every identifier the model holds is text that ObjectId() accepts. */
  predicate HexIds(m: Model) {
    match m
    case UserModel(u) => u.id.Some? ==> IsHex(u.id.value)
    case PostModel(p) => (p.id.Some? ==> IsHex(p.id.value)) && IsHex(p.authorId)
  }

  /** Every identifier the model holds is in the lower-case text form that str(ObjectId) prints. */
  predicate LowerIds(m: Model) {
    match m
    case UserModel(u) => u.id.Some? ==> IsLowerHex(u.id.value)
    case PostModel(p) => (p.id.Some? ==> IsLowerHex(p.id.value)) && IsLowerHex(p.authorId)
  }

  function LowerOptional(id: Option<string>): Option<string> {
    match id
    case None => None
    case Some(s) => Some(LowerHex(s))
  }

  /** The model as it comes back from storage: identifiers lower-cased, the id kept only when stored. */
  function Reloaded(m: Model, includeId: bool): Model {
    match m
    case UserModel(u) =>
      UserModel(User(if includeId then LowerOptional(u.id) else None, u.username, u.email))
    case PostModel(p) =>
      PostModel(Post(if includeId then LowerOptional(p.id) else None, p.title, p.content, LowerHex(p.authorId)))
  }

  /** The storage form of a model whose identifiers are hexadecimal. */
  function Stored(m: Model, includeId: bool): Document
    requires HexIds(m) && Valid(m)
  {
    var dumped := ModelDump(m, Some(ObjectIdContext));
    assert dumped.Success? by { DumpSucceeds(m); }
    Exported(dumped.value, includeId)
  }

  /** The storage dump of a valid model raises exactly when one of its identifiers is not hexadecimal. */
  lemma DumpSucceeds(m: Model)
    requires Valid(m)
    ensures ModelDump(m, Some(ObjectIdContext)).Success? <==> HexIds(m)
  {
  }

  /** A stored identifier loads back as the lower-cased text it was stored from. */
  lemma IdValueRoundTrip(s: string)
    requires IsId(s) && IsHex(s)
    ensures SerializeId(s, Some(ObjectIdContext)).Success?
    ensures Stringified(SerializeId(s, Some(ObjectIdContext)).value) == Str(LowerHex(s))
    ensures ValidateRequiredId("id", Str(LowerHex(s))) == Success(LowerHex(s))
  {
  }

  /** The fields from_db yields for a stored User: its identifier as lower-case text under "id" when stored. */
  lemma UserLoaded(u: User, includeId: bool)
    requires Valid(UserModel(u)) && HexIds(UserModel(u))
    requires includeId ==> u.id.Some?
    ensures Imported(Stored(UserModel(u), includeId)) ==
              (if includeId then map[IdKey := Str(LowerHex(u.id.value))] else map[]) +
              map["username" := Str(u.username), "email" := Str(u.email)]
  {
  }

  /** The fields of a Post other than its id, as to_db stores them. */
  function PostFields(p: Post, author: ObjectId): Document {
    map["title" := Str(p.title), "content" := Str(p.content), "author_id" := Oid(author)]
  }

  /** The document to_db makes of a Post: "id" moved to "_id" when asked, author_id as an ObjectId. */
  lemma PostStored(p: Post, includeId: bool, author: ObjectId)
    requires Valid(PostModel(p)) && HexIds(PostModel(p))
    requires SerializeId(p.authorId, Some(ObjectIdContext)) == Success(Oid(author))
    ensures Stored(PostModel(p), includeId) ==
              if includeId then PostFields(p, author)[StorageIdKey := SerializeOptionalId(p.id, Some(ObjectIdContext)).value]
              else PostFields(p, author)
  {
  }

  /** The fields from_db yields for a Post stored without its id: no "id", author_id as lower-case text. */
  lemma PostLoadedWithoutId(p: Post)
    requires Valid(PostModel(p)) && HexIds(PostModel(p))
    ensures Imported(Stored(PostModel(p), false)) ==
              map["title" := Str(p.title), "content" := Str(p.content), "author_id" := Str(LowerHex(p.authorId))]
  {
  }

  /** The fields from_db yields for a Post stored with its id: identifiers as lower-case text. */
  lemma PostLoadedWithId(p: Post)
    requires Valid(PostModel(p)) && HexIds(PostModel(p))
    requires p.id.Some?
    ensures Imported(Stored(PostModel(p), true)) ==
              Imported(Stored(PostModel(p), false))[IdKey := Str(LowerHex(p.id.value))]
  {
  }

  /**
   * Storing a valid model with hexadecimal identifiers and loading it back
   * gives the same model, with lower-cased identifiers, and with its id only
   * when the id was stored.
   */
  lemma StoreThenLoad(m: Model, includeId: bool)
    requires Valid(m) && HexIds(m)
    requires includeId ==> m.Id().Some?
    ensures Construct(KindOf(m), Imported(Stored(m, includeId))) == Success(Reloaded(m, includeId))
  {
    match m
    case UserModel(u) =>
      UserLoaded(u, includeId);
      if includeId { IdValueRoundTrip(u.id.value); }
    case PostModel(p) =>
      PostLoadedWithoutId(p);
      if includeId {
        PostLoadedWithId(p);
        IdValueRoundTrip(p.id.value);
      }
      IdValueRoundTrip(p.authorId);
  }

  /** A model with lower-case identifiers stored with its id comes back unchanged. */
  lemma StoreThenLoadWithId(m: Model)
    requires Valid(m) && HexIds(m) && LowerIds(m)
    requires m.Id().Some?
    ensures Construct(KindOf(m), Imported(Stored(m, true))) == Success(m)
  {
    StoreThenLoad(m, true);
    match m
    case UserModel(u) =>
      LowerHexOfLower(u.id.value);
    case PostModel(p) =>
      LowerHexOfLower(p.id.value);
      LowerHexOfLower(p.authorId);
  }

  /** The stored id is the ObjectId of the model's id, and loading gives the model's id back as text. */
  lemma StoredIdIsObjectId(m: Model)
    requires Valid(m) && HexIds(m) && LowerIds(m)
    requires m.Id().Some?
    ensures Stored(m, true)[StorageIdKey].Oid?
    ensures ToString(Stored(m, true)[StorageIdKey].oid) == m.Id().value
    ensures Imported(Stored(m, true))[IdKey] == Str(m.Id().value)
  {
    var id := m.Id().value;
    assert SerializeId(id, Some(ObjectIdContext)).Success?;
    LowerHexOfLower(id);
  }

  /** Stored without its id, a model has no "_id" and loads back with id None. */
  lemma StoredWithoutId(m: Model)
    requires Valid(m) && HexIds(m)
    ensures StorageIdKey !in Stored(m, false)
    ensures Construct(KindOf(m), Imported(Stored(m, false))).Success?
    ensures Construct(KindOf(m), Imported(Stored(m, false))).value.Id() == None
  {
  }

  /**
   * Asking to include the id of a model that has none stores "_id": None;
   * loading that gives "id": "None", which fails identifier validation.
   */
  lemma StoredWithNullId(m: Model)
    requires Valid(m) && HexIds(m)
    requires m.Id().None?
    ensures Stored(m, true)[StorageIdKey] == Null
    ensures Imported(Stored(m, true))[IdKey] == Str("None")
    ensures Construct(KindOf(m), Imported(Stored(m, true))) == Failure(WrongLength("id", "None"))
  {
  }
}
