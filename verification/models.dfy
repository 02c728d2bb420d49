/**
 * The identifier field types and the two record models: validation of
 * `RequiredId` / `OptionalId`, their context-dependent serialisation, the
 * `User` and `Post` field shapes, `model_dump(context=...)` and building a
 * model from keyword arguments (`User(**fields)`).
 */
module Models {
  import opened Wrappers
  import opened Bson
  import opened Values

  /** The serialisation context under which identifiers become ObjectIds. */
  const ObjectIdContext: string := "objectid"

  /** The exact length (both min_length and max_length) of an identifier. */
  const IdLength: nat := 24

  datatype Error =
    | WrongLength(field: string, got: string)  // the length constraint on an identifier failed
    | NotAString(field: string)                // a `str` field was given a non-string
    | MissingField(field: string)              // a required field was not supplied
    | InvalidId(text: string)                  // ObjectId(text) raised while serialising

  /** What an accepted identifier looks like. */
  predicate IsId(s: string) {
    |s| == IdLength
  }

  predicate IsOptionalId(id: Option<string>) {
    id.None? || IsId(id.value)
  }

  /** RequiredId validation: coerce with str(), then check the length. */
  function ValidateRequiredId(field: string, input: Value): (r: Result<string, Error>)
    ensures r.Success? <==> |PyStr(input)| == IdLength
    ensures r.Success? ==> IsId(r.value) && r.value == PyStr(input)
    ensures r.Failure? ==> r.error == WrongLength(field, PyStr(input))
  {
    var s := PyStr(input);
    if |s| == IdLength then Success(s) else Failure(WrongLength(field, s))
  }

  /** OptionalId validation: None is accepted as such, anything else must be a RequiredId. */
  function ValidateOptionalId(field: string, input: Value): (r: Result<Option<string>, Error>)
    ensures input.Null? ==> r == Success(None)
    ensures !input.Null? ==> (r.Success? <==> |PyStr(input)| == IdLength)
    ensures !input.Null? && r.Success? ==> r.value == Some(PyStr(input))
    ensures r.Success? ==> IsOptionalId(r.value)
  {
    if input.Null? then Success(None)
    else
      var s :- ValidateRequiredId(field, input);
      Success(Some(s))
  }

  /** The RequiredId serialiser: an ObjectId only under the "objectid" context and for a non-empty value. */
  function SerializeId(value: string, context: Option<string>): (r: Result<Value, Error>)
    ensures r.Success? && r.value.Oid? <==>
              context == Some(ObjectIdContext) && value != "" && |value| == HexLength && IsHex(value)
    ensures r.Success? && r.value.Oid? ==> ToString(r.value.oid) == LowerHex(value)
    ensures r.Success? && !r.value.Oid? ==> r.value == Str(value)
    ensures r.Failure? <==>
              context == Some(ObjectIdContext) && value != "" && !(|value| == HexLength && IsHex(value))
    ensures r.Failure? ==> r.error == InvalidId(value)
  {
    if context == Some(ObjectIdContext) && value != "" then
      match FromString(value)
      case Some(oid) => ToStringFromString(value); Success(Oid(oid))
      case None => Failure(InvalidId(value))
    else Success(Str(value))
  }

  /** The OptionalId serialiser: None dumps as None, a present id as a RequiredId. */
  function SerializeOptionalId(id: Option<string>, context: Option<string>): (r: Result<Value, Error>)
    ensures r == Success(Null) <==> id.None?
    ensures r.Success? && r.value.Oid? <==>
              id.Some? && context == Some(ObjectIdContext) && id.value != "" && |id.value| == HexLength && IsHex(id.value)
    ensures r.Success? && r.value.Str? ==> id == Some(r.value.s)
    ensures r.Success? && id.Some? && !r.value.Oid? ==> r.value == Str(id.value)
    ensures r.Success? && r.value.Oid? ==> ToString(r.value.oid) == LowerHex(id.value)
    ensures r.Failure? <==>
              id.Some? && context == Some(ObjectIdContext) && id.value != "" && !(|id.value| == HexLength && IsHex(id.value))
  {
    match id
    case None => Success(Null)
    case Some(s) => SerializeId(s, context)
  }

  datatype User = User(id: Option<string>, username: string, email: string)

  datatype Post = Post(id: Option<string>, title: string, content: string, authorId: string)

  /** Any of the record models. */
  datatype Model = UserModel(user: User) | PostModel(post: Post) {
    function Id(): Option<string> {
      match this
      case UserModel(u) => u.id
      case PostModel(p) => p.id
    }
  }

  datatype Kind = UserKind | PostKind

  function KindOf(m: Model): Kind {
    match m
    case UserModel(_) => UserKind
    case PostModel(_) => PostKind
  }

  /** The declared fields of each model, by their Python names. */
  function FieldNames(k: Kind): set<string> {
    match k
    case UserKind => {"id", "username", "email"}
    case PostKind => {"id", "title", "content", "author_id"}
  }

  /** The field invariants that validation establishes. */
  predicate Valid(m: Model) {
    match m
    case UserModel(u) => IsOptionalId(u.id)
    case PostModel(p) => IsOptionalId(p.id) && IsId(p.authorId)
  }

  /** model_dump(context=...): every declared field, identifiers through their serialiser. */
  function ModelDump(m: Model, context: Option<string>): (r: Result<Document, Error>)
    ensures r.Success? ==> r.value.Keys == FieldNames(KindOf(m))
    ensures r.Success? && context != Some(ObjectIdContext) ==>
              forall k :: k in r.value ==> !r.value[k].Oid?
  {
    match m
    case UserModel(u) =>
      var id :- SerializeOptionalId(u.id, context);
      Success(map["id" := id, "username" := Str(u.username), "email" := Str(u.email)])
    case PostModel(p) =>
      var id :- SerializeOptionalId(p.id, context);
      var authorId :- SerializeId(p.authorId, context);
      Success(map["id" := id, "title" := Str(p.title), "content" := Str(p.content),
                  "author_id" := authorId])
  }

  function StrField(fields: Document, name: string): Result<string, Error> {
    if name !in fields then Failure(MissingField(name))
    else if fields[name].Str? then Success(fields[name].s)
    else Failure(NotAString(name))
  }

  function RequiredIdField(fields: Document, name: string): Result<string, Error> {
    if name !in fields then Failure(MissingField(name)) else ValidateRequiredId(name, fields[name])
  }

  /** An OptionalId field defaults to None when not supplied. */
  function OptionalIdField(fields: Document, name: string): (r: Result<Option<string>, Error>)
    ensures name !in fields ==> r == Success(None)
    ensures r.Success? <==> IdAccepted(fields, name)
    ensures r.Success? ==> r.value == SuppliedId(fields, name)
  {
    if name !in fields then Success(None) else ValidateOptionalId(name, fields[name])
  }

  /** The optional identifier `name` is absent, None, or has a 24-character str() form. */
  predicate IdAccepted(fields: Document, name: string) {
    name !in fields || fields[name].Null? || |PyStr(fields[name])| == IdLength
  }

  /** The optional identifier that `fields` supply under `name`, as text. */
  function SuppliedId(fields: Document, name: string): Option<string> {
    if name !in fields || fields[name].Null? then None else Some(PyStr(fields[name]))
  }

  /** A string is supplied under `name`. */
  predicate StrSupplied(fields: Document, name: string) {
    name in fields && fields[name].Str?
  }

  /**
   * Model(**fields): validate each declared field; undeclared keys are ignored.
   * It succeeds exactly when every field is acceptable, and then the model holds
   * the supplied values.
   */
  function Construct(k: Kind, fields: Document): (r: Result<Model, Error>)
    ensures r.Success? ==> Valid(r.value) && KindOf(r.value) == k
    ensures k == UserKind ==>
              (r.Success? <==> IdAccepted(fields, "id") && StrSupplied(fields, "username") && StrSupplied(fields, "email"))
    ensures k == UserKind && r.Success? ==>
              r.value == UserModel(User(SuppliedId(fields, "id"), fields["username"].s, fields["email"].s))
    ensures k == PostKind ==>
              (r.Success? <==> IdAccepted(fields, "id") && StrSupplied(fields, "title") && StrSupplied(fields, "content")
                               && "author_id" in fields && |PyStr(fields["author_id"])| == IdLength)
    ensures k == PostKind && r.Success? ==>
              r.value == PostModel(Post(SuppliedId(fields, "id"), fields["title"].s, fields["content"].s,
                                        PyStr(fields["author_id"])))
  {
    match k
    case UserKind =>
      var id :- OptionalIdField(fields, "id");
      var username :- StrField(fields, "username");
      var email :- StrField(fields, "email");
      Success(UserModel(User(id, username, email)))
    case PostKind =>
      var id :- OptionalIdField(fields, "id");
      var title :- StrField(fields, "title");
      var content :- StrField(fields, "content");
      var authorId :- RequiredIdField(fields, "author_id");
      Success(PostModel(Post(id, title, content, authorId)))
  }

  /** A string identifier is accepted exactly when it has 24 characters, and is kept as given. */
  lemma StringIdAcceptedIffLength(field: string, s: string)
    ensures ValidateRequiredId(field, Str(s)).Success? <==> |s| == IdLength
    ensures ValidateRequiredId(field, Str(s)).Success? ==> ValidateRequiredId(field, Str(s)).value == s
  {
  }

  /** Validation sees only the str() form of its input. */
  lemma ValidationCoercesFirst(field: string, input: Value)
    ensures ValidateRequiredId(field, input) == ValidateRequiredId(field, Str(PyStr(input)))
  {
  }

  /** An ObjectId given for an identifier is accepted as its hex text. */
  lemma ObjectIdInputAccepted(field: string, oid: ObjectId)
    ensures ValidateRequiredId(field, Oid(oid)) == Success(ToString(oid))
  {
  }

  /** The integer 12345 is coerced to "12345" and rejected for its length. */
  lemma IntegerIdRejected(field: string)
    ensures ValidateRequiredId(field, Int(12345)) == Failure(WrongLength(field, "12345"))
  {
    assert DecimalDigits(12345) == "12345";
  }

  /** A User built without an id has id None. */
  lemma UserIdDefaultsToNone(username: string, email: string)
    ensures Construct(UserKind, map["username" := Str(username), "email" := Str(email)])
            == Success(UserModel(User(None, username, email)))
  {
  }

  /** Dumping a Post for storage turns its hexadecimal author_id into an ObjectId. */
  lemma PostAuthorIdStoredAsObjectId(p: Post)
    requires IsOptionalId(p.id) && IsId(p.authorId) && IsHex(p.authorId)
    requires p.id.Some? ==> IsHex(p.id.value)
    ensures ModelDump(PostModel(p), Some(ObjectIdContext)).Success?
    ensures ModelDump(PostModel(p), Some(ObjectIdContext)).value["author_id"].Oid?
  {
  }

  /** Rebuilding a valid model from its plain dump gives the same model back. */
  lemma ConstructModelDump(m: Model, context: Option<string>)
    requires Valid(m)
    requires context != Some(ObjectIdContext)
    ensures ModelDump(m, context).Success?
    ensures Construct(KindOf(m), ModelDump(m, context).value) == Success(m)
  {
  }
}
