/**
 * The task document and its two gatekeepers (backend/models/Task.js):
 *  - the Joi request validator `validateTask`, which judges a raw request body;
 *  - the Mongoose schema, which casts a body into a stored document, trims the
 *    title, fills in the defaults and runs the `required`/`maxlength` validators,
 *    both when a document is created and when `$set` updates one.
 */
module TaskSchema {
  import opened Results
  import opened JsValues

  type UserId = string

  /** A stored task. Its `_id` is the key under which the collection holds it. */
  datatype Task = Task(
    title: string,
    description: string,
    completed: bool,
    user: UserId,
    assignedTo: Option<UserId>,
    isNotified: bool,
    assignedAt: Option<int>,
    createdAt: int)

  const TitleMaxLength: nat := 100

  /** The keys the Joi object schema declares; every other key is refused. */
  const DeclaredKeys: set<string> := {"title", "description", "completed", "assignedTo"}

  /** The first problem Joi reports (`error.details[0]`). */
  datatype ValidationError =
    | Required(key: string)
    | NotAString(key: string)
    | Empty(key: string)
    | TooLong(key: string, limit: nat)
    | NotABoolean(key: string)
    | NotAllowed(keys: set<string>)

  /** A failure of the Mongoose layer; the controllers turn it into a 500. */
  datatype SchemaError =
    | CastError(path: string)
    | ValidatorError(path: string)

  // ---------------------------------------------------------------------------
  // Joi validation
  // ---------------------------------------------------------------------------

  /** `Joi.string()` with an optional `.max(limit)`: a non-empty string, no longer than the limit. */
  function CheckString(key: string, v: Value, max: Option<nat>): Option<ValidationError> {
    match v
    case Str(s) =>
      if s == "" then Some(Empty(key))
      else if max.Some? && |s| > max.value then Some(TooLong(key, max.value))
      else None
    case _ => Some(NotAString(key))
  }

  function CheckRequiredString(body: Object, key: string, max: Option<nat>): Option<ValidationError> {
    if key !in body then Some(Required(key)) else CheckString(key, body[key], max)
  }

  function CheckOptionalString(body: Object, key: string): Option<ValidationError> {
    if key !in body then None else CheckString(key, body[key], None)
  }

  function CheckOptionalBoolean(body: Object, key: string): Option<ValidationError> {
    if key !in body || body[key].Bool? then None else Some(NotABoolean(key))
  }

  /** What the Joi schema admits, stated key by key. */
  predicate AcceptedBody(body: Object) {
    && StringAt(body, "title") && 1 <= |body["title"].s| <= TitleMaxLength
    && StringAt(body, "description") && 1 <= |body["description"].s|
    && ("completed" in body ==> body["completed"].Bool?)
    && ("assignedTo" in body ==> StringAt(body, "assignedTo") && body["assignedTo"].s != "")
    && body.Keys <= DeclaredKeys
  }

  /**
   * `validateTask`: the declared keys are checked in declaration order and the
   * first failure is reported; keys the schema does not declare are refused after
   * that. `None` means the body passed.
   */
  function ValidateTask(body: Object): (r: Option<ValidationError>)
    ensures r.None? <==> AcceptedBody(body)
    ensures "title" !in body ==> r == Some(Required("title"))
    ensures StringAt(body, "title") && |body["title"].s| > TitleMaxLength ==> r == Some(TooLong("title", TitleMaxLength))
    ensures ("title" in body && "description" !in body && CheckString("title", body["title"], Some(TitleMaxLength)).None?)
      ==> r == Some(Required("description"))
    ensures r.Some? && r.value.NotAllowed? ==> r.value.keys == body.Keys - DeclaredKeys && r.value.keys != {}
    ensures body.Keys !! DeclaredKeys && body.Keys != {} ==> r == Some(Required("title"))
  {
    var title := CheckRequiredString(body, "title", Some(TitleMaxLength));
    if title.Some? then title else
    var description := CheckRequiredString(body, "description", None);
    if description.Some? then description else
    var completed := CheckOptionalBoolean(body, "completed");
    if completed.Some? then completed else
    var assignedTo := CheckOptionalString(body, "assignedTo");
    if assignedTo.Some? then assignedTo else
    var unknown := body.Keys - DeclaredKeys;
    if unknown != {} then Some(NotAllowed(unknown)) else None
  }

  // ---------------------------------------------------------------------------
  // String.prototype.trim, used by the `trim: true` option on the title
  // ---------------------------------------------------------------------------

  /** ECMAScript WhiteSpace and LineTerminator code points, the ones `trim` removes. */
  predicate IsJsWhitespace(c: char) {
    || c == '\t' || c == '\n' || c == '\U{000B}' || c == '\U{000C}' || c == '\r' || c == ' '
    || c == '\U{00A0}' || c == '\U{1680}' || ('\U{2000}' <= c <= '\U{200A}')
    || c == '\U{2028}' || c == '\U{2029}' || c == '\U{202F}' || c == '\U{205F}'
    || c == '\U{3000}' || c == '\U{FEFF}'
  }

  /** The string without its leading whitespace. */
  function TrimStart(s: string): (r: string)
    ensures |r| <= |s| && r == s[|s| - |r|..]
    ensures forall k :: 0 <= k < |s| - |r| ==> IsJsWhitespace(s[k])
    ensures r == [] || !IsJsWhitespace(r[0])
  {
    if s != [] && IsJsWhitespace(s[0]) then TrimStart(s[1..]) else s
  }

  /** The string without its trailing whitespace. */
  function TrimEnd(s: string): (r: string)
    ensures |r| <= |s| && r == s[..|r|]
    ensures forall k :: |r| <= k < |s| ==> IsJsWhitespace(s[k])
    ensures r == [] || !IsJsWhitespace(r[|r| - 1])
  {
    if s != [] && IsJsWhitespace(s[|s| - 1]) then TrimEnd(s[..|s| - 1]) else s
  }

  function Trim(s: string): string {
    TrimEnd(TrimStart(s))
  }

  /** A string that neither starts nor ends with whitespace. */
  predicate Trimmed(s: string) {
    s == [] || (!IsJsWhitespace(s[0]) && !IsJsWhitespace(s[|s| - 1]))
  }

  /** Where the trimmed text starts in the original string. */
  function TrimOffset(s: string): nat {
    |s| - |TrimStart(s)|
  }

  /** `trim` yields a trimmed slice of its input, with only whitespace cut off either side. */
  lemma TrimIsTrimmedSlice(s: string)
    ensures Trimmed(Trim(s))
    ensures TrimOffset(s) + |Trim(s)| <= |s|
    ensures Trim(s) == s[TrimOffset(s)..TrimOffset(s) + |Trim(s)|]
    ensures forall k :: 0 <= k < |s| && !(TrimOffset(s) <= k < TrimOffset(s) + |Trim(s)|) ==> IsJsWhitespace(s[k])
  {
    var a := TrimStart(s);
    var i := |s| - |a|;
    assert a == s[i..];
    var b := TrimEnd(a);
    assert b == a[..|b|];
    SliceOfSuffix(s, i, |b|);
    forall k | i + |b| <= k < |s|
      ensures IsJsWhitespace(s[k])
    {
      assert s[k] == a[k - i];
    }
    if b != [] {
      assert b[0] == a[0];
    }
  }

  lemma SliceOfSuffix(s: string, i: nat, n: nat)
    requires i + n <= |s|
    ensures s[i..][..n] == s[i..i + n]
  {
  }

  lemma TrimStartOfTrimmed(s: string)
    requires s == [] || !IsJsWhitespace(s[0])
    ensures TrimStart(s) == s
  {
  }

  lemma TrimEndOfTrimmed(s: string)
    requires s == [] || !IsJsWhitespace(s[|s| - 1])
    ensures TrimEnd(s) == s
  {
  }

  /** Trimming a trimmed string changes nothing; in particular `trim` is idempotent. */
  lemma TrimOfTrimmed(s: string)
    requires Trimmed(s)
    ensures Trim(s) == s
  {
    TrimStartOfTrimmed(s);
    TrimEndOfTrimmed(s);
  }

  lemma TrimIdempotent(s: string)
    ensures Trim(Trim(s)) == Trim(s)
  {
    TrimIsTrimmedSlice(s);
    TrimOfTrimmed(Trim(s));
  }

  // ---------------------------------------------------------------------------
  // The Mongoose schema
  // ---------------------------------------------------------------------------

  /** The constraints the schema keeps on every stored task. */
  predicate WellFormedTask(t: Task) {
    && Trimmed(t.title)
    && 1 <= |t.title| <= TitleMaxLength
    && t.description != ""
  }

  /** Reading a String or ObjectId path: absent and `null` read as no value. */
  function CastString(doc: Object, path: string): Result<Option<string>, SchemaError> {
    if path !in doc then Success(None)
    else match doc[path]
      case Str(s) => Success(Some(s))
      case Null => Success(None)
      case _ => Failure(CastError(path))
  }

  function CastBoolean(doc: Object, path: string): Result<Option<bool>, SchemaError> {
    if path !in doc then Success(None)
    else match doc[path]
      case Bool(b) => Success(Some(b))
      case _ => Failure(CastError(path))
  }

  function CastDate(doc: Object, path: string): Result<Option<int>, SchemaError> {
    if path !in doc then Success(None)
    else match doc[path]
      case Num(n) => Success(Some(n))
      case _ => Failure(CastError(path))
  }

  /** The schema paths of a body after casting; `None` where the body gives no value. */
  datatype Paths = Paths(
    title: Option<string>,
    description: Option<string>,
    completed: Option<bool>,
    user: Option<UserId>,
    assignedTo: Option<UserId>,
    isNotified: Option<bool>,
    assignedAt: Option<int>,
    createdAt: Option<int>)

  /** The value a body gives for a String or ObjectId path, `None` for absent or `null`. */
  function StringOf(doc: Object, path: string): Option<string> {
    if StringAt(doc, path) then Some(doc[path].s) else None
  }

  function BooleanOf(doc: Object, path: string): Option<bool> {
    if path in doc && doc[path].Bool? then Some(doc[path].b) else None
  }

  function DateOf(doc: Object, path: string): Option<int> {
    if path in doc && doc[path].Num? then Some(doc[path].n) else None
  }

  /** Every schema path the body names holds a value of the path's type. */
  predicate Castable(doc: Object) {
    && (forall p :: p in doc && p in {"title", "description", "user", "assignedTo"} ==> doc[p].Str? || doc[p].Null?)
    && (forall p :: p in doc && p in {"completed", "isNotified"} ==> doc[p].Bool?)
    && (forall p :: p in doc && p in {"assignedAt", "createdAt"} ==> doc[p].Num?)
  }

  /** Casting every schema path; the first path whose value has the wrong type fails. */
  function CastPaths(doc: Object): (r: Result<Paths, SchemaError>)
    ensures r.Success? <==> Castable(doc)
    ensures r.Success? ==> r.value == Paths(
      StringOf(doc, "title"), StringOf(doc, "description"), BooleanOf(doc, "completed"),
      StringOf(doc, "user"), StringOf(doc, "assignedTo"), BooleanOf(doc, "isNotified"),
      DateOf(doc, "assignedAt"), DateOf(doc, "createdAt"))
  {
    var title :- CastString(doc, "title");
    var description :- CastString(doc, "description");
    var completed :- CastBoolean(doc, "completed");
    var user :- CastString(doc, "user");
    var assignedTo :- CastString(doc, "assignedTo");
    var isNotified :- CastBoolean(doc, "isNotified");
    var assignedAt :- CastDate(doc, "assignedAt");
    var createdAt :- CastDate(doc, "createdAt");
    Success(Paths(title, description, completed, user, assignedTo, isNotified, assignedAt, createdAt))
  }

  /** The title as the schema stores it: trimmed, then `required` and `maxlength: 100`. */
  function StoredTitle(title: Option<string>): (r: Result<string, SchemaError>)
    ensures r.Success? <==> title.Some? && Trim(title.value) != [] && |Trim(title.value)| <= TitleMaxLength
    ensures r.Success? ==> r.value == Trim(title.value) && Trimmed(r.value)
  {
    TrimIsTrimmedSlice(title.GetOr(""));
    if title.None? then Failure(ValidatorError("title"))
    else
      var t := Trim(title.value);
      if t == [] || |t| > TitleMaxLength then Failure(ValidatorError("title")) else Success(t)
  }

  /** The description as the schema stores it: `required`, so the empty string fails. */
  function StoredDescription(description: Option<string>): Result<string, SchemaError> {
    if description.None? || description.value == "" then Failure(ValidatorError("description"))
    else Success(description.value)
  }

  /**
   * `Task.create(doc)`: cast each schema path of the body, apply the defaults
   * (`completed` and `isNotified` false, `createdAt` the current time) and run the
   * validators. Keys outside the schema are dropped.
   */
  function BuildTask(doc: Object, now: int): (r: Result<Task, SchemaError>)
    ensures r.Success? <==>
      && Castable(doc)
      && StringAt(doc, "title") && Trim(doc["title"].s) != [] && |Trim(doc["title"].s)| <= TitleMaxLength
      && StringAt(doc, "description") && doc["description"].s != ""
      && StringAt(doc, "user")
    ensures r.Success? ==> WellFormedTask(r.value)
    ensures r.Success? ==> r.value == Task(
      Trim(doc["title"].s), doc["description"].s, BooleanOf(doc, "completed") == Some(true), doc["user"].s,
      StringOf(doc, "assignedTo"), BooleanOf(doc, "isNotified") == Some(true), DateOf(doc, "assignedAt"),
      DateOf(doc, "createdAt").GetOr(now))
  {
    var paths :- CastPaths(doc);
    var title :- StoredTitle(paths.title);
    var description :- StoredDescription(paths.description);
    if paths.user.None? then Failure(ValidatorError("user"))
    else Success(Task(title, description, paths.completed.GetOr(false), paths.user.value,
                      paths.assignedTo, paths.isNotified.GetOr(false), paths.assignedAt, paths.createdAt.GetOr(now)))
  }

  /**
   * `findByIdAndUpdate(id, body, {runValidators: true})`: every schema path the
   * body names is `$set` after the same casting, trimming and validators as on
   * creation; every other field keeps its value.
   */
  function ApplySet(task: Task, body: Object): (r: Result<Task, SchemaError>)
    requires WellFormedTask(task)
    ensures r.Success? <==>
      && Castable(body)
      && ("title" in body ==> StringAt(body, "title") && Trim(body["title"].s) != [] && |Trim(body["title"].s)| <= TitleMaxLength)
      && ("description" in body ==> StringAt(body, "description") && body["description"].s != "")
      && ("user" in body ==> StringAt(body, "user"))
    ensures r.Success? ==> WellFormedTask(r.value)
    ensures r.Success? ==> r.value == Task(
      if "title" in body then Trim(body["title"].s) else task.title,
      if "description" in body then body["description"].s else task.description,
      BooleanOf(body, "completed").GetOr(task.completed),
      StringOf(body, "user").GetOr(task.user),
      if "assignedTo" in body then StringOf(body, "assignedTo") else task.assignedTo,
      BooleanOf(body, "isNotified").GetOr(task.isNotified),
      if "assignedAt" in body then DateOf(body, "assignedAt") else task.assignedAt,
      DateOf(body, "createdAt").GetOr(task.createdAt))
  {
    var paths :- CastPaths(body);
    var title :- if "title" in body then StoredTitle(paths.title) else Success(task.title);
    var description :- if "description" in body then StoredDescription(paths.description) else Success(task.description);
    if "user" in body && paths.user.None? then Failure(ValidatorError("user"))
    else Success(Task(
      title,
      description,
      paths.completed.GetOr(task.completed),
      paths.user.GetOr(task.user),
      if "assignedTo" in body then paths.assignedTo else task.assignedTo,
      paths.isNotified.GetOr(task.isNotified),
      if "assignedAt" in body then paths.assignedAt else task.assignedAt,
      paths.createdAt.GetOr(task.createdAt)))
  }

  /** A body Joi accepts always fits the Mongoose casts; only a blank title can still fail. */
  lemma AcceptedBodyBuilds(body: Object, user: UserId, now: int)
    requires AcceptedBody(body)
    ensures BuildTask(body["user" := Str(user)], now).Success? <==> Trim(body["title"].s) != []
  {
    var doc := body["user" := Str(user)];
    assert "user" !in body && "assignedAt" !in body && "isNotified" !in body && "createdAt" !in body;
    assert doc["title"] == body["title"] && doc["description"] == body["description"];
    assert Castable(doc);
    TrimIsTrimmedSlice(body["title"].s);
  }
}
