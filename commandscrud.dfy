/** src/functions/dynamo_commands_crud/index.ts: the REST router over the
    Commands table. Callers come through the authorizer, whose context
    carries the caller's user record; GET and PUT/PATCH hide the owner's
    apiKey, uuid and description from callers who are neither elevated nor
    the owner. */
module CommandsCrud {
  import opened Wrappers
  import opened Js
  import opened JsStrings
  import opened Models
  import opened Store
  import opened DynamoDbHelper
  import opened ServiceErrors
  import opened Lambda
  import opened HttpStatus
  import CommandsService

  /** The attributes every caller may see. */
  const PUBLIC := {"command", "endpoint", "isEnabled", "updatedAt", "createdAt"}

  /** The redacted view of a command: the public attributes and nothing else. */
  function Redacted(found: Value): (r: Value)
    ensures r.Rec? && r.fields.Keys == PUBLIC
    ensures forall a :: a in PUBLIC ==> r.fields[a] == Get(found, a)
  {
    Rec(map a | a in PUBLIC :: Get(found, a))
  }

  /** What a GET, or a PUT/PATCH that resolved with `found`, answers. */
  function View(found: Value, full: bool): Value {
    if full then found else Redacted(found)
  }

  /** `params?.command?.replace(/\//gi, "")?.replace(/-/gi, "_")?.toLowerCase()`:
      a missing name stays missing, a string is normalised, and anything else
      has no `replace` to call. */
  function NormalisedName(v: Value): (r: Result<Value, Fault>)
    ensures Nullish(v) ==> r == Success(Undefined)
    ensures !Nullish(v) && !v.Str? ==> r == Failure(TypeErrorFault)
    ensures v.Str? ==> r.Success? && r.value.Str? && IsNormal(r.value.s)
    ensures v.Str? ==> |r.value.s| == |RemoveChar(v.s, '/')|
  {
    if Nullish(v) then Success(Undefined)
    else if !v.Str? then Failure(TypeErrorFault)
    else Success(Str(ToLowerAscii(ReplaceChar(RemoveChar(v.s, '/'), '-', '_'))))
  }

  /** No slash, no hyphen, no upper-case ASCII letter. */
  predicate IsNormal(s: string) {
    '/' !in s && '-' !in s && forall i :: 0 <= i < |s| ==> !('A' <= s[i] <= 'Z')
  }

  lemma {:induction false} RemoveAbsentChar(s: string, c: char)
    requires c !in s
    ensures RemoveChar(s, c) == s
    decreases |s|
  {
    if s != "" {
      RemoveAbsentChar(s[1..], c);
      assert s == [s[0]] + s[1..];
    }
  }

  /** A name that is already normal is stored as it is, so normalising twice
      is normalising once. */
  lemma NormalNameIsKept(s: string)
    requires IsNormal(s)
    ensures NormalisedName(Str(s)) == Success(Str(s))
  {
    RemoveAbsentChar(s, '/');
    assert ReplaceChar(s, '-', '_') == s;
    assert ToLowerAscii(s) == s;
  }

  lemma NormaliseIdempotent(v: Value)
    requires v.Str?
    ensures var once := NormalisedName(v).value;
      NormalisedName(once) == Success(once)
  {
    NormalNameIsKept(NormalisedName(v).value.s);
  }

  /** `get`: the command whose uuid is `body.uuid`, whole to an elevated
      caller and redacted to any other. */
  ghost function GetResponse(tbl: Table, body: Value, user: Value): Handled {
    var uuid := UuidOf(body);
    if uuid.Failure? then Handled(Failure(uuid.error), tbl)
    else
      var found := ResolveOneSpec(Commands, tbl, "uuid", uuid.value, "command");
      if found.Failure? then Handled(Failure(found.error), tbl)
      else if !Truthy(found.value) then Handled(Success(ApiResponse(NOT_FOUND, None)), tbl)
      else Handled(Success(ApiResponse(OK, Some(View(found.value, IsElevated(user))))), tbl)
  }

  /** The record `post` hands to `create`. */
  function PostedCommand(params: Value, name: Value, user: Value): Obj {
    AsObj(params) + map["command" := name, "isEnabled" := Bool(true), "apiKey" := Get(user, "apiKey")]
  }

  /** `post`: a caller without an apiKey is refused; otherwise the command is
      created under its normalised name, enabled and owned by the caller. */
  function PostResponse(tbl: Table, params: Value, user: Value, uuid: string, now: int): Handled {
    if !Truthy(Get(user, "apiKey")) then Handled(Success(ApiResponse(BAD_REQUEST, None)), tbl)
    else
      var name := NormalisedName(Get(params, "command"));
      if name.Failure? then Handled(Failure(name.error), tbl)
      else
        var o := CommandsService.CreateSpec(tbl, PostedCommand(params, name.value, user), uuid, now);
        if o.result.Failure? then Handled(Failure(o.result.error), o.tbl)
        else Handled(Success(ApiResponse(CREATED, Some(o.result.value))), o.tbl)
  }

  /** `update`: the service's update, then the whole record to an elevated
      caller or the owner and the redacted view to anyone else. */
  function UpdateResponse(tbl: Table, params: Value, user: Value, now: int): Handled {
    var o := CommandsService.UpdateWith(tbl, AsObj(params), user, now, {"apiKey", "command"});
    if o.result.Failure? then Handled(Failure(o.result.error), o.tbl)
    else
      var found := o.result.value;
      var full := IsElevated(user) || StrictEq(Get(found, "apiKey"), Get(user, "apiKey"));
      Handled(Success(ApiResponse(OK, Some(View(found, full)))), o.tbl)
  }

  /** `remove`: the service's remove is handed `body.uuid`, and deletes by
      command name. */
  function RemoveResponse(tbl: Table, body: Value): Handled {
    var uuid := UuidOf(body);
    if uuid.Failure? then Handled(Failure(uuid.error), tbl)
    else
      var d := DeleteSpec(tbl, uuid.value);
      if d.Failure? then Handled(Failure(d.error), tbl)
      else Handled(Success(ApiResponse(NO_CONTENT, None)), d.value)
  }

  /** `methods[httpMethod]` for one of the five methods. */
  ghost function Dispatch(tbl: Table, httpMethod: string, body: Value, user: Value, uuid: string, now: int): Handled {
    if httpMethod == "GET" then GetResponse(tbl, body, user)
    else if httpMethod == "POST" then PostResponse(tbl, body, user, uuid, now)
    else if httpMethod == "DELETE" then RemoveResponse(tbl, body)
    else UpdateResponse(tbl, body, user, now)
  }

  /** The body a method handler gets: `{uuid: id}` when there is a path id,
      else the parsed request body. */
  function RequestBody(req: ApiRequest): Result<Value, Fault> {
    if Truthy(req.pathId) then Success(Rec(map["uuid" := req.pathId])) else req.parsedBody
  }

  /** `dynamoDBCommandsCrud`: the method table, the blank-request check,
      the caller's apiKey, then the handler; anything thrown is answered with
      its status (or 500) and `{"error": message}`. */
  ghost function RouteResponse(tbl: Table, req: ApiRequest, uuid: string, now: int): Served {
    if req.httpMethod !in CRUD_METHODS then Served(ApiResponse(METHOD_NOT_ALLOWED, None), tbl)
    else if BlankRequest(req) then Served(ApiResponse(BAD_GATEWAY, None), tbl)
    else if req.contextUser.Failure? then Served(Thrown(req.contextUser.error), tbl)
    else
      var user := req.contextUser.value;
      if !Truthy(Get(user, "apiKey")) then Served(ApiResponse(UNAUTHORIZED, None), tbl)
      else
        var body := RequestBody(req);
        if body.Failure? then Served(Thrown(body.error), tbl)
        else Answer(Dispatch(tbl, req.httpMethod, body.value, user, uuid, now))
  }

  method GetCommand(db: Db, body: Value, user: Value) returns (r: Result<ApiResponse, Fault>)
    ensures Handled(r, db.commands) == GetResponse(db.commands, body, user)
  {
    var uuid := UuidOf(body);
    if uuid.Failure? {
      return Failure(uuid.error);
    }
    var found := CommandsService.GetByUuid(db, uuid.value);
    if found.Failure? {
      return Failure(found.error);
    }
    if !Truthy(found.value) {
      return Success(ApiResponse(NOT_FOUND, None));
    }
    r := Success(ApiResponse(OK, Some(View(found.value, IsElevated(user)))));
  }

  method PostCommand(db: Db, params: Value, user: Value, uuid: string, now: int) returns (r: Result<ApiResponse, Fault>)
    modifies db
    ensures Handled(r, db.commands) == PostResponse(old(db.commands), params, user, uuid, now)
    ensures db.users == old(db.users) && db.groups == old(db.groups)
  {
    if !Truthy(Get(user, "apiKey")) {
      return Success(ApiResponse(BAD_REQUEST, None));
    }
    var name := NormalisedName(Get(params, "command"));
    if name.Failure? {
      return Failure(name.error);
    }
    var item := CommandsService.Create(db, PostedCommand(params, name.value, user), uuid, now);
    if item.Failure? {
      return Failure(item.error);
    }
    r := Success(ApiResponse(CREATED, Some(item.value)));
  }

  method UpdateCommand(db: Db, params: Value, user: Value, now: int) returns (r: Result<ApiResponse, Fault>)
    modifies db
    ensures Handled(r, db.commands) == UpdateResponse(old(db.commands), params, user, now)
    ensures db.users == old(db.users) && db.groups == old(db.groups)
  {
    var found := CommandsService.Update(db, AsObj(params), user, now);
    if found.Failure? {
      return Failure(found.error);
    }
    var full := IsElevated(user) || StrictEq(Get(found.value, "apiKey"), Get(user, "apiKey"));
    r := Success(ApiResponse(OK, Some(View(found.value, full))));
  }

  method RemoveCommand(db: Db, body: Value) returns (r: Result<ApiResponse, Fault>)
    modifies db
    ensures Handled(r, db.commands) == RemoveResponse(old(db.commands), body)
    ensures db.users == old(db.users) && db.groups == old(db.groups)
  {
    var uuid := UuidOf(body);
    if uuid.Failure? {
      return Failure(uuid.error);
    }
    var d := CommandsService.Remove(db, uuid.value);
    if d.Failure? {
      return Failure(d.error);
    }
    r := Success(ApiResponse(NO_CONTENT, None));
  }

  method DynamoDBCommandsCrud(db: Db, req: ApiRequest, uuid: string, now: int) returns (resp: ApiResponse)
    modifies db
    ensures Served(resp, db.commands) == RouteResponse(old(db.commands), req, uuid, now)
    ensures db.users == old(db.users) && db.groups == old(db.groups)
  {
    if req.httpMethod !in CRUD_METHODS {
      return ApiResponse(METHOD_NOT_ALLOWED, None);
    }
    if BlankRequest(req) {
      return ApiResponse(BAD_GATEWAY, None);
    }
    if req.contextUser.Failure? {
      return Thrown(req.contextUser.error);
    }
    var user := req.contextUser.value;
    if !Truthy(Get(user, "apiKey")) {
      return ApiResponse(UNAUTHORIZED, None);
    }
    var body := RequestBody(req);
    if body.Failure? {
      return Thrown(body.error);
    }
    var r;
    if req.httpMethod == "GET" {
      r := GetCommand(db, body.value, user);
    } else if req.httpMethod == "POST" {
      r := PostCommand(db, body.value, user, uuid, now);
    } else if req.httpMethod == "DELETE" {
      r := RemoveCommand(db, body.value);
    } else {
      r := UpdateCommand(db, body.value, user, now);
    }
    resp := Answer(Handled(r, db.commands)).response;
  }

  /** GET on a well-keyed table: no command with that uuid is NOT_FOUND; the
      one command with it is shown whole to an elevated caller and without
      apiKey, uuid or description to any other. Nothing is written. */
  lemma GetShowsByRole(tbl: Table, body: Value, user: Value)
    requires WellKeyed(Commands, tbl)
    requires !Nullish(body) && !Get(body, "uuid").Undefined?
    ensures var h := GetResponse(tbl, body, user);
      var m := MatchKeys(tbl, "uuid", Get(body, "uuid"));
      && h.tbl == tbl
      && (m == {} ==> h.result == Success(ApiResponse(NOT_FOUND, None)))
      && (forall k :: m == {k} ==>
            h.result == Success(ApiResponse(OK, Some(if IsElevated(user) then Rec(tbl[k]) else Redacted(Rec(tbl[k]))))))
      && (!IsElevated(user) && h.result.Success? && h.result.value.body.Some? ==>
            var b := h.result.value.body.value;
            b.Rec? && "apiKey" !in b.fields && "uuid" !in b.fields && "description" !in b.fields)
  {
    ResolveOneFindsMatch(Commands, tbl, "uuid", Get(body, "uuid"));
    assert "apiKey" !in PUBLIC && "uuid" !in PUBLIC && "description" !in PUBLIC;
  }

  /** POST by a caller with an apiKey, of a string name that normalises to a
      free, non-empty name, stores the parameters under that name, enabled,
      owned by the caller's apiKey, with the fresh uuid and timestamps, and
      answers CREATED with the stored record. A name already taken is
      "Forbidden" and writes nothing; a caller without an apiKey gets
      BAD_REQUEST and nothing is written. */
  lemma PostCreatesNormalised(tbl: Table, params: Value, user: Value, uuid: string, now: int)
    requires Get(params, "command").Str?
    requires forall a :: a in AsObj(params) ==> !AsObj(params)[a].Undefined?
    ensures var name := NormalisedName(Get(params, "command")).value.s;
      var rec := CommandsService.NewCommand(PostedCommand(params, Str(name), user), uuid, now);
      var h := PostResponse(tbl, params, user, uuid, now);
      && IsNormal(name)
      && (!Truthy(Get(user, "apiKey")) ==> h == Handled(Success(ApiResponse(BAD_REQUEST, None)), tbl))
      && (Truthy(Get(user, "apiKey")) && name != "" && name in tbl ==> h == Handled(Failure(ForbiddenFault), tbl))
      && (Truthy(Get(user, "apiKey")) && name != "" && name !in tbl ==>
            && h == Handled(Success(ApiResponse(CREATED, Some(Rec(rec)))), tbl[name := rec])
            && rec["command"] == Str(name) && rec["isEnabled"] == Bool(true)
            && rec["apiKey"] == Get(user, "apiKey") && rec["uuid"] == Str(uuid))
  {
    var name := NormalisedName(Get(params, "command")).value;
    if Truthy(Get(user, "apiKey")) {
      PostWithKey(tbl, params, user, uuid, now, name.s);
    }
  }

  /** A caller with an apiKey: the create step under the normalised name. */
  lemma PostWithKey(tbl: Table, params: Value, user: Value, uuid: string, now: int, name: string)
    requires Truthy(Get(user, "apiKey"))
    requires NormalisedName(Get(params, "command")) == Success(Str(name))
    requires forall a :: a in AsObj(params) ==> !AsObj(params)[a].Undefined?
    ensures var rec := CommandsService.NewCommand(PostedCommand(params, Str(name), user), uuid, now);
      var h := PostResponse(tbl, params, user, uuid, now);
      && (name != "" && name in tbl ==> h == Handled(Failure(ForbiddenFault), tbl))
      && (name != "" && name !in tbl ==>
            && h == Handled(Success(ApiResponse(CREATED, Some(Rec(rec)))), tbl[name := rec])
            && rec["command"] == Str(name) && rec["isEnabled"] == Bool(true)
            && rec["apiKey"] == Get(user, "apiKey") && rec["uuid"] == Str(uuid))
  {
    PostedCommandDefined(params, Str(name), user);
    var c := PostedCommand(params, Str(name), user);
    var o := CommandsService.CreateSpec(tbl, c, uuid, now);
    assert PostResponse(tbl, params, user, uuid, now)
      == if o.result.Failure? then Handled(Failure(o.result.error), o.tbl)
         else Handled(Success(ApiResponse(CREATED, Some(o.result.value))), o.tbl);
    CommandsService.CreateUnique(tbl, c, uuid, now);
    var rec := CommandsService.NewCommand(c, uuid, now);
    assert "command" in c && c["command"] == Str(name);
    assert rec["command"] == Str(name) && rec["isEnabled"] == Bool(true) && rec["apiKey"] == Get(user, "apiKey");
  }

  lemma PostedCommandDefined(params: Value, name: Value, user: Value)
    requires name.Str? && Truthy(Get(user, "apiKey"))
    requires forall a :: a in AsObj(params) ==> !AsObj(params)[a].Undefined?
    ensures var c := PostedCommand(params, name, user);
      && Lookup(c, "command") == name
      && ToStr(Lookup(c, "command")) == name.s
      && forall a :: a in c ==> !c[a].Undefined?
  {
  }

  /** PUT/PATCH by the owner of a command stored under a string apiKey, on a
      well-keyed table, merges the update and answers with the whole record:
      the service lets only the owner update, so on success the redacted view
      is never the answer. */
  lemma OwnerUpdateSeesAll(tbl: Table, params: Value, user: Value, now: int)
    requires WellKeyed(Commands, tbl)
    requires var uuid := Get(params, "uuid");
      KeyOk(uuid) && uuid.s in tbl && Lookup(tbl[uuid.s], "apiKey").Str?
      && CommandsService.HasAuthorization(ToStr(Lookup(tbl[uuid.s], "apiKey")), user)
    ensures var k := Get(params, "uuid").s;
      var changed := tbl[k] + SparseObj((AsObj(params) + map["updatedAt" := Num(now)]) - {"apiKey", "command"});
      UpdateResponse(tbl, params, user, now) == Handled(Success(ApiResponse(OK, Some(Rec(changed)))), tbl[k := changed])
  {
    var k := Get(params, "uuid").s;
    CommandsService.UpdateMerges(tbl, AsObj(params), user, now);
    CommandsService.HasAuthorizationIff(ToStr(Lookup(tbl[k], "apiKey")), user);
  }

  /** DELETE deletes the command whose NAME is the given uuid, and answers
      NO_CONTENT whether or not one existed; the command whose uuid attribute
      it is stays stored under its own name. */
  lemma RemoveDeletesByName(tbl: Table, u: string)
    requires u != ""
    ensures var h := RemoveResponse(tbl, Rec(map["uuid" := Str(u)]));
      && h == Handled(Success(ApiResponse(NO_CONTENT, None)), tbl - {u})
      && forall k :: k in tbl && k != u ==> k in h.tbl && h.tbl[k] == tbl[k]
  {
  }

  /** The router's checks come in order: the method table (405), the blank
      request (502), the caller's apiKey (401); nothing is written before a
      handler runs. */
  lemma RouterOrder(tbl: Table, req: ApiRequest, uuid: string, now: int)
    ensures var s := RouteResponse(tbl, req, uuid, now);
      && (req.httpMethod !in CRUD_METHODS ==> s == Served(ApiResponse(METHOD_NOT_ALLOWED, None), tbl))
      && (req.httpMethod in CRUD_METHODS && BlankRequest(req) ==> s == Served(ApiResponse(BAD_GATEWAY, None), tbl))
      && (req.httpMethod in CRUD_METHODS && !BlankRequest(req) && req.contextUser.Success?
          && !Truthy(Get(req.contextUser.value, "apiKey")) ==>
            s == Served(ApiResponse(UNAUTHORIZED, None), tbl))
      && (s.response.statusCode in {METHOD_NOT_ALLOWED, BAD_GATEWAY, UNAUTHORIZED} && s.response.body.None? ==> s.tbl == tbl)
  {
    if req.httpMethod in CRUD_METHODS && !BlankRequest(req) && req.contextUser.Success?
       && Truthy(Get(req.contextUser.value, "apiKey")) && RequestBody(req).Success? {
      var user := req.contextUser.value;
      var body := RequestBody(req).value;
      var h := Dispatch(tbl, req.httpMethod, body, user, uuid, now);
      if h.result.Success? && h.result.value.body.None? {
        PlainAnswers(tbl, req.httpMethod, body, user, uuid, now);
      }
    }
  }

  /** For a caller with an apiKey, the handlers answer without a body only
      NOT_FOUND or NO_CONTENT. */
  lemma PlainAnswers(tbl: Table, httpMethod: string, body: Value, user: Value, uuid: string, now: int)
    requires Truthy(Get(user, "apiKey"))
    ensures var h := Dispatch(tbl, httpMethod, body, user, uuid, now);
      h.result.Success? && h.result.value.body.None? ==>
        h.result.value.statusCode in {NOT_FOUND, NO_CONTENT}
  {
  }

  /** A path id replaces the body: with one, the raw body and its parse play
      no part in the answer. */
  lemma PathIdReplacesBody(tbl: Table, req: ApiRequest, body: Option<string>, parsed: Result<Value, Fault>, uuid: string, now: int)
    requires Truthy(req.pathId)
    ensures RouteResponse(tbl, req, uuid, now) == RouteResponse(tbl, req.(body := body, parsedBody := parsed), uuid, now)
  {
  }

  /** Through the router, `post`'s own BAD_REQUEST is never the answer: a
      caller without an apiKey is refused with UNAUTHORIZED first. */
  lemma PostBadRequestUnreachable(tbl: Table, req: ApiRequest, uuid: string, now: int)
    ensures RouteResponse(tbl, req, uuid, now).response != ApiResponse(BAD_REQUEST, None)
  {
    if req.httpMethod in CRUD_METHODS && !BlankRequest(req) && req.contextUser.Success?
       && Truthy(Get(req.contextUser.value, "apiKey")) && RequestBody(req).Success? {
      var user := req.contextUser.value;
      var body := RequestBody(req).value;
      var h := Dispatch(tbl, req.httpMethod, body, user, uuid, now);
      if h.result.Success? && h.result.value.body.None? {
        PlainAnswers(tbl, req.httpMethod, body, user, uuid, now);
      }
    }
  }
}
