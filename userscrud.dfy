/** src/functions/dynamo_users_crud/index.ts: the REST router over the Users
    table. Unlike the commands router it asks for no apiKey: the caller's
    role only decides whether create and update run as admin. */
module UsersCrud {
  import opened Wrappers
  import opened Js
  import opened JsStrings
  import opened Models
  import opened Store
  import opened ServiceErrors
  import opened Lambda
  import opened HttpStatus
  import UsersService

  /** `get`: the user stored under `body.uuid`, or NOT_FOUND. */
  function GetResponse(tbl: Table, body: Value): Handled {
    var uuid := UuidOf(body);
    if uuid.Failure? then Handled(Failure(uuid.error), tbl)
    else
      var item := GetSpec(tbl, uuid.value);
      if item.Failure? then Handled(Failure(item.error), tbl)
      else if !Truthy(item.value) then Handled(Success(ApiResponse(NOT_FOUND, None)), tbl)
      else Handled(Success(ApiResponse(OK, Some(item.value))), tbl)
  }

  /** `post`: the service's create, as admin or not. */
  function PostResponse(tbl: Table, params: Value, editAsAdmin: bool, uuid: string, now: int): Handled {
    var o := UsersService.CreateSpec(tbl, AsObj(params), editAsAdmin, uuid, now);
    if o.result.Failure? then Handled(Failure(o.result.error), o.tbl)
    else Handled(Success(ApiResponse(CREATED, Some(o.result.value))), o.tbl)
  }

  /** `update`: the service's update, as admin or not. */
  function UpdateResponse(tbl: Table, params: Value, editAsAdmin: bool, now: int): Handled {
    var o := UsersService.UpdateSpec(tbl, AsObj(params), editAsAdmin, now);
    if o.result.Failure? then Handled(Failure(o.result.error), o.tbl)
    else Handled(Success(ApiResponse(OK, Some(o.result.value))), o.tbl)
  }

  /** `remove`: delete the user under `body.uuid`. */
  function RemoveResponse(tbl: Table, body: Value): Handled {
    var uuid := UuidOf(body);
    if uuid.Failure? then Handled(Failure(uuid.error), tbl)
    else
      var d := DeleteSpec(tbl, uuid.value);
      if d.Failure? then Handled(Failure(d.error), tbl)
      else Handled(Success(ApiResponse(NO_CONTENT, None)), d.value)
  }

  function Dispatch(tbl: Table, httpMethod: string, body: Value, editAsAdmin: bool, uuid: string, now: int): Handled {
    if httpMethod == "GET" then GetResponse(tbl, body)
    else if httpMethod == "POST" then PostResponse(tbl, body, editAsAdmin, uuid, now)
    else if httpMethod == "DELETE" then RemoveResponse(tbl, body)
    else UpdateResponse(tbl, body, editAsAdmin, now)
  }

  /** `let body`: `{}`, then `{uuid: id}` when there is a path id, then the
      parsed body when the raw body is not blank. */
  function RequestBody(req: ApiRequest): Result<Value, Fault> {
    if req.body.Some? && Trim(req.body.value) != "" then req.parsedBody
    else if Truthy(req.pathId) then Success(Rec(map["uuid" := req.pathId]))
    else Success(Rec(map[]))
  }

  /** `dynamoDBUsersCrud`: the method table, the blank-request check, the
      admin flag from the context's role, then the handler; anything thrown
      is answered with its status (or 500) and `{"error": message}`. */
  function RouteResponse(tbl: Table, req: ApiRequest, uuid: string, now: int): Served {
    if req.httpMethod !in CRUD_METHODS then Served(ApiResponse(METHOD_NOT_ALLOWED, None), tbl)
    else if BlankRequest(req) then Served(ApiResponse(BAD_GATEWAY, None), tbl)
    else if req.contextUser.Failure? then Served(Thrown(req.contextUser.error), tbl)
    else
      var editAsAdmin := IsElevated(req.contextUser.value);
      var body := RequestBody(req);
      if body.Failure? then Served(Thrown(body.error), tbl)
      else Answer(Dispatch(tbl, req.httpMethod, body.value, editAsAdmin, uuid, now))
  }

  method GetUser(db: Db, body: Value) returns (r: Result<ApiResponse, Fault>)
    ensures Handled(r, db.users) == GetResponse(db.users, body)
  {
    var uuid := UuidOf(body);
    if uuid.Failure? {
      return Failure(uuid.error);
    }
    var item := db.Get(Users, uuid.value);
    if item.Failure? {
      return Failure(item.error);
    }
    if !Truthy(item.value) {
      return Success(ApiResponse(NOT_FOUND, None));
    }
    r := Success(ApiResponse(OK, Some(item.value)));
  }

  method PostUser(db: Db, params: Value, editAsAdmin: bool, uuid: string, now: int) returns (r: Result<ApiResponse, Fault>)
    modifies db
    ensures Handled(r, db.users) == PostResponse(old(db.users), params, editAsAdmin, uuid, now)
    ensures db.groups == old(db.groups) && db.commands == old(db.commands)
  {
    var item := UsersService.Create(db, AsObj(params), editAsAdmin, uuid, now);
    if item.Failure? {
      return Failure(item.error);
    }
    r := Success(ApiResponse(CREATED, Some(item.value)));
  }

  method UpdateUser(db: Db, params: Value, editAsAdmin: bool, now: int) returns (r: Result<ApiResponse, Fault>)
    modifies db
    ensures Handled(r, db.users) == UpdateResponse(old(db.users), params, editAsAdmin, now)
    ensures db.groups == old(db.groups) && db.commands == old(db.commands)
  {
    var item := UsersService.Update(db, AsObj(params), editAsAdmin, now);
    if item.Failure? {
      return Failure(item.error);
    }
    r := Success(ApiResponse(OK, Some(item.value)));
  }

  method RemoveUser(db: Db, body: Value) returns (r: Result<ApiResponse, Fault>)
    modifies db
    ensures Handled(r, db.users) == RemoveResponse(old(db.users), body)
    ensures db.groups == old(db.groups) && db.commands == old(db.commands)
  {
    var uuid := UuidOf(body);
    if uuid.Failure? {
      return Failure(uuid.error);
    }
    var d := UsersService.Remove(db, uuid.value);
    if d.Failure? {
      return Failure(d.error);
    }
    r := Success(ApiResponse(NO_CONTENT, None));
  }

  method DynamoDBUsersCrud(db: Db, req: ApiRequest, uuid: string, now: int) returns (resp: ApiResponse)
    modifies db
    ensures Served(resp, db.users) == RouteResponse(old(db.users), req, uuid, now)
    ensures db.groups == old(db.groups) && db.commands == old(db.commands)
  {
    if req.httpMethod !in CRUD_METHODS {
      return ApiResponse(METHOD_NOT_ALLOWED, None);
    }
    if BlankRequest(req) {
      return ApiResponse(BAD_GATEWAY, None);
    }
    if req.contextUser.Failure? {
      return Thrown(req.contextUser.error);
    }
    var editAsAdmin := IsElevated(req.contextUser.value);
    var body: Value := Rec(map[]);
    if Truthy(req.pathId) {
      body := Rec(map["uuid" := req.pathId]);
    }
    if req.body.Some? && Trim(req.body.value) != "" {
      if req.parsedBody.Failure? {
        return Thrown(req.parsedBody.error);
      }
      body := req.parsedBody.value;
    }
    var r;
    if req.httpMethod == "GET" {
      r := GetUser(db, body);
    } else if req.httpMethod == "POST" {
      r := PostUser(db, body, editAsAdmin, uuid, now);
    } else if req.httpMethod == "DELETE" {
      r := RemoveUser(db, body);
    } else {
      r := UpdateUser(db, body, editAsAdmin, now);
    }
    resp := Answer(Handled(r, db.users)).response;
  }

  /** The router's first two checks: the method table (405), then the blank
      request (502), each before any table access. */
  lemma RouterOrder(tbl: Table, req: ApiRequest, uuid: string, now: int)
    ensures var s := RouteResponse(tbl, req, uuid, now);
      && (req.httpMethod !in CRUD_METHODS ==> s == Served(ApiResponse(METHOD_NOT_ALLOWED, None), tbl))
      && (req.httpMethod in CRUD_METHODS && BlankRequest(req) ==> s == Served(ApiResponse(BAD_GATEWAY, None), tbl))
      && (req.httpMethod in CRUD_METHODS && !BlankRequest(req) && req.contextUser.Failure? ==>
            s == Served(Thrown(req.contextUser.error), tbl))
  {
  }

  /** A non-blank body wins over the path id: the id plays no part in the
      answer then. Without one, the path id gives `{uuid: id}`. */
  lemma BodyOverridesPathId(tbl: Table, req: ApiRequest, id: Value, uuid: string, now: int)
    ensures req.body.Some? && Trim(req.body.value) != "" ==>
      RouteResponse(tbl, req, uuid, now) == RouteResponse(tbl, req.(pathId := id), uuid, now)
    ensures !(req.body.Some? && Trim(req.body.value) != "") && Truthy(req.pathId) ==>
      RequestBody(req) == Success(Rec(map["uuid" := req.pathId]))
  {
  }

  /** The admin flag is a truthy ROOT or ADMIN role. A caller whose context
      holds no role (an empty context, `"{}"`) is served, as a non-admin:
      a user it creates is a USER, whatever role the body asks for. */
  lemma NonAdminCreatesPlainUser(tbl: Table, req: ApiRequest, uuid: string, now: int)
    requires req.httpMethod == "POST" && !BlankRequest(req)
    requires req.contextUser.Success? && !IsElevated(req.contextUser.value)
    requires RequestBody(req).Success? && !Get(RequestBody(req).value, "id").Undefined?
    requires uuid != ""
    ensures var s := RouteResponse(tbl, req, uuid, now);
      && s.response.statusCode == CREATED
      && uuid in s.tbl && Lookup(s.tbl[uuid], "role") == Str("USER")
      && s.response.body == Some(Rec(s.tbl[uuid]))
  {
    var b := RequestBody(req).value;
    PostRoutes(tbl, req, uuid, now);
    var h := PostResponse(tbl, b, false, uuid, now);
    assert RouteResponse(tbl, req, uuid, now) == Answer(h);
    PlainPostStoresUser(tbl, b, uuid, now);
  }

  /** A POST that gets past the router's checks is the create step. */
  lemma PostRoutes(tbl: Table, req: ApiRequest, uuid: string, now: int)
    requires req.httpMethod == "POST" && !BlankRequest(req)
    requires req.contextUser.Success? && RequestBody(req).Success?
    ensures RouteResponse(tbl, req, uuid, now)
      == Answer(PostResponse(tbl, RequestBody(req).value, IsElevated(req.contextUser.value), uuid, now))
  {
    assert "POST" in CRUD_METHODS && "POST" != "GET";
  }

  /** The create step itself, not as admin: CREATED, a USER, and the stored
      record as the body. */
  lemma PlainPostStoresUser(tbl: Table, b: Value, uuid: string, now: int)
    requires !Get(b, "id").Undefined?
    requires uuid != ""
    ensures var h := PostResponse(tbl, b, false, uuid, now);
      && h.result.Success? && h.result.value.statusCode == CREATED
      && uuid in h.tbl && Lookup(h.tbl[uuid], "role") == Str("USER")
      && h.result.value.body == Some(Rec(h.tbl[uuid]))
  {
    var params := AsObj(b);
    assert Lookup(params, "id") == Get(b, "id");
    UsersService.CreateStoresUser(tbl, params, false, uuid, now);
  }

  /** Only an elevated caller's create stores the requested role. */
  lemma AdminCreatesRequestedRole(tbl: Table, req: ApiRequest, uuid: string, now: int)
    requires req.httpMethod == "POST" && !BlankRequest(req)
    requires req.contextUser.Success? && IsElevated(req.contextUser.value)
    requires RequestBody(req).Success?
    requires var b := RequestBody(req).value; !Get(b, "id").Undefined? && !Get(b, "role").Undefined?
    requires uuid != ""
    ensures var s := RouteResponse(tbl, req, uuid, now);
      && s.response.statusCode == CREATED
      && uuid in s.tbl && Lookup(s.tbl[uuid], "role") == Get(RequestBody(req).value, "role")
  {
    var b := RequestBody(req).value;
    PostRoutes(tbl, req, uuid, now);
    var h := PostResponse(tbl, b, true, uuid, now);
    assert RouteResponse(tbl, req, uuid, now) == Answer(h);
    AdminPostStoresRole(tbl, b, uuid, now);
  }

  /** The create step itself, as admin: CREATED, with the body's role stored. */
  lemma AdminPostStoresRole(tbl: Table, b: Value, uuid: string, now: int)
    requires !Get(b, "id").Undefined? && !Get(b, "role").Undefined?
    requires uuid != ""
    ensures var h := PostResponse(tbl, b, true, uuid, now);
      && h.result.Success? && h.result.value.statusCode == CREATED
      && uuid in h.tbl && Lookup(h.tbl[uuid], "role") == Get(b, "role")
  {
    var params := AsObj(b);
    assert Lookup(params, "id") == Get(b, "id");
    assert Lookup(params, "role") == Get(b, "role");
    UsersService.CreateStoresUser(tbl, params, true, uuid, now);
  }

  /** GET answers NOT_FOUND for an absent uuid and the stored record
      otherwise; nothing is written. */
  lemma GetFindsStored(tbl: Table, u: string)
    requires u != ""
    ensures var h := GetResponse(tbl, Rec(map["uuid" := Str(u)]));
      && h.tbl == tbl
      && (u !in tbl ==> h.result == Success(ApiResponse(NOT_FOUND, None)))
      && (u in tbl ==> h.result == Success(ApiResponse(OK, Some(Rec(tbl[u])))))
  {
  }

  /** The statuses of the four handlers: CREATED for a create, OK for an
      update and NO_CONTENT for a delete that resolve; a rejection keeps the
      table as it was. */
  lemma HandlerStatuses(tbl: Table, httpMethod: string, body: Value, editAsAdmin: bool, uuid: string, now: int)
    requires httpMethod in CRUD_METHODS
    ensures var h := Dispatch(tbl, httpMethod, body, editAsAdmin, uuid, now);
      && (h.result.Failure? ==> h.tbl == tbl)
      && (h.result.Success? && httpMethod == "POST" ==> h.result.value.statusCode == CREATED)
      && (h.result.Success? && httpMethod in {"PUT", "PATCH"} ==> h.result.value.statusCode == OK)
      && (h.result.Success? && httpMethod == "DELETE" ==> h.result.value.statusCode == NO_CONTENT)
      && (h.result.Success? && httpMethod == "GET" ==> h.result.value.statusCode in {OK, NOT_FOUND})
  {
    if httpMethod == "POST" {
      assert Dispatch(tbl, httpMethod, body, editAsAdmin, uuid, now) == PostResponse(tbl, body, editAsAdmin, uuid, now);
    } else if httpMethod in {"PUT", "PATCH"} {
      assert Dispatch(tbl, httpMethod, body, editAsAdmin, uuid, now) == UpdateResponse(tbl, body, editAsAdmin, now);
      UsersService.UpdateGuards(tbl, AsObj(body), editAsAdmin, now);
    }
  }
}
