/** What the Lambda handlers share: the request as it reaches them, the
    response they return, the outbound chat messages and HTTP posts they make
    (recorded in an `Outbox`), and the query-string gate every bot handler
    applies before it parses the body. */
module Lambda {
  import opened Wrappers
  import opened Js
  import opened Models
  import opened Store
  import opened JsStrings
  import HttpStatus

  /** `event?.queryStringParameters ?? {}`: `id` and `apiKey`, each a string or
      `undefined`. */
  datatype Query = Query(id: Value, apiKey: Value)

  /** A bot request: its query string, its raw body (`None` when absent), and
      what `JSON.parse` makes of the body — an update or the error it throws. */
  datatype BotEvent = BotEvent(query: Query, body: Option<string>, parsed: Result<UpdateTg, Fault>)

  /** `{ statusCode, body? }` */
  datatype Response = Response(statusCode: int, body: Option<string>)

  /** The text of a message: a literal, or the API-key notice `buildText`
      renders from the user's uuid and the new key. */
  datatype MessageText = Literal(s: string) | ApiKeyNotice(uuid: Value, apiKey: string)

  /** A `sendMessage` call: chat, text, the message replied to, and whether
      the text is HTML and the content protected. */
  datatype Message = Message(chatId: Value, text: MessageText, replyTo: Value, html: bool, protect: bool)

  /** The body of an outbound POST: a relayed update, or the fixed mock update
      a new endpoint is probed with. */
  datatype Payload = Relay(update: UpdateTg) | MockUpdate

  datatype Post = Post(endpoint: Value, payload: Payload)

  /** A plain reply to the message of `body`. */
  function Reply(body: UpdateTg, text: string): Message {
    Message(ChatId(body), Literal(text), MessageId(body), false, false)
  }

  /** An HTML reply to the message of `body`. */
  function HtmlReply(body: UpdateTg, text: string): Message {
    Message(ChatId(body), Literal(text), MessageId(body), true, false)
  }

  /** The messages sent and the requests posted, in order. Sending is taken to
      succeed. */
  class Outbox {
    var messages: seq<Message>
    var posts: seq<Post>

    constructor ()
      ensures messages == [] && posts == []
    {
      messages := [];
      posts := [];
    }

    method Send(m: Message)
      modifies this
      ensures messages == old(messages) + [m] && posts == old(posts)
    {
      messages := messages + [m];
    }

    /** `axios.post(endpoint, payload)`; whether it fails is the remote end's
        business, so it is an input of the caller. */
    method PostTo(endpoint: Value, payload: Payload)
      modifies this
      ensures posts == old(posts) + [Post(endpoint, payload)] && messages == old(messages)
    {
      posts := posts + [Post(endpoint, payload)];
    }
  }

  /** The query-string gate: the user stored under `` `${id}` `` must have a
      role among `allowed` and an apiKey `===` the query's. A rejected read is
      caught and counts as a refusal. */
  predicate GatePasses(users: Table, q: Query, allowed: set<Role>) {
    var got := GetSpec(users, Str(ToStr(q.id)));
    && got.Success?
    && Truthy(Get(got.value, "role"))
    && StrictEq(Get(got.value, "apiKey"), q.apiKey)
    && RoleIn(Get(got.value, "role"), allowed)
  }

  /** The gate passes exactly for a stored user, keyed by the query's id,
      whose role is allowed and whose apiKey is the query's string or, when
      both are missing, absent. */
  lemma GatePassesIff(users: Table, q: Query, allowed: set<Role>)
    ensures GatePasses(users, q, allowed) <==>
      var k := ToStr(q.id);
      && k != "" && k in users
      && (exists r :: r in allowed && Lookup(users[k], "role") == RoleValue(r))
      && Lookup(users[k], "apiKey") == q.apiKey
      && !q.apiKey.Arr? && !q.apiKey.Rec?
  {
    var k := ToStr(q.id);
    if k != "" && k in users && (exists r :: r in allowed && Lookup(users[k], "role") == RoleValue(r)) {
      var r :| r in allowed && Lookup(users[k], "role") == RoleValue(r);
      assert Truthy(Get(Rec(users[k]), "role"));
    }
  }

  /** What a bot handler returns after its gate: a rejection of `execute`
      becomes a 500 carrying the error's message. */
  function Settle(r: Result<Response, Fault>): Response {
    if r.Success? then r.value
    else Response(HttpStatus.INTERNAL_SERVER_ERROR, Some(r.error.message))
  }

  /** Why a bot request stops before `execute`: 401 from the gate, 400 for a
      missing or empty body, 500 for a body that does not parse. */
  function Preflight(users: Table, ev: BotEvent, allowed: set<Role>): Option<Response> {
    if !GatePasses(users, ev.query, allowed) then Some(Response(HttpStatus.UNAUTHORIZED, None))
    else if ev.body.None? || ev.body.value == "" then Some(Response(HttpStatus.BAD_REQUEST, None))
    else if ev.parsed.Failure? then Some(Response(HttpStatus.INTERNAL_SERVER_ERROR, Some(ev.parsed.error.message)))
    else None
  }

  /** The three tables at one moment. */
  datatype World = World(users: Table, groups: Table, commands: Table)

  function Snapshot(db: Db): World
    reads db
  {
    World(db.users, db.groups, db.commands)
  }

  /** What a handler call does: what it resolves or rejects with, the tables
      after it, and the messages and posts it adds. */
  datatype Effect<T> = Effect(result: Result<T, Fault>, world: World, messages: seq<Message>, posts: seq<Post>)

  /** The call that returned `r` did what `e` describes. */
  twostate predicate Realizes<T>(db: Db, out: Outbox, new e: Effect<T>, new r: Result<T, Fault>)
    reads db, out
  {
    && r == e.result
    && Snapshot(db) == e.world
    && out.messages == old(out.messages) + e.messages
    && out.posts == old(out.posts) + e.posts
  }

  /** A request to one of the CRUD routers: the HTTP method, the raw body,
      the `id` path parameter, what `JSON.parse` makes of the raw body (the
      routers parse it only when it is not blank), and what it makes of the
      authorizer context's "Botnorrea-v2" entry (or of "{}" when there is
      none). */
  datatype ApiRequest = ApiRequest(httpMethod: string, body: Option<string>, pathId: Value,
                                   parsedBody: Result<Value, Fault>, contextUser: Result<Value, Fault>)

  /** A CRUD response; the body is the value `JSON.stringify` serialises. */
  datatype ApiResponse = ApiResponse(statusCode: int, body: Option<Value>)

  const CRUD_METHODS := {"GET", "POST", "DELETE", "PUT", "PATCH"}

  /** `!bodyString?.trim() && !pathParameters?.id` */
  predicate BlankRequest(req: ApiRequest) {
    (req.body.None? || Trim(req.body.value) == "") && !Truthy(req.pathId)
  }

  /** The catch of a CRUD router: the error's own status, or 500, and
      `{"error": message}`. */
  function Thrown(f: Fault): (r: ApiResponse)
    ensures r.statusCode == (if f.statusCode.Some? then f.statusCode.value else HttpStatus.INTERNAL_SERVER_ERROR)
    ensures r.body == Some(Rec(map["error" := Str(f.message)]))
  {
    ApiResponse(if f.statusCode.Some? then f.statusCode.value else HttpStatus.INTERNAL_SERVER_ERROR,
                Some(Rec(map["error" := Str(f.message)])))
  }

  /** A caller with a truthy role among ROOT and ADMIN. */
  predicate IsElevated(user: Value) {
    Truthy(Get(user, "role")) && RoleIn(Get(user, "role"), ELEVATED)
  }

  /** A response and the table it leaves. */
  datatype Served = Served(response: ApiResponse, tbl: Table)

  /** A truthy ROOT or ADMIN role: exactly the two elevated role strings. */
  lemma IsElevatedIff(user: Value)
    ensures IsElevated(user) <==> Get(user, "role") == Str("ROOT") || Get(user, "role") == Str("ADMIN")
  {
    if Get(user, "role") == Str("ROOT") {
      assert RoleValue(ROOT) == Str("ROOT");
    } else if Get(user, "role") == Str("ADMIN") {
      assert RoleValue(ADMIN) == Str("ADMIN");
    }
  }

  /** `({ uuid })` applied to a parsed body: `null` cannot be destructured. */
  function UuidOf(body: Value): (r: Result<Value, Fault>)
    ensures r.Failure? <==> Nullish(body)
    ensures r.Failure? ==> r.error == TypeErrorFault
    ensures r.Success? ==> r.value == Get(body, "uuid")
  {
    if Nullish(body) then Failure(TypeErrorFault) else Success(Get(body, "uuid"))
  }

  /** What a CRUD method handler resolves or rejects with, and the table
      after it. */
  datatype Handled = Handled(result: Result<ApiResponse, Fault>, tbl: Table)

  /** The router's answer: a rejection becomes the catch's response. */
  function Answer(h: Handled): (r: Served)
    ensures r.tbl == h.tbl
    ensures h.result.Success? ==> r.response == h.result.value
    ensures h.result.Failure? ==> r.response == Thrown(h.result.error)
  {
    Served(if h.result.Failure? then Thrown(h.result.error) else h.result.value, h.tbl)
  }
}
