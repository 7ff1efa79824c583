/** src/functions/authorizer/index.ts: the API Gateway token authorizer. A
    `Basic` token is `base64(id:apiKey)`; the user with that external id must
    hold that apiKey. */
module Authorizer {
  import opened Wrappers
  import opened Js
  import opened JsStrings
  import opened Store
  import UsersService

  const PRINCIPAL := "user"
  const POLICY_VERSION := "2012-10-17"
  const INVOKE := "execute-api:Invoke"
  const ALLOW := "Allow"
  const DENY := "Deny"
  const CONTEXT_KEY := "Botnorrea-v2"

  datatype Statement = Statement(action: string, effect: string, resource: Value)

  /** The authorizer result. `context` maps "Botnorrea-v2" to the user that
      `JSON.stringify` serialises there; `undefined` when there is none. */
  datatype Policy = Policy(principalId: string, version: string, statements: seq<Statement>, context: map<string, Value>)

  /** `buildPolicy(methodArn, Effect = "Deny", user?)` */
  function BuildPolicy(methodArn: Value, effect: Option<string>, user: Value): (p: Policy)
    ensures p.principalId == PRINCIPAL && p.version == POLICY_VERSION && |p.statements| == 1
    ensures p.statements[0].action == INVOKE && p.statements[0].resource == methodArn
    ensures p.statements[0].effect == (if effect.Some? then effect.value else DENY)
    ensures p.context.Keys == {CONTEXT_KEY} && p.context[CONTEXT_KEY] == user
  {
    Policy(PRINCIPAL, POLICY_VERSION, [Statement(INVOKE, if effect.Some? then effect.value else DENY, methodArn)],
           map[CONTEXT_KEY := user])
  }

  function Deny(methodArn: Value): Policy {
    BuildPolicy(methodArn, None, Undefined)
  }

  function Allow(methodArn: Value, user: Value): Policy {
    BuildPolicy(methodArn, Some(ALLOW), user)
  }

  /** The key presented: the second `:`-separated field of the decoded
      token, `undefined` when there is none. */
  function PresentedKey(parts: seq<string>): Value {
    if |parts| > 1 then Str(parts[1]) else Undefined
  }

  /** `execute` once the decoded token is split and the lookup by its first
      field resolved with `user`. */
  function Decide(user: Result<Value, Fault>, parts: seq<string>, methodArn: Value): Result<Policy, Fault> {
    if user.Failure? then Failure(user.error)
    else if !StrictEq(Get(user.value, "apiKey"), PresentedKey(parts)) then Success(Deny(methodArn))
    else Success(Allow(methodArn, user.value))
  }

  /** `execute` with the caller found by `FindUserByExternalId`; `decode`
      stands for `atob`, which rejects what is not base64. */
  ghost function ExecuteSpec(users: Table, token: Value, methodArn: Value, decode: string -> Result<string, Fault>): Result<Policy, Fault> {
    var decoded := decode(ToStr(token));
    if decoded.Failure? then Failure(decoded.error)
    else
      var parts := Split(decoded.value, ':');
      Decide(ResolveOneSpec(Users, users, "id", Str(parts[0]), "uuid"), parts, methodArn)
  }

  method Execute(db: Db, token: Value, methodArn: Value, decode: string -> Result<string, Fault>) returns (r: Result<Policy, Fault>)
    ensures r == ExecuteSpec(db.users, token, methodArn, decode)
  {
    var decoded :- decode(ToStr(token));
    var parts := Split(decoded, ':');
    var user :- UsersService.FindUserByExternalId(db, Str(parts[0]));
    if !StrictEq(Get(user, "apiKey"), PresentedKey(parts)) {
      return Success(Deny(methodArn));
    }
    r := Success(Allow(methodArn, user));
  }

  /** `authorizer`: the token is the second space-separated field of the
      header. A header that cannot be split throws inside the `try` and is
      denied; `execute` is returned without being awaited, so its rejections
      escape the `try`. */
  ghost function AuthorizerSpec(users: Table, header: Value, methodArn: Value, decode: string -> Result<string, Fault>): Result<Policy, Fault> {
    if !header.Str? then Success(Deny(methodArn))
    else
      var fields := Split(header.s, ' ');
      ExecuteSpec(users, if |fields| > 1 then Str(fields[1]) else Undefined, methodArn, decode)
  }

  method Authorize(db: Db, header: Value, methodArn: Value, decode: string -> Result<string, Fault>) returns (r: Result<Policy, Fault>)
    ensures r == AuthorizerSpec(db.users, header, methodArn, decode)
  {
    if !header.Str? {
      return Success(Deny(methodArn));
    }
    var fields := Split(header.s, ' ');
    var basicToken := if |fields| > 1 then Str(fields[1]) else Undefined;
    r := Execute(db, basicToken, methodArn, decode);
  }

  /** Allow carries the user and Deny carries none; the decision is whether
      the user's apiKey `===` the presented key. */
  lemma DecideIff(user: Value, parts: seq<string>, methodArn: Value)
    ensures var r := Decide(Success(user), parts, methodArn);
      && r.Success?
      && (r.value.statements[0].effect == ALLOW <==> Get(user, "apiKey") == PresentedKey(parts))
      && (r.value.statements[0].effect == ALLOW ==> r.value == Allow(methodArn, user))
      && (r.value.statements[0].effect != ALLOW ==> r.value == Deny(methodArn) && r.value.statements[0].effect == DENY)
  {
  }

  /** On a well-keyed Users table the decision is about the stored users
      whose id is the token's first field: none allows exactly a token with
      no `:` (an undefined key matches the absent user's); one allows exactly
      when its stored apiKey is the presented key, carrying that user; more
      than one rejects as unprocessable. */
  lemma TokenDecision(users: Table, decoded: string, methodArn: Value)
    requires WellKeyed(Users, users)
    ensures var parts := Split(decoded, ':');
      var m := MatchKeys(users, "id", Str(parts[0]));
      var r := Decide(ResolveOneSpec(Users, users, "id", Str(parts[0]), "uuid"), parts, methodArn);
      && (m == {} ==> r == Success(if |parts| == 1 then Allow(methodArn, Undefined) else Deny(methodArn)))
      && (forall k :: m == {k} ==>
            r == Success(if Lookup(users[k], "apiKey") == PresentedKey(parts) then Allow(methodArn, Rec(users[k])) else Deny(methodArn)))
      && (|m| > 1 ==> r == Failure(UnprocessableFault))
  {
    var parts := Split(decoded, ':');
    ResolveOneFindsMatch(Users, users, "id", Str(parts[0]));
  }

  /** A token `id:key` whose fields hold no `:` presents exactly those two
      fields. */
  lemma WellFormedToken(id: string, key: string)
    requires ':' !in id && ':' !in key
    ensures Split(id + ":" + key, ':') == [id, key]
    ensures PresentedKey(Split(id + ":" + key, ':')) == Str(key)
  {
    SplitAfterPiece(id, key, ':');
    SplitWithoutSeparator(key, ':');
  }

  /** With `getById` as written the user is the Scan response, which has no
      apiKey: a token `id:key` is always denied, and a token without `:`
      is always allowed, carrying the Scan response as the user. */
  lemma AsWrittenDecision(items: seq<Obj>, id: string, key: string, methodArn: Value)
    requires ':' !in id && ':' !in key
    ensures Decide(Success(UsersService.ScanResponse(items)), Split(id + ":" + key, ':'), methodArn) == Success(Deny(methodArn))
    ensures Decide(Success(UsersService.ScanResponse(items)), Split(id, ':'), methodArn)
         == Success(Allow(methodArn, UsersService.ScanResponse(items)))
  {
    UsersService.ScanResponseIsNoUser(items);
    WellFormedToken(id, key);
    SplitWithoutSeparator(id, ':');
  }

  /** Only a header that is not a string is denied by the catch; every other
      header reaches `execute` with its second field as the token. */
  lemma HeaderSplit(users: Table, header: Value, methodArn: Value, decode: string -> Result<string, Fault>)
    ensures !header.Str? ==> AuthorizerSpec(users, header, methodArn, decode) == Success(Deny(methodArn))
    ensures forall scheme, token :: header == Str(scheme + " " + token) && ' ' !in scheme && ' ' !in token ==>
      AuthorizerSpec(users, header, methodArn, decode) == ExecuteSpec(users, Str(token), methodArn, decode)
  {
    forall scheme, token | header == Str(scheme + " " + token) && ' ' !in scheme && ' ' !in token
      ensures AuthorizerSpec(users, header, methodArn, decode) == ExecuteSpec(users, Str(token), methodArn, decode)
    {
      SplitAfterPiece(scheme, token, ' ');
      SplitWithoutSeparator(token, ' ');
    }
  }
}
