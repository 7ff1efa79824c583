# Botnorrea v2: command registry and authorization, modelled in Dafny

Botnorrea is a Telegram bot that runs as a set of AWS Lambda functions over
three DynamoDB tables:
- Users, keyed by `uuid`;
- Groups, keyed by `uuid`;
- Commands, keyed by the command name.

This project models the part of it that decides who may do what and what the
tables hold afterwards:

- **The DynamoDB layer** (`Store`). The three tables are in-memory maps in a
  `Db` class. GetItem, PutItem, UpdateItem (a `SET` expression), DeleteItem
  and Scan get DynamoDB's meaning, including the refusals the document client
  and the service make.
- **The sparse-diff builder** `buildExpressions` (`DynamoDbHelper`). It is an
  imperative loop over the object's entries. The proofs cover what it keeps,
  the maps it builds and the exact text of the `SET` expression.
- **The three record services** (`UsersService`, `GroupsService`,
  `CommandsService`):
  - read-after-write create;
  - read-modify-write update with its Bad request / Not found / Bad gateway
    guards;
  - the 0 / 1 / more-than-1 scan resolution;
  - command-name uniqueness;
  - the apiKey ownership check.
- **Command-entity extraction** from a Telegram update (`TelegramUtils`).
- **The Basic-token authorizer** (`Authorizer`) and the query-string role gate
  that every bot handler repeats (`Lambda.GatePasses`).
- **The chat-command handlers**, each a guard chain that ends in a status code:
  - `/commands_create` (`CommandsCreate`) and its older copy (`ComandsCreate`);
  - `/commands_remove` (`CommandsRemove`);
  - `/commands_list` (`CommandsList`);
  - `/create_api_key` (`CreateApiKey`).

  Each handler reads and writes the tables and appends the chat messages and
  outbound posts it sends to an `Outbox`.
- **The webhook relay** (`TelegramWebhook`), which upserts the sender and the
  group and forwards commands to their registered endpoints.
- **The two CRUD routers** (`CommandsCrud`, `UsersCrud`), with:
  - their method tables and blank-request checks;
  - the role checks and field redaction;
  - the body/path-id precedence;
  - the mapping of thrown errors to responses.
- **The set-webhook handler** (`TelegramSetWebhook`).

The JavaScript semantics the source relies on are written out in `Js` and
`JsStrings`:
- missing attributes read as `undefined`;
- truthiness, `??`, `===` and template-literal conversion;
- object spread;
- `trim`, `split`, `join`, `substring`;
- the case-insensitive regular-expression replacements.

**How each stateful operation is modelled.** Each stateful operation is a
`method` on `Db` (and `Outbox`). It is proved equal to a pure specification
function of the old tables, and the source's promises are proved as lemmas
about those functions. Where a handler depends on an outcome it cannot see,
that outcome is a parameter:
- a remote call's success;
- `new URL`;
- `atob`;
- `randomUUID`;
- the clock.

**Where the model follows the code rather than its intent.** It models these
as written and states each in a lemma:
- `dynamoUsersService.getById` returns the raw Scan response rather than a
  user.
- The commands service's `update` looks up the record with `params.uuid` used
  as a command key.
- The commands router's DELETE hands a uuid to the remove-by-name function.
- The role test in the commands service's `hasAuthorization` is dead code: it
  applies `!` to an array literal.

These, and the places where the repository's tests expect behaviour the code
does not have, are described below.

The handlers `botnorrea_commands_remove`, `botnorrea_commands_list` and both
CRUD routers import `dynamoUsersServices` / `dynamoCommandsServices`. Those
files are not part of this model. The handlers are modelled over the shown
`dynamoUsersService.ts` / `dynamoCommandsService.ts`, with `getById`
resolving a user as `UsersService.FindUserByExternalId` does.

## Model

| member | source | states |
|---|---|---|
| DynamoDbHelper.ObjectEntries | src/utils/dynamoDbHelper.ts:5 | `Object.entries` lists every attribute of the object exactly once, with its value |
| DynamoDbHelper.BuildExpressions | src/utils/dynamoDbHelper.ts:1-20 | the loop's result: the values and names maps of the kept entries and `SET ` + the trimmed comma-join of their clauses, with the kept entries being exactly those whose value is neither null nor undefined |
| DynamoDbHelper.OutputsTrackDefined | src/utils/dynamoDbHelper.ts:5-11 | only kept entries reach the output, each kept key `k` maps `":k"` to its value and `"#k"` to `k`, the key unescaped (so `first-name` gives `#first-name`) |
| DynamoDbHelper.DefinedOfDistinct | src/utils/dynamoDbHelper.ts:5-13 | for distinct keys, the attributes the update sets are exactly the kept entries, each with its own value |
| DynamoDbHelper.ExpressionIsJoinedClauses | src/utils/dynamoDbHelper.ts:10-17 | the update expression is `SET ` followed by the `#k = :k` clauses of the kept entries in entry order joined by `, ` (when the last kept key does not end in whitespace) |
| DynamoDbHelper.NothingKept | src/utils/dynamoDbHelper.ts:17 | an empty or all-null object gives `"SET "` and two empty maps |
| DynamoDbHelper.ClauseCount | src/utils/dynamoDbHelper.ts:5-13 | with distinct keys, the number of clauses equals the size of the values map and of the names map |
| TelegramUtils.CommandEntities | src/utils/telegram.ts:3-4 | the filter keeps exactly the `bot_command` entities at offset 0 and nothing else |
| TelegramUtils.HasCommandIff | src/utils/telegram.ts:6-9 | `hasCommand` holds iff there is a message with an entity list holding a `bot_command` at offset 0; a missing message, a missing list and an empty list give false |
| TelegramUtils.FirstOfFilter | src/utils/telegram.ts:19 | the first filtered entity is the earliest entity of the list that passes the filter |
| TelegramUtils.GetCommandKey | src/utils/telegram.ts:11-21 | the offset is always 0; without a command (including a `bot_command` at a non-zero offset) the key is (0, 0); otherwise it is the offset and length of the first passing entity |
| Store.GetSpec | src/services/dynamodb.ts:45-48 | GetItem resolves with the stored item or `undefined`, and rejects a key that is not a non-empty string |
| Store.PutSpec | src/services/dynamodb.ts:50-53 | PutItem replaces the item stored under its own key, and is refused for a bad key or an `undefined` attribute |
| Store.UpdateSpec | src/services/dynamodb.ts:55-61 | UpdateItem is refused for a bad key, a bare `SET `, a clause on the key attribute or an `undefined` value, and for nothing else the model knows of; otherwise the item under the key exists afterwards (UpdateItem creates missing items) and no other item changes |
| Store.DeleteSpec | src/services/dynamodb.ts:63-66 | DeleteItem removes the key, and deleting an absent key leaves the table as it was |
| Store.WriteSpec | src/utils/dynamoDbHelper.ts:5-19 | the write an object's entries describe merges exactly its non-null attributes over the base item |
| Store.BuiltUpdateIsWrite | src/utils/dynamoDbHelper.ts:1-20 | an UpdateItem built by `buildExpressions` from an object's entries is refused when the object's sparse part is empty or holds the key attribute, and otherwise it is that sparse write |
| Store.PutKeepsWellKeyed | src/services/dynamodb.ts:50-53 | a successful put keeps every item stored under its own key attribute |
| Store.WriteKeepsWellKeyed | src/services/dynamodb.ts:55-61 | a successful sparse write keeps every item stored under its own key attribute |
| Store.ResolveOneFindsMatch | src/services/dynamoGroupsServices.ts:46-55 | on a well-keyed table the 0 / 1 / more-than-1 resolution gives `undefined` iff no item matches, "Unprocessable entity" (422) iff several do, and the one matching item itself otherwise |
| Store.Db.Scan | src/services/dynamodb.ts:35-38 | a Scan returns each matching item once, projected, in the store's order, and refuses an `undefined` filter value; nothing changes |
| Store.Db.ScanOne | src/services/dynamoGroupsServices.ts:32-56 | the scan-then-get lookup returns what `ResolveOneSpec` says and changes nothing |
| Store.Db.WriteDiff | src/services/dynamoUsersService.ts:85-97 | a `buildExpressions` + UpdateItem pair leaves the table as `WriteSpec` says and the other tables unchanged |
| UsersService.Create | src/services/dynamoUsersService.ts:36-52 | `create` puts the new user and resolves with it read back by the new uuid; only the Users table changes, as `CreateSpec` says |
| UsersService.CreateStoresUser | src/services/dynamoUsersService.ts:40-51 | `create` stores exactly uuid, id, role, `username ?? ""` and equal timestamps, with the role USER unless editing as admin, never an apiKey, and resolves with that record; an undefined id or admin role is refused and nothing is written |
| UsersService.Update | src/services/dynamoUsersService.ts:54-100 | `update` leaves the Users table and resolves as `UpdateSpec` says; no other table changes |
| UsersService.UpdateGuards | src/services/dynamoUsersService.ts:58-69 | in order: no uuid is "Bad request" (400), an absent record "Not found" (404), a stored record without uuid "Bad gateway" (502); a rejected update writes nothing |
| UsersService.UpdateAsUser | src/services/dynamoUsersService.ts:71-97 | a non-admin update of a stored user changes only username (`""` when absent) and updatedAt; id, role, apiKey and createdAt stay, and the record stays under its uuid |
| UsersService.UpdatePastGuards | src/services/dynamoUsersService.ts:77-99 | past its guards, the update is the sparse write of the diff without uuid, keyed by the stored uuid, then the read-back |
| UsersService.UpdateAsAdmin | src/services/dynamoUsersService.ts:79-89 | an admin update also writes `apiKey := params.apiKey ?? ""`, and id and role from the parameters, an undefined or null id or role leaving the stored one |
| UsersService.Remove | src/services/dynamoUsersService.ts:102-104 | `remove` deletes by uuid unconditionally; an absent uuid leaves the table as it was |
| UsersService.GetById | src/services/dynamoUsersService.ts:106-119 | as written, `getById` resolves with the Scan response (`Items`, the matches' uuid and id, and `Count`), not a user |
| UsersService.ScanResponseIsNoUser | src/services/dynamoUsersService.ts:106-119 | a Scan response read as a user has no uuid, id, role, username or apiKey: each reads as `undefined` |
| UsersService.FindUserByExternalId | src/services/dynamoGroupsServices.ts:46-55 | the corrected lookup: no user with that external id gives `undefined`, several give "Unprocessable entity", and one gives that user's stored record |
| GroupsService.GetById | src/services/dynamoGroupsServices.ts:32-56 | `getById` resolves with `undefined` for no match, rejects with 422 for several, and re-reads the one match by its uuid; nothing changes |
| GroupsService.Create | src/services/dynamoGroupsServices.ts:58-70 | `create` leaves the Groups table and resolves as `CreateSpec` says |
| GroupsService.CreateStoresGroup | src/services/dynamoGroupsServices.ts:58-70 | `create` stores uuid, id, title and equal timestamps under the new uuid and resolves with that record; an undefined id or title is refused and nothing is written |
| GroupsService.Update | src/services/dynamoGroupsServices.ts:72-109 | `update` leaves the Groups table and resolves as `UpdateSpec` says |
| GroupsService.UpdateGuards | src/services/dynamoGroupsServices.ts:73-84 | a missing uuid or id is "Bad request" before any read, then "Not found", then "Bad gateway"; a rejected update writes nothing |
| GroupsService.UpdateSetsTitle | src/services/dynamoGroupsServices.ts:86-106 | a successful update changes only title and updatedAt, under the stored uuid; an undefined or null title leaves the stored title |
| CommandsService.HasAuthorizationIff | src/services/dynamoCommandsService.ts:34-44 | `hasAuthorization` holds exactly when the user's apiKey is the non-empty string presented |
| CommandsService.RoleNotConsulted | src/services/dynamoCommandsService.ts:39-41 | the user's role plays no part in `hasAuthorization` (the `![ROOT, ADMIN]` branch is dead) |
| CommandsService.GetByUuid | src/services/dynamoCommandsService.ts:54-78 | the one command whose uuid matches, read back by its command key; `undefined` for none, 422 for several; nothing changes |
| CommandsService.GetByApiKey | src/services/dynamoCommandsService.ts:80-97 | every command whose apiKey equals the argument, and only those, each once, projected to command, apiKey, endpoint and description; nothing changes |
| CommandsService.Create | src/services/dynamoCommandsService.ts:99-117 | `create` leaves the Commands table and resolves as `CreateSpec` says |
| CommandsService.CreateUnique | src/services/dynamoCommandsService.ts:100-116 | a taken command name is "Forbidden" (403) and writes nothing; a new string name is stored with the parameters, the fresh uuid and equal timestamps, and read back |
| CommandsService.UpdateAsWritten | src/services/dynamoCommandsService.ts:119-160 | the update as written, with the diff keeping the `command` key attribute, leaves the table as `UpdateWith` with only apiKey dropped says |
| CommandsService.UpdateAsWrittenIsRefused | src/services/dynamoCommandsService.ts:138-157 | as written, every update past the four guards asks the store to SET the key attribute `command` (unless the parameters null it), so it is refused and nothing changes |
| CommandsService.Update | src/services/dynamoCommandsService.ts:119-160 | the corrected update, dropping both apiKey and the key attribute from the diff, leaves the table as `UpdateWith` says |
| CommandsService.UpdateGuards | src/services/dynamoCommandsService.ts:120-135 | in order: no uuid "Bad request", nothing stored under `params.uuid` as a command key "Not found", a record without command "Bad gateway", a caller who is not the owner "Unauthorized"; a rejected update writes nothing |
| CommandsService.UpdateMerges | src/services/dynamoCommandsService.ts:137-159 | the corrected update merges the non-null parameters and a new updatedAt over the stored record, keeps the owner's apiKey and the command name, and resolves with the record read back |
| CommandsService.Remove | src/services/dynamoCommandsService.ts:162-164 | `remove` deletes by command key unconditionally; an absent key leaves the table as it was |
| Authorizer.BuildPolicy | src/functions/authorizer/index.ts:8-27 | the effect defaults to Deny; principal "user", version "2012-10-17", one `execute-api:Invoke` statement on the methodArn, and a context carrying the user (or `undefined`) |
| Authorizer.Execute | src/functions/authorizer/index.ts:29-37 | `execute` resolves as `ExecuteSpec` says and changes no table |
| Authorizer.Authorize | src/functions/authorizer/index.ts:39-53 | `authorizer` resolves as `AuthorizerSpec` says and changes no table |
| Authorizer.DecideIff | src/functions/authorizer/index.ts:32-36 | Allow carries the user and Deny carries none; it is Allow iff the user's apiKey `===` the presented key |
| Authorizer.TokenDecision | src/functions/authorizer/index.ts:30-36 | on a well-keyed Users table: no user with the token's id allows exactly a token without `:`; one such user allows exactly when its stored apiKey is the presented key; several reject with 422 |
| Authorizer.WellFormedToken | src/functions/authorizer/index.ts:30 | a token `id:key` whose fields hold no `:` presents exactly those two fields |
| Authorizer.AsWrittenDecision | src/functions/authorizer/index.ts:31-36 | with `getById` as written, a token `id:key` is always denied and a token without `:` is always allowed, carrying the Scan response as the user |
| Authorizer.HeaderSplit | src/functions/authorizer/index.ts:43-48 | only a header that is not a string is denied by the catch; every other header reaches `execute` with its second space-separated field |
| Lambda.GatePassesIff | src/functions/botnorrea_commands_create/index.ts:159-172 | the query-string gate passes iff the user stored under the query's id has a role among those allowed and an apiKey `===` the query's |
| CommandsCreate.CommandName | src/functions/botnorrea_commands_create/index.ts:127 | the stored name starts with `/`, holds no other `/`, and otherwise holds exactly the key's characters, not lower-cased |
| CommandsCreate.Execute | src/functions/botnorrea_commands_create/index.ts:60-152 | `execute` does exactly what `ExecuteSpec` describes: result, tables, messages and posts |
| CommandsCreate.BotnorreaCommandsCreate | src/functions/botnorrea_commands_create/index.ts:154-189 | 401 unless the gate passes, 400 for a missing body, 500 for a body that does not parse, otherwise `execute`'s response or a 500 for its rejection |
| CommandsCreate.NotPrivateIsForbidden | src/functions/botnorrea_commands_create/index.ts:63-71 | a chat that is not private is FORBIDDEN with its message, before any lookup and with nothing written or posted |
| CommandsCreate.OnlyCreateWrites | src/functions/botnorrea_commands_create/index.ts:63-151 | every refusal leaves the tables as they were; only a successful create changes the Commands table |
| CommandsCreate.GuardOrder | src/functions/botnorrea_commands_create/index.ts:73-122 | in a private chat: no apiKey FORBIDDEN, fewer than two parameters BAD_REQUEST with usage, a non-URL endpoint BAD_REQUEST "Invalid URL", a failed probe BAD_REQUEST with its message; create is never reached |
| CommandsCreate.CreatesNormalisedCommand | src/functions/botnorrea_commands_create/index.ts:124-138 | past the guards, `create` receives the normalised name, the endpoint, the remaining words joined by spaces, isEnabled true and the caller's apiKey; a new name is stored and answered with OK |
| CommandsCreate.NewCommandRecord | src/functions/botnorrea_commands_create/index.ts:125-131 | the stored record holds exactly apiKey, command, endpoint, description, isEnabled, uuid and equal timestamps |
| CommandsCreate.TakenNameIsServerError | src/functions/botnorrea_commands_create/index.ts:139-151 | a create that fails, a taken name for one, is answered INTERNAL_SERVER_ERROR with the message in `<code>` and nothing written |
| CommandsCreate.AsWrittenAlwaysForbidden | src/functions/botnorrea_commands_create/index.ts:73-82 | with `getById` as written every private-chat request is refused as lacking an apiKey |
| ComandsCreate.Execute | src/functions/botnorrea_comands_create/index.ts:31-115 | the old copy's `execute` does what `ExecuteWith` describes on its Scan outcome |
| ComandsCreate.BotnorreaCommandsCreate | src/functions/botnorrea_comands_create/index.ts:117-155 | the same ROOT/ADMIN gate, 400 for a missing body and 500 for a rejection as the current handler |
| ComandsCreate.ResolvesFirstMatch | src/functions/botnorrea_comands_create/index.ts:34-43 | on a well-keyed Users table, no match is NOT_FOUND before the chat type is looked at, and otherwise the first match in Scan order is the caller |
| ComandsCreate.ScanListsKeys | src/services/dynamoUsersService.ts:106-119 | the Scan response `getById` resolves with lists the matching users in Scan order, each carrying its own uuid |
| ComandsCreate.MatchesCurrentWithoutProbe | src/functions/botnorrea_comands_create/index.ts:62-114 | once the caller is known, the old copy behaves like the current handler with no endpoint probe, except that a message without text is caught as INTERNAL_SERVER_ERROR |
| ComandsCreate.ChatTypeThenApiKey | src/functions/botnorrea_comands_create/index.ts:44-60 | after the caller resolves: a chat that is not private, then a missing apiKey, each FORBIDDEN with its message and nothing written |
| CommandsCreate.Arguments | src/functions/botnorrea_commands_remove/index.ts:49-52 | the split yields at least one word, so the `parameters.length < 1` guard can never fire |
| CommandsRemove.Execute | src/functions/botnorrea_commands_remove/index.ts:22-110 | `execute` does exactly what `ExecuteSpec` describes |
| CommandsRemove.BotnorreaCommandsRemove | src/functions/botnorrea_commands_remove/index.ts:112-147 | the ROOT/ADMIN gate (401), 400 for a missing body, 500 for one that does not parse, then `execute` |
| CommandsRemove.GuardOrder | src/functions/botnorrea_commands_remove/index.ts:26-87 | in order: not private FORBIDDEN, no apiKey FORBIDDEN, unknown key NOT_FOUND, another owner's key UNAUTHORIZED, each with its message and the tables unchanged |
| CommandsRemove.OnlyOwnerRemoves | src/functions/botnorrea_commands_remove/index.ts:65-96 | OK iff the chat is private, the caller has a primitive apiKey and the command under the key carries that apiKey; then exactly that command is gone; every other answer leaves the tables as they were |
| CommandsRemove.OwnedKeyRemoved | src/functions/botnorrea_commands_remove/index.ts:68-96 | with the command under the key owned by the caller's apiKey, the step answers OK, removes exactly that key and replies with the stored command's name |
| CommandsRemove.BareCommandLooksUpSlash | src/functions/botnorrea_commands_remove/index.ts:49-66 | a bare `/commands_remove` looks up the key "/", and the answer is never BAD_REQUEST |
| CommandsList.ListLines | src/functions/botnorrea_commands_list/index.ts:47-48 | one `command - description` line per item, in order |
| CommandsList.Execute | src/functions/botnorrea_commands_list/index.ts:15-63 | `execute` does what `ExecuteSpec` describes for the Scan order it observed |
| CommandsList.BotnorreaCommandsList | src/functions/botnorrea_commands_list/index.ts:65-100 | the ROOT/ADMIN gate (401), 400 for a missing body, 500 for one that does not parse, then `execute` |
| CommandsList.ListingOnlyReads | src/functions/botnorrea_commands_list/index.ts:15-62 | no table changes and no posts, exactly one message; no apiKey is FORBIDDEN, a failed lookup INTERNAL_SERVER_ERROR with the HTML error; the chat type is not consulted |
| CommandsList.ListsExactlyOwned | src/functions/botnorrea_commands_list/index.ts:32-52 | NOT_FOUND with "Not found" iff the caller owns no command; otherwise OK with one line per owned command in Scan order, and splitting the reply on newlines gives those lines back |
| CreateApiKey.Execute | src/functions/botnorrea_create_api_key/index.ts:33-73 | `execute` does exactly what `ExecuteSpec` describes |
| CreateApiKey.BotnorreaCreateApiKey | src/functions/botnorrea_create_api_key/index.ts:75-113 | the ROOT/ADMIN gate (401), 400 for a missing body, 500 for one that does not parse, then `execute` |
| CreateApiKey.Refusals | src/functions/botnorrea_create_api_key/index.ts:36-70 | a chat that is not private, or a caller that has an apiKey, is FORBIDDEN with its message; a failed update is INTERNAL_SERVER_ERROR with no message; none of them changes a table |
| CreateApiKey.IssuesKey | src/functions/botnorrea_create_api_key/index.ts:57-72 | a user without apiKey, uniquely matched by the sender id, gets the key: OK, a protected HTML notice with their uuid and the key, and only their record changes |
| CreateApiKey.KeepsStored | src/services/dynamoUsersService.ts:79-83 | the admin update writes back the stored id and role unchanged |
| CreateApiKey.OkHasUniqueMatch | src/functions/botnorrea_create_api_key/index.ts:46-72 | OK only for a sender id matched by exactly one stored user who had no apiKey |
| CreateApiKey.RepeatRefused | src/functions/botnorrea_create_api_key/index.ts:46-55 | once the sender's user holds a non-empty key, the request is FORBIDDEN "You already have an API KEY!" |
| CreateApiKey.AsWrittenAlwaysFails | src/functions/botnorrea_create_api_key/index.ts:46-72 | with `getById` as written the caller is the Scan response: it reads as having no apiKey and the record handed to `update` has no uuid, so every request from a private chat ends INTERNAL_SERVER_ERROR with no message and no write |
| CreateApiKey.IssuedAtMostOnce | src/functions/botnorrea_create_api_key/index.ts:46-72 | after an OK run, the same request on the resulting tables is refused as already having a key |
| TelegramWebhook.PutUser | src/functions/telegram_webhook/index.ts:23-35 | `putUser` resolves and leaves the Users table as `PutUserSpec` says |
| TelegramWebhook.PutGroup | src/functions/telegram_webhook/index.ts:37-53 | `putGroup` resolves and leaves the Groups table as `PutGroupSpec` says |
| TelegramWebhook.SendToEndpointCommand | src/functions/telegram_webhook/index.ts:55-70 | the posts made are exactly those `RelaySpec` gives, no table changes |
| TelegramWebhook.Execute | src/functions/telegram_webhook/index.ts:72-89 | `execute` does exactly what `ExecuteSpec` describes |
| TelegramWebhook.TelegramWebhook | src/functions/telegram_webhook/index.ts:91-127 | the ROOT/ADMIN/SERVICE gate (401), 400 for a missing body, 500 for one that does not parse, then `execute` |
| TelegramWebhook.PutUserUpserts | src/functions/telegram_webhook/index.ts:23-35 | no stored match creates the user from the sender; one match replaces only username (`""` when absent) and updatedAt; several, or no sender id, write nothing |
| TelegramWebhook.PutGroupUpserts | src/functions/telegram_webhook/index.ts:37-53 | a private chat is never looked up; no match creates the group, one match changes only title and updatedAt; several or a missing id write nothing |
| TelegramWebhook.BotSenderIsNotRelayed | src/functions/telegram_webhook/index.ts:75-86 | the webhook never writes Commands and never sends a chat message; a bot sender gets no lookup and no relay |
| TelegramWebhook.RelaysOnlyRegisteredCommands | src/functions/telegram_webhook/index.ts:55-69 | a relay happens exactly for a message not from a bot whose first command entity names a stored command with an endpoint; the update is posted unchanged, once |
| TelegramWebhook.CommandKeyIsPrefix | src/functions/telegram_webhook/index.ts:56-57 | the key looked up is the text up to the length of the first command entity |
| TelegramWebhook.AsWrittenPutUserRejects | src/functions/telegram_webhook/index.ts:25-31 | with `getById` as written every sender takes the update path, which is refused as a bad request, and the webhook answers INTERNAL_SERVER_ERROR |
| Lambda.IsElevatedIff | src/functions/dynamo_commands_crud/index.ts:17-23 | the role check holds exactly for the role strings ROOT and ADMIN |
| CommandsCrud.Redacted | src/functions/dynamo_commands_crud/index.ts:35-41 | the redacted view has exactly command, endpoint, isEnabled, updatedAt and createdAt, each as found |
| CommandsCrud.NormalisedName | src/functions/dynamo_commands_crud/index.ts:53-56 | a missing name stays missing, a non-string has no `replace` (TypeError), a string comes out without `/`, without `-` and without upper-case ASCII |
| CommandsCrud.NormalNameIsKept | src/functions/dynamo_commands_crud/index.ts:53-56 | a name already normal is stored as it is |
| CommandsCrud.NormaliseIdempotent | src/functions/dynamo_commands_crud/index.ts:53-56 | normalising twice is normalising once |
| CommandsCrud.GetCommand | src/functions/dynamo_commands_crud/index.ts:25-44 | `get` answers as `GetResponse` and writes nothing |
| CommandsCrud.PostCommand | src/functions/dynamo_commands_crud/index.ts:46-62 | `post` answers and leaves the Commands table as `PostResponse` says |
| CommandsCrud.UpdateCommand | src/functions/dynamo_commands_crud/index.ts:64-80 | `update` answers and leaves the Commands table as `UpdateResponse` says |
| CommandsCrud.RemoveCommand | src/functions/dynamo_commands_crud/index.ts:82-85 | `remove` answers and leaves the Commands table as `RemoveResponse` says |
| CommandsCrud.DynamoDBCommandsCrud | src/functions/dynamo_commands_crud/index.ts:95-133 | the router answers and leaves the Commands table as `RouteResponse` says |
| CommandsCrud.GetShowsByRole | src/functions/dynamo_commands_crud/index.ts:25-44 | no command with the uuid is NOT_FOUND; the one command with it is shown whole to an elevated caller and without apiKey, uuid or description to anyone else |
| CommandsCrud.PostCreatesNormalised | src/functions/dynamo_commands_crud/index.ts:46-61 | a caller without an apiKey gets BAD_REQUEST; a free normalised name is stored enabled and owned by the caller's apiKey and answered CREATED with the record; a taken name is "Forbidden" and nothing is written |
| CommandsCrud.PostWithKey | src/functions/dynamo_commands_crud/index.ts:51-61 | for a caller with an apiKey, a taken normalised name is "Forbidden" with nothing written, and a free one is stored enabled, owned by the caller and answered CREATED |
| CommandsCrud.OwnerUpdateSeesAll | src/functions/dynamo_commands_crud/index.ts:64-69 | an update by the owner merges the parameters and answers with the whole record |
| CommandsCrud.RemoveDeletesByName | src/functions/dynamo_commands_crud/index.ts:82-85 | DELETE removes the command whose name is the given uuid and answers NO_CONTENT whether or not one existed |
| CommandsCrud.RouterOrder | src/functions/dynamo_commands_crud/index.ts:101-122 | in order: a method outside the table 405, a blank body without path id 502, a caller without apiKey 401, each before any write; otherwise the handler's answer with a caught error as its status (or 500) and `{"error": message}` |
| CommandsCrud.PathIdReplacesBody | src/functions/dynamo_commands_crud/index.ts:117-120 | with a path id the raw body and its parse play no part: the handler gets `{uuid: id}` |
| CommandsCrud.PostBadRequestUnreachable | src/functions/dynamo_commands_crud/index.ts:47-49 | through the router `post`'s own BAD_REQUEST is never the answer, because 401 comes first |
| UsersCrud.GetUser | src/functions/dynamo_users_crud/index.ts:14-21 | `get` answers as `GetResponse` and writes nothing |
| UsersCrud.PostUser | src/functions/dynamo_users_crud/index.ts:23-26 | `post` answers and leaves the Users table as `PostResponse` says |
| UsersCrud.UpdateUser | src/functions/dynamo_users_crud/index.ts:28-31 | `update` answers and leaves the Users table as `UpdateResponse` says |
| UsersCrud.RemoveUser | src/functions/dynamo_users_crud/index.ts:33-36 | `remove` answers and leaves the Users table as `RemoveResponse` says |
| UsersCrud.DynamoDBUsersCrud | src/functions/dynamo_users_crud/index.ts:46-86 | the router, building its body step by step, answers and leaves the Users table as `RouteResponse` says |
| UsersCrud.RouterOrder | src/functions/dynamo_users_crud/index.ts:53-59 | an unknown method is 405 and a blank body without path id 502, each with no table access |
| UsersCrud.BodyOverridesPathId | src/functions/dynamo_users_crud/index.ts:66-74 | a non-blank body wins over the path id; without one the path id gives `{uuid: id}` |
| UsersCrud.NonAdminCreatesPlainUser | src/functions/dynamo_users_crud/index.ts:61-64 | a caller whose context holds no elevated role, including an empty context, is served as a non-admin: a user it creates is a USER whatever the body asks |
| UsersCrud.AdminCreatesRequestedRole | src/functions/dynamo_users_crud/index.ts:61-64 | an elevated caller's create stores the requested role |
| UsersCrud.PostRoutes | src/functions/dynamo_users_crud/index.ts:53-76 | a POST past the method table, the blank check and the context parse is the create step with the admin flag taken from the context role |
| UsersCrud.PlainPostStoresUser | src/functions/dynamo_users_crud/index.ts:23-27 | a non-admin create is CREATED, stores a USER and answers with the stored record |
| UsersCrud.AdminPostStoresRole | src/functions/dynamo_users_crud/index.ts:23-27 | an admin create is CREATED and stores the role from the body |
| UsersCrud.GetFindsStored | src/functions/dynamo_users_crud/index.ts:14-21 | GET answers NOT_FOUND for an absent uuid and OK with the stored record otherwise; nothing is written |
| UsersCrud.HandlerStatuses | src/functions/dynamo_users_crud/index.ts:23-36 | a create that resolves is CREATED, an update OK, a delete NO_CONTENT; a rejection keeps the table |
| TelegramSetWebhook.BlankUrlMakesNoCall | src/functions/telegram_set_webhook/index.ts:14-16 | an empty or whitespace-only url is BAD_REQUEST and no Bot API call is made |
| TelegramSetWebhook.SuccessReportsOldAndNew | src/functions/telegram_set_webhook/index.ts:18-29 | OK with `old` the previous info's result and `new` the set call's data with `url` the argument; info is read first, then the webhook set |
| TelegramSetWebhook.CallsNeedAuthorizedUrl | src/functions/telegram_set_webhook/index.ts:37-53 | a Bot API call happens only past the gate, for a present parsed body whose url is a non-blank string, and the webhook is set only after the info was read |
| TelegramSetWebhook.MissingContextUnauthorized | src/functions/telegram_set_webhook/index.ts:38-45 | a missing or unparsable context is UNAUTHORIZED with no call |
| TelegramSetWebhook.RoleGate | src/functions/telegram_set_webhook/index.ts:40-42 | a USER or SERVICE role is UNAUTHORIZED; ROOT, ADMIN and a context without a role pass |
| TelegramSetWebhook.NoBodyBadRequest | src/functions/telegram_set_webhook/index.ts:47-49 | past the gate a missing or empty body is BAD_REQUEST with no call |
| TelegramSetWebhook.Caught | src/functions/telegram_set_webhook/index.ts:55-60 | a caught error answers with its own status or 500, its message as the body, and is passed to the callback |
| JsStrings.TrimIsSlice | src/functions/telegram_set_webhook/index.ts:14 | `trim` keeps one contiguous slice that neither starts nor ends with whitespace, cutting only whitespace |
| JsStrings.TrimBounds | src/functions/telegram_set_webhook/index.ts:14 | the start and end of the slice `trim` keeps, with only whitespace before and after it |
| JsStrings.TrimEndsNotSpace | src/functions/telegram_set_webhook/index.ts:14 | what `trim` keeps neither starts nor ends with whitespace |
| JsStrings.JoinSplit | src/functions/botnorrea_commands_create/index.ts:87 | joining the pieces of a split with its separator gives the string back |
| JsStrings.SplitJoin | src/functions/botnorrea_commands_list/index.ts:47-49 | splitting a join gives the parts back when none holds the separator |
| JsStrings.Substring | src/functions/telegram_webhook/index.ts:57 | `substring` with in-range bounds is the slice between them, and with start 0 an end past the string is clamped to its length |

## Left out

- I/O. The Telegram Bot API calls (`sendMessage`, `getWebhookInfo`, `setWebhook`) and the `axios.post` relay and probe are not performed. Sent messages and posts are appended to `Lambda.Outbox`. A post's or probe's failure, and the Bot API results in the set-webhook handler, are parameters.
- Cryptography, parsing and clocks. `randomUUID`, the clock, `atob` (base64, section 4 of RFC 4648) and `new URL` (the WHATWG URL Standard) are parameters.
- `JSON.parse` and `JSON.stringify`. Request bodies and authorizer contexts arrive as their parse result or the error it throws. Responses carry the value to serialise, so `stringify` dropping `undefined` attributes is not modelled.
- The Lambda callback envelope. The model returns what the handler hands the callback; a callback that throws is not modelled.
- The authorizer's timing log in its `finally` block, and every `console` call.
- Concurrency. `Promise.all` in the webhook is run as `putUser` then `putGroup`, one after the other. The duplicate-create race on an upsert by external id is not modelled.
- `buildText` message templating. The API-key notice is kept as its uuid and key.
- `plugins/stacks_outputs.js`, the echo endpoints (`dummy`, `handler`), `index.ts` and the legacy model files.
- The unseen services. `dynamoUsersServices.ts` and `dynamoCommandsServices.ts` are not part of this model. The four handlers that import them are modelled over the shown services. The role-based behaviour their tests assert is not modelled.
- Object.entries order. `DynamoDbHelper.ObjectEntries` promises every attribute once but no particular order. The order only affects the text of the SET expression.
- Numbers. Numbers are integers. Lower-casing and case folding only touch ASCII letters.
- Object spread. Spreading a string or an array (`{..."ab"}`) copies nothing in `Js.AsObj`; JavaScript copies index keys.
- Table keys. A key must be a non-empty string. A numeric partition key is not modelled.
- The webhook's total outcome. The `catch` blocks in `putUser`/`putGroup` (src/functions/telegram_webhook/index.ts:32-34, 50-52) read as if every failure were swallowed. They are not: `putUser`/`putGroup` return the `create`/`update` promise from inside their `try` without awaiting it, so a rejection escapes the `catch`, and the webhook answers INTERNAL_SERVER_ERROR (`TelegramWebhook.ExecuteWith`). The same holds for the authorizer's `return execute(...)`: a rejected lookup is not denied by the catch; it rejects.
- The repository's tests that disagree with the code.
  - The remove handler's test expects BAD_REQUEST for a bare `/commands_remove`. The code looks up "/" (`CommandsRemove.BareCommandLooksUpSlash`).
  - The authorizer's test expects a rejected lookup to resolve. The code lets it escape.
- The commands service's `update` and the commands router's DELETE both use a uuid as a command key, as written (`CommandsService.UpdateGuards`, `CommandsCrud.RemoveDeletesByName`). That lookup is not corrected.
- CommandsCrud.UpdateCommand: PUT/PATCH is modelled over the corrected commands `update`, which also leaves the `command` key attribute out of the SET (see Findings). The update as written is always refused by DynamoDB, so the router's as-written PUT/PATCH never answers OK; `CommandsService.UpdateAsWrittenIsRefused` states that refusal.
- CommandsCrud.DynamoDBCommandsCrud: its PUT/PATCH branch is the corrected update, as for `CommandsCrud.UpdateCommand`.
- CommandsCrud.OwnerUpdateSeesAll: the merge it proves holds for the corrected update only; as written the owner's update is refused.
- Store.UpdateSpec: DynamoDB also refuses expression attribute names that are not alphanumeric placeholders (`#first-name`, `#a.b`, a bare `#`). That refusal is not modelled, so an update whose attribute names are like `first-name`, `a.b` or `""` is accepted and merged here (this carries over to `CommandsService.UpdateMerges` and `CommandsCrud.OwnerUpdateSeesAll`).
- Store.BuiltUpdateIsWrite: the same placeholder refusal is not modelled, so an object with such attribute names is taken as a write.
- `dynamoCommandsService.get` and the services' `get` are `Store.Db.Get` on the table and are not repeated per service.

## Findings

| source | as written | input that shows it | evidently intended | confidence | as-written member | corrected member |
|---|---|---|---|---|---|---|
| src/services/dynamoUsersService.ts:106-119 | `getById` resolves with the whole Scan response (`{Items, Count, ...}`). Its callers read `.apiKey`, `.uuid` and `.role` from it as if it were a user. | A stored user `{uuid: "u1", id: 7, apiKey: "k"}` and a token `base64("7:k")`: the authorizer compares `undefined` with "k" and denies. `/commands_create` from user 7 is refused as lacking an apiKey. `/create_api_key` from user 7 in a private chat ends INTERNAL_SERVER_ERROR, since the update it makes has no uuid. The webhook's `putUser` takes the update path with no uuid and is refused. | Resolve the one user with that external id, as the groups service's `getById` does: `undefined` for none, 422 for several, that user for one. | not executed | UsersService.GetById, UsersService.ScanResponseIsNoUser, Authorizer.AsWrittenDecision, CommandsCreate.AsWrittenAlwaysForbidden, CreateApiKey.AsWrittenAlwaysFails, TelegramWebhook.AsWrittenPutUserRejects | UsersService.FindUserByExternalId |
| src/services/dynamoCommandsService.ts:138-157 | `update` deletes only `apiKey` from `{...found, ...params, updatedAt}`, so the SET expression includes `#command = :command`, the table's partition key. | Any update that passes the four guards, e.g. a stored `{command: "/a", uuid: "/a", apiKey: "k"}`, params `{uuid: "/a", endpoint: "https://x"}` and a user with apiKey "k": DynamoDB refuses to update a key attribute, so the update always fails. | Leave the key attribute out of the diff, as the users and groups services do with `uuid`. The update then merges the parameters over the stored command under its own key. | not executed | CommandsService.UpdateAsWritten, CommandsService.UpdateAsWrittenIsRefused | CommandsService.Update, CommandsService.UpdateMerges |
