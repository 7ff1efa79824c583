/** Botnorrea roles and the parts of a Telegram update the core reads.
    Stored users, groups and commands are plain objects (`Js.Obj`) whose
    attributes are those of the `User`, `Group` and `Command` interfaces:
    every one of them is optional, and the services spread, overwrite and
    delete them as JavaScript does. */
module Models {
  import opened Wrappers
  import opened Js

  datatype Role = ROOT | ADMIN | USER | SERVICE

  function RoleName(r: Role): string {
    match r
    case ROOT => "ROOT"
    case ADMIN => "ADMIN"
    case USER => "USER"
    case SERVICE => "SERVICE"
  }

  /** The stored form of a role: its enum string. */
  function RoleValue(r: Role): Value {
    Str(RoleName(r))
  }

  /** `roles.includes(v)` */
  predicate RoleIn(v: Value, roles: set<Role>) {
    exists r :: r in roles && v == RoleValue(r)
  }

  /** The roles that pass the administrative gates and the CRUD checks. */
  const ELEVATED: set<Role> := {ROOT, ADMIN}
  /** The roles that may call the webhook relay. */
  const RELAY_CALLERS: set<Role> := {ROOT, ADMIN, SERVICE}

  const CHAT_PRIVATE := "private"
  const BOT_COMMAND := "bot_command"

  datatype EntityTg = EntityTg(offset: int, length: int, kind: string)

  datatype UserTg = UserTg(id: Value, isBot: bool, username: Value)

  datatype ChatTg = ChatTg(id: Value, title: Value, kind: string)

  datatype MessageTg = MessageTg(
    messageId: Value,
    from: Option<UserTg>,
    chat: Option<ChatTg>,
    text: Option<string>,
    entities: Option<seq<EntityTg>>)

  /** A Telegram update as parsed from a request body; every part the
      handlers reach through `?.` may be missing. */
  datatype UpdateTg = UpdateTg(updateId: Value, message: Option<MessageTg>)

  /** `body?.message?.from` */
  function Sender(body: UpdateTg): Option<UserTg> {
    if body.message.Some? then body.message.value.from else None
  }

  /** `body?.message?.from?.id` */
  function SenderId(body: UpdateTg): Value {
    if Sender(body).Some? then Sender(body).value.id else Undefined
  }

  /** `body?.message?.chat` */
  function Chat(body: UpdateTg): Option<ChatTg> {
    if body.message.Some? then body.message.value.chat else None
  }

  /** `body?.message?.chat?.id` */
  function ChatId(body: UpdateTg): Value {
    if Chat(body).Some? then Chat(body).value.id else Undefined
  }

  /** `body?.message?.message_id` */
  function MessageId(body: UpdateTg): Value {
    if body.message.Some? then body.message.value.messageId else Undefined
  }

  /** `body?.message?.text` */
  function Text(body: UpdateTg): Option<string> {
    if body.message.Some? then body.message.value.text else None
  }

  /** `body?.message?.chat?.type === ChatTypeTg.PRIVATE` */
  predicate IsPrivate(body: UpdateTg) {
    Chat(body).Some? && Chat(body).value.kind == CHAT_PRIVATE
  }

  /** `body?.message?.from?.is_bot` */
  predicate SentByBot(body: UpdateTg) {
    Sender(body).Some? && Sender(body).value.isBot
  }

  /** A Telegram sender as the plain object handed to the users service. */
  function UserTgObj(u: UserTg): Obj {
    map["id" := u.id, "is_bot" := Bool(u.isBot), "username" := u.username]
  }

  /** A Telegram chat as the plain object handed to the groups service. */
  function ChatTgObj(c: ChatTg): Obj {
    map["id" := c.id, "title" := c.title, "type" := Str(c.kind)]
  }
}
