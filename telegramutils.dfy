/** src/utils/telegram.ts: finding the bot command at the start of a message. */
module TelegramUtils {
  import opened Wrappers
  import opened Models

  /** `filterCommandEntity`: a `bot_command` entity at offset 0. */
  predicate IsCommandEntity(e: EntityTg) {
    e.kind == BOT_COMMAND && e.offset == 0
  }

  /** `entities.filter(filterCommandEntity)` */
  function CommandEntities(es: seq<EntityTg>): (r: seq<EntityTg>)
    ensures |r| <= |es|
    ensures forall e :: e in r ==> e in es && IsCommandEntity(e)
    ensures forall e :: e in es && IsCommandEntity(e) ==> e in r
  {
    if es == [] then []
    else (if IsCommandEntity(es[0]) then [es[0]] else []) + CommandEntities(es[1..])
  }

  /** `body?.message?.entities?.filter(filterCommandEntity)` */
  function Commands(body: UpdateTg): Option<seq<EntityTg>> {
    if body.message.Some? && body.message.value.entities.Some?
    then Some(CommandEntities(body.message.value.entities.value))
    else None
  }

  /** `hasCommand`: `Boolean(commands?.length)`. */
  predicate HasCommand(body: UpdateTg) {
    Commands(body).Some? && |Commands(body).value| > 0
  }

  datatype CommandKey = CommandKey(offset: int, length: int)

  /** The first entity of the list that passes the filter is at index `i`. */
  predicate FirstCommandAt(es: seq<EntityTg>, i: int) {
    0 <= i < |es| && IsCommandEntity(es[i]) && forall j :: 0 <= j < i ==> !IsCommandEntity(es[j])
  }

  lemma {:induction false} FirstOfFilter(es: seq<EntityTg>)
    requires CommandEntities(es) != []
    ensures exists i :: FirstCommandAt(es, i) && CommandEntities(es)[0] == es[i]
    decreases |es|
  {
    if !IsCommandEntity(es[0]) {
      FirstOfFilter(es[1..]);
      var i :| FirstCommandAt(es[1..], i) && CommandEntities(es[1..])[0] == es[1..][i];
      assert FirstCommandAt(es, i + 1);
    } else {
      assert FirstCommandAt(es, 0);
    }
  }

  /** `getCommandKey`: the offset and length of the first command entity, or
      (0, 0) when there is none. */
  function GetCommandKey(body: UpdateTg): (r: CommandKey)
    ensures r.offset == 0
    ensures !HasCommand(body) ==> r == CommandKey(0, 0)
    ensures HasCommand(body) ==>
      exists i :: FirstCommandAt(body.message.value.entities.value, i) && r == CommandKey(0, body.message.value.entities.value[i].length)
  {
    if !HasCommand(body) then CommandKey(0, 0)
    else
      var first := Commands(body).value[0];
      FirstOfFilter(body.message.value.entities.value);
      CommandKey(first.offset, first.length)
  }

  /** `hasCommand` holds exactly when the update has a message with an entity
      list holding a `bot_command` at offset 0; a missing message, a missing
      list and an empty list all give false. */
  lemma HasCommandIff(body: UpdateTg)
    ensures HasCommand(body) <==>
      body.message.Some? && body.message.value.entities.Some?
      && exists e :: e in body.message.value.entities.value && IsCommandEntity(e)
  {
    if HasCommand(body) {
      assert Commands(body).value[0] in Commands(body).value;
    }
  }
}
