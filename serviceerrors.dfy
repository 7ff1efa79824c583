/** What the three record services share: the errors they throw (a
    `UsersError`, `GroupsError` or `CommandsError` carries a message and a
    status code) and the outcome of a call that may write a table. */
module ServiceErrors {
  import opened Wrappers
  import opened Js
  import opened Store
  import opened DynamoDbHelper
  import HttpStatus

  const BadRequestFault := Fault("Bad request", Some(HttpStatus.BAD_REQUEST))
  const NotFoundFault := Fault("Not found", Some(HttpStatus.NOT_FOUND))
  const BadGatewayFault := Fault("Bad gateway", Some(HttpStatus.BAD_GATEWAY))
  const ForbiddenFault := Fault("Forbidden", Some(HttpStatus.FORBIDDEN))
  const UnauthorizedFault := Fault("Unauthorized", Some(HttpStatus.UNAUTHORIZED))

  /** What a service call resolves or rejects with, and the table after it. */
  datatype Outcome = Outcome(result: Result<Value, Fault>, tbl: Table)

  /** Re-writing an item's own attributes changes nothing, so merging the
      sparse part of `(item + x) - drop` over the item is merging `x`. */
  lemma MergeOverOwn(item: Obj, x: Obj, drop: set<string>)
    requires forall a :: a in x ==> !Nullish(x[a])
    requires forall a :: a in drop ==> a !in x
    ensures item + SparseObj((item + x) - drop) == item + x
  {
  }
}
