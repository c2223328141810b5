/** How each script turns a status code (and body) into a result. */
module Status {
  import opened Domain

  const OK := 200
  const REJECTED_TOKEN := 203
  const NO_CONTENT := 204
  const UNAUTHORIZED := 401
  const NOT_FOUND := 404

  /** `_get_all_projects` and `_get_all_users`: a rejected token, an
      unauthorised org or any other failure gives `[]`; only 200 gives `value`. */
  function ListOnSuccess<T>(r: Response<T>): (v: seq<T>)
    ensures r.status == OK ==> v == r.value
    ensures r.status != OK ==> v == []
  {
    if r.status == REJECTED_TOKEN then []
    else if r.status == UNAUTHORIZED then []
    else if r.status != OK then []
    else r.value
  }

  /** `_put_permission` that logs a rejected token: true exactly on 200. */
  function PutSucceeded(status: int): (ok: bool)
    ensures ok <==> status == OK
  {
    if status == REJECTED_TOKEN then false
    else if status != OK then false
    else true
  }

  /** `_put_permission` that raises on a rejected token. */
  function PutOrRaise(status: int): (r: Raising<bool>)
    ensures r.Raised? <==> status == REJECTED_TOKEN
    ensures r == Returned(true) <==> status == OK
  {
    if status == REJECTED_TOKEN then Raised
    else if status != OK then Returned(false)
    else Returned(true)
  }

  /** `_delete_agent_queue_id` and `_delete_agent_pool_id` that log every
      failure: true exactly on 204, so a 200 is a failure too. */
  function DeleteSucceeded(status: int): (ok: bool)
    ensures ok <==> status == NO_CONTENT
  {
    if status == REJECTED_TOKEN then false
    else if status == UNAUTHORIZED then false
    else if status != NO_CONTENT then false
    else true
  }

  /** `_delete_agent_pool_id` that raises on a rejected token. */
  function DeleteOrRaise(status: int): (r: Raising<bool>)
    ensures r.Raised? <==> status == REJECTED_TOKEN
    ensures r == Returned(true) <==> status == NO_CONTENT
  {
    if status == REJECTED_TOKEN then Raised
    else if status != NO_CONTENT then Returned(false)
    else Returned(true)
  }

  /** A 200 reply names an agent: the first element's id, when `count` is not 0. */
  predicate NamesAgent(r: Response<Agent>) {
    r.status == OK && r.count != 0 && |r.value| > 0
  }

  /** `_get_agent_queue_id` and `_get_agent_pool_id` that log every failure:
      `False` on 203, 401 and 404, `0` on any other failure and on an empty
      reply, otherwise the first element's id. */
  function LookupAgentId(r: Response<Agent>): (id: IdResult)
    ensures r.status == REJECTED_TOKEN || r.status == UNAUTHORIZED || r.status == NOT_FOUND ==> id == False
    ensures id == False ==> r.status == REJECTED_TOKEN || r.status == UNAUTHORIZED || r.status == NOT_FOUND
    ensures NamesAgent(r) ==> id == Int(r.value[0].id)
    ensures id.Truthy() <==> NamesAgent(r) && r.value[0].id != 0
  {
    if r.status == REJECTED_TOKEN then False
    else if r.status == UNAUTHORIZED then False
    else if r.status == NOT_FOUND then False
    else if r.status != OK then Int(0)
    else if r.count == 0 then Int(0)
    else if |r.value| > 0 then Int(r.value[0].id)
    else Int(0)
  }

  /** `_get_agent_pool_id` that raises on a rejected token and returns `False`
      on any other failure. */
  function LookupAgentIdOrRaise(r: Response<Agent>): (res: Raising<IdResult>)
    ensures res.Raised? <==> r.status == REJECTED_TOKEN
    ensures res == Returned(False) <==> r.status != REJECTED_TOKEN && r.status != OK
    ensures NamesAgent(r) ==> res == Returned(Int(r.value[0].id))
    ensures res.Returned? && res.value.Truthy() <==> NamesAgent(r) && r.value[0].id != 0
  {
    if r.status == REJECTED_TOKEN then Raised
    else if r.status != OK then Returned(False)
    else if r.count == 0 then Returned(Int(0))
    else if |r.value| > 0 then Returned(Int(r.value[0].id))
    else Returned(Int(0))
  }
}
