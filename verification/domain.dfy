/** The values the scripts exchange with the service, as parsed records. */
module Domain {

  datatype Option<T> = None | Some(value: T)

  /** An element of the `value` list of `GET _apis/projects`. */
  datatype Project = Project(id: string, name: string)

  /** `identity` of a role assignment. */
  datatype Identity = Identity(id: string, displayName: string)

  /** An element of the `value` list of the agent-queue role-assignment endpoint. */
  datatype RoleAssignment = RoleAssignment(identity: Identity)

  /** An agent pool or agent queue record; `id` is already `int(record['id'])`. */
  datatype Agent = Agent(id: int)

  /** One element of the JSON array sent by a role-assignment PUT. */
  datatype RoleUpdate = RoleUpdate(userId: string, roleName: string)

  /** A parsed HTTP response: the status code and the `count` and `value` fields of its body. */
  datatype Response<T> = Response(status: int, count: int, value: seq<T>)

  /** Every request the scripts issue, with the parameters that select its target. */
  datatype Call =
    | GetProjects
    | GetRoleAssignments(projectId: string)
    | PutRoleAssignments(projectId: string, body: seq<RoleUpdate>)
    | GetPools(poolName: string)
    | DeletePool(poolId: int)
    | GetQueues(projectName: string, queueName: string)
    | DeleteQueue(projectId: string, queueId: int)

  /** The `int` lookups return either Python's `False` or an integer; both
      `False` and `0` are falsy. */
  datatype IdResult = False | Int(n: int) {
    predicate Truthy() { Int? && n != 0 }
  }

  /** A call that either returns or raises `BadCredentialException`. */
  datatype Raising<T> = Returned(value: T) | Raised

  /** The requests a step issued (or, for a whole run, the request log at its
      end), and whether it ended by raising. */
  datatype Trace = Trace(calls: seq<Call>, raised: bool)
}
