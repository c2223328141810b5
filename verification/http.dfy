/** The HTTP session every script talks through. The service is not modelled;
    it is an oracle that answers each request, possibly depending on the
    requests issued before it. The connection records every request it sends. */
module Http {
  import opened Domain

  /** What the service answers, given the requests already sent and the new one. */
  datatype Server = Server(
    projects: seq<Call> -> Response<Project>,
    roleAssignments: (seq<Call>, string) -> Response<RoleAssignment>,
    agents: (seq<Call>, Call) -> Response<Agent>,
    status: (seq<Call>, Call) -> int)

  class Connection {
    var log: seq<Call>
    const server: Server

    constructor (server: Server)
      ensures log == [] && this.server == server
    {
      this.server := server;
      log := [];
    }

    /** `requests.get(.../_apis/projects)`. */
    method FetchProjects() returns (r: Response<Project>)
      modifies this
      ensures log == old(log) + [GetProjects]
      ensures r == server.projects(old(log))
    {
      r := server.projects(log);
      log := log + [GetProjects];
    }

    /** `requests.get(.../roleassignments/resources/{projectId})`. */
    method FetchRoleAssignments(projectId: string) returns (r: Response<RoleAssignment>)
      modifies this
      ensures log == old(log) + [GetRoleAssignments(projectId)]
      ensures r == server.roleAssignments(old(log), projectId)
    {
      r := server.roleAssignments(log, projectId);
      log := log + [GetRoleAssignments(projectId)];
    }

    /** `requests.get` of the pool or queue list filtered by name. */
    method FetchAgents(call: Call) returns (r: Response<Agent>)
      requires call.GetPools? || call.GetQueues?
      modifies this
      ensures log == old(log) + [call]
      ensures r == server.agents(old(log), call)
    {
      r := server.agents(log, call);
      log := log + [call];
    }

    /** `requests.put` or `requests.delete`; only the status code is used. */
    method Send(call: Call) returns (status: int)
      requires call.PutRoleAssignments? || call.DeletePool? || call.DeleteQueue?
      modifies this
      ensures log == old(log) + [call]
      ensures status == server.status(old(log), call)
    {
      status := server.status(log, call);
      log := log + [call];
    }
  }
}
