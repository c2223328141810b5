/** Functions that several scripts define with the same body: the project
    fetch and lookup, the role-assignment fetch, the user-id projection and the
    put that only logs a rejected token. */
module Common {
  import opened Domain
  import opened Text
  import opened Status
  import opened Http

  /** Names compared the way `a.lower() == b.lower()` compares them. */
  predicate SameName(a: string, b: string) {
    Lower(a) == Lower(b)
  }

  /** `k` is the position of the first project named `name`, ignoring case. */
  predicate IsFirstMatch(name: string, ps: seq<Project>, k: int) {
    0 <= k < |ps| && SameName(ps[k].name, name)
    && forall j :: 0 <= j < k ==> !SameName(ps[j].name, name)
  }

  /** The position of the first project named `name`, or `|ps|` if there is none. */
  function FirstMatch(name: string, ps: seq<Project>): (k: nat)
    ensures k <= |ps|
    ensures forall j :: 0 <= j < k ==> !SameName(ps[j].name, name)
    ensures k < |ps| ==> SameName(ps[k].name, name)
  {
    if ps == [] then 0
    else if SameName(ps[0].name, name) then 0
    else 1 + FirstMatch(name, ps[1..])
  }

  /** What `_get_project_id` returns: the id of the first project whose name
      equals `name` case-insensitively, and `""` when no project matches. */
  function ProjectId(name: string, ps: seq<Project>): (id: string)
    ensures (forall j :: 0 <= j < |ps| ==> !SameName(ps[j].name, name)) ==> id == ""
    ensures forall k :: IsFirstMatch(name, ps, k) ==> id == ps[k].id
  {
    var k := FirstMatch(name, ps);
    if k < |ps| then ps[k].id else ""
  }

  /** `_get_project_id`: an early-return linear search. */
  method GetProjectId(name: string, ps: seq<Project>) returns (id: string)
    ensures id == ProjectId(name, ps)
  {
    for i := 0 to |ps|
      invariant forall j :: 0 <= j < i ==> !SameName(ps[j].name, name)
    {
      if Lower(ps[i].name) == Lower(name) {
        return ps[i].id;
      }
    }
    return "";
  }

  /** The project id a fresh `_get_all_projects` + `_get_project_id` resolves,
      when the requests issued so far are `h`. */
  function ResolvedProjectId(server: Server, h: seq<Call>, name: string): string {
    ProjectId(name, ListOnSuccess(server.projects(h)))
  }

  /** `_get_all_projects`: one GET, `value` only on 200. */
  method GetAllProjects(c: Connection) returns (ps: seq<Project>)
    modifies c
    ensures c.log == old(c.log) + [GetProjects]
    ensures ps == ListOnSuccess(c.server.projects(old(c.log)))
  {
    var r := c.FetchProjects();
    if r.status == REJECTED_TOKEN { return []; }
    if r.status == UNAUTHORIZED { return []; }
    if r.status != OK { return []; }
    return r.value;
  }

  /** `_get_all_users`: one GET of the project's role assignments, `value` only on 200. */
  method GetAllUsers(c: Connection, projectId: string) returns (users: seq<RoleAssignment>)
    modifies c
    ensures c.log == old(c.log) + [GetRoleAssignments(projectId)]
    ensures users == ListOnSuccess(c.server.roleAssignments(old(c.log), projectId))
  {
    var r := c.FetchRoleAssignments(projectId);
    if r.status == REJECTED_TOKEN { return []; }
    if r.status == UNAUTHORIZED { return []; }
    if r.status != OK { return []; }
    return r.value;
  }

  /** Each user's `identity.id`, position by position. */
  function UserIds(users: seq<RoleAssignment>): seq<string> {
    seq(|users|, i requires 0 <= i < |users| => users[i].identity.id)
  }

  /** `_get_all_user_ids`: the list built by appending each user's `identity.id`. */
  method GetAllUserIds(users: seq<RoleAssignment>) returns (ids: seq<string>)
    ensures |ids| == |users|
    ensures forall i :: 0 <= i < |users| ==> ids[i] == users[i].identity.id
  {
    ids := [];
    for i := 0 to |users|
      invariant |ids| == i
      invariant forall k :: 0 <= k < i ==> ids[k] == users[k].identity.id
    {
      ids := ids + [users[i].identity.id];
    }
  }

  /** The PUT that grants `role` to one user: a one-element body. */
  function PutCall(projectId: string, role: string, userId: string): Call {
    PutRoleAssignments(projectId, [RoleUpdate(userId, role)])
  }

  /** One PUT per id, in the order of `ids`. */
  function PutCalls(projectId: string, role: string, ids: seq<string>): seq<Call> {
    seq(|ids|, i requires 0 <= i < |ids| => PutCall(projectId, role, ids[i]))
  }

  lemma PutCallsSnoc(projectId: string, role: string, ids: seq<string>, i: nat)
    requires i < |ids|
    ensures PutCalls(projectId, role, ids[..i + 1]) == PutCalls(projectId, role, ids[..i]) + [PutCall(projectId, role, ids[i])]
  {
  }

  /** `_put_permission` that logs a rejected token and returns false. */
  method PutPermission(c: Connection, projectId: string, role: string, userId: string) returns (ok: bool)
    modifies c
    ensures c.log == old(c.log) + [PutCall(projectId, role, userId)]
    ensures ok == PutSucceeded(c.server.status(old(c.log), PutCall(projectId, role, userId)))
  {
    var body := [RoleUpdate(userId, role)];
    var status := c.Send(PutRoleAssignments(projectId, body));
    if status == REJECTED_TOKEN { return false; }
    if status != OK { return false; }
    return true;
  }
}
