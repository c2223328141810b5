/** `ado_update_agent_queue_permission.py`: give every user that holds a role
    on a project's agent-queue scope the same role, except the users whose
    display name contains an ignore string. */
module UpdateQueuePermission {
  import opened Domain
  import opened Text
  import opened Status
  import opened Http
  import opened Config
  import opened Common

  /** The exclusion test: substring containment, case-insensitive (unlike the
      exact match that resolves the project). */
  predicate Ignored(u: RoleAssignment, ignore: string) {
    IsSubstring(Lower(ignore), Lower(u.identity.displayName))
  }

  /** The users the filter keeps, in their original order. */
  function KeepUsers(users: seq<RoleAssignment>, ignore: string): seq<RoleAssignment> {
    if users == [] then []
    else (if Ignored(users[0], ignore) then [] else [users[0]]) + KeepUsers(users[1..], ignore)
  }

  /** Filtering a concatenation filters each part and keeps them in order. */
  lemma {:induction false} KeepUsersAppend(a: seq<RoleAssignment>, b: seq<RoleAssignment>, ignore: string)
    ensures KeepUsers(a + b, ignore) == KeepUsers(a, ignore) + KeepUsers(b, ignore)
  {
    if a == [] {
      assert a + b == b;
    } else {
      assert (a + b)[1..] == a[1..] + b;
      KeepUsersAppend(a[1..], b, ignore);
    }
  }

  /** A user is kept exactly when it is in the input and not ignored. */
  lemma {:induction false} KeepUsersMembers(users: seq<RoleAssignment>, ignore: string, u: RoleAssignment)
    ensures u in KeepUsers(users, ignore) <==> u in users && !Ignored(u, ignore)
  {
    if users != [] {
      KeepUsersMembers(users[1..], ignore, u);
      assert users == [users[0]] + users[1..];
    }
  }

  /** Every string contains the empty string, so the filter on its own would
      drop every user when the ignore string is empty; the early return of
      `_remove_except_user` is what keeps them. */
  lemma {:induction false} KeepUsersWithEmptyIgnore(users: seq<RoleAssignment>)
    ensures KeepUsers(users, "") == []
  {
    if users != [] {
      EmptyIsSubstring(Lower(users[0].identity.displayName));
      assert Lower("") == "";
      KeepUsersWithEmptyIgnore(users[1..]);
    }
  }

  /** What `_remove_except_user` returns: the input itself when the ignore
      string is empty, the filtered list otherwise. */
  function ExceptUser(users: seq<RoleAssignment>, ignore: string): seq<RoleAssignment> {
    if ignore == "" then users else KeepUsers(users, ignore)
  }

  /** The filter only looks at the lower-cased ignore string, so lowering it
      beforehand (as the entry point does) changes nothing. */
  lemma {:induction false} KeepUsersLowerIgnore(users: seq<RoleAssignment>, ignore: string)
    ensures KeepUsers(users, Lower(ignore)) == KeepUsers(users, ignore)
  {
    LowerIdempotent(ignore);
    if users != [] {
      KeepUsersLowerIgnore(users[1..], ignore);
    }
  }

  /** `_remove_except_user`. */
  method RemoveExceptUser(users: seq<RoleAssignment>, ignore: string) returns (kept: seq<RoleAssignment>)
    ensures ignore == "" ==> kept == users
    ensures ignore != "" ==> kept == KeepUsers(users, ignore)
  {
    if ignore == "" {
      return users;
    }
    kept := [];
    for i := 0 to |users|
      invariant kept == KeepUsers(users[..i], ignore)
    {
      assert users[..i + 1] == users[..i] + [users[i]];
      KeepUsersAppend(users[..i], [users[i]], ignore);
      if !IsSubstring(Lower(ignore), Lower(users[i].identity.displayName)) {
        kept := kept + [users[i]];
      }
    }
    assert users[..|users|] == users;
  }

  /** The ids `set_permission` puts, for a project whose role assignments fetched as `users`. */
  function TargetIds(users: seq<RoleAssignment>, ignore: string): seq<string> {
    UserIds(ExceptUser(users, ignore))
  }

  /** The requests `set_permission` issues when the requests sent before it are `h`. */
  function PermissionCalls(server: Server, h: seq<Call>, project: string, role: string, ignore: string): seq<Call> {
    var pid := ResolvedProjectId(server, h, project);
    if pid == "" then [GetProjects]
    else
      var users := ListOnSuccess(server.roleAssignments(h + [GetProjects], pid));
      [GetProjects, GetRoleAssignments(pid)] + PutCalls(pid, role, TargetIds(users, ignore))
  }

  /** The loop of `set_permission`: one PUT per id, in order, whatever each returns. */
  method PutEach(c: Connection, projectId: string, role: string, ids: seq<string>)
    modifies c
    ensures c.log == old(c.log) + PutCalls(projectId, role, ids)
  {
    ghost var h := c.log;
    for i := 0 to |ids|
      invariant c.log == h + PutCalls(projectId, role, ids[..i])
    {
      PutCallsSnoc(projectId, role, ids, i);
      var _ := PutPermission(c, projectId, role, ids[i]);
    }
    assert ids[..|ids|] == ids;
  }

  /** `set_permission`: resolve the project, stop with false if it is not found;
      otherwise fetch its role assignments, drop the ignored users and issue one
      PUT per remaining user, in order, ignoring each PUT's outcome. */
  method SetPermission(c: Connection, project: string, role: string, ignore: string) returns (ok: bool)
    modifies c
    ensures ok == (ResolvedProjectId(c.server, old(c.log), project) != "")
    ensures c.log == old(c.log) + PermissionCalls(c.server, old(c.log), project, role, ignore)
  {
    ghost var h := c.log;
    var projects := GetAllProjects(c);
    var projectId := GetProjectId(project, projects);
    if projectId == "" {
      return false;
    }
    var users := GetAllUsers(c, projectId);
    ghost var fetched := users;
    users := RemoveExceptUser(users, ignore);
    var ids := GetAllUserIds(users);
    assert ids == TargetIds(fetched, ignore);
    assert c.log == h + [GetProjects, GetRoleAssignments(projectId)];
    PutEach(c, projectId, role, ids);
    return true;
  }

  /** The command-line values after the entry point's clean-up. */
  datatype Arguments = Arguments(project: string, role: string, ignoreUserName: string)

  /** The project name is stripped, the role capitalised and the ignore name
      lower-cased. */
  function Normalise(args: Arguments): (n: Arguments)
    ensures n.project == Strip(args.project)
    ensures Capitalize(n.role) == n.role && Lower(n.role) == Lower(args.role)
    ensures Lower(n.ignoreUserName) == n.ignoreUserName
    ensures Lower(n.ignoreUserName) == Lower(args.ignoreUserName)
  {
    CapitalizeIdempotent(args.role);
    LowerIdempotent(args.ignoreUserName);
    Arguments(Strip(args.project), Capitalize(args.role), Lower(args.ignoreUserName))
  }

  /** Running `set_permission` with the lower-cased ignore string issues the
      same requests as running it with the string as given. */
  lemma PermissionCallsLowerIgnore(server: Server, h: seq<Call>, project: string, role: string, ignore: string)
    ensures PermissionCalls(server, h, project, role, Lower(ignore)) == PermissionCalls(server, h, project, role, ignore)
  {
    var pid := ResolvedProjectId(server, h, project);
    if pid != "" {
      KeepUsersLowerIgnore(ListOnSuccess(server.roleAssignments(h + [GetProjects], pid)), ignore);
      assert Lower(ignore) == "" <==> ignore == "";
    }
  }

  /** The entry point: clean the arguments, require both settings, then run
      `set_permission`. The exit code is 0 whatever `set_permission` returns. */
  method Run(c: Connection, token: Option<string>, org: Option<string>, args: Arguments) returns (exit: int)
    modifies c
    ensures RequireTokenAndOrg(token, org).Exit? ==> exit == MISSING_SETTING_EXIT && c.log == old(c.log)
    ensures RequireTokenAndOrg(token, org).Start? ==>
              var n := Normalise(args);
              exit == 0 && c.log == old(c.log) + PermissionCalls(c.server, old(c.log), n.project, n.role, args.ignoreUserName)
  {
    var n := Normalise(args);
    var startup := RequireTokenAndOrg(token, org);
    if startup.Exit? {
      return startup.code;
    }
    PermissionCallsLowerIgnore(c.server, c.log, n.project, n.role, args.ignoreUserName);
    var _ := SetPermission(c, n.project, n.role, n.ignoreUserName);
    return 0;
  }
}
