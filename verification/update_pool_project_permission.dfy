/** `ado_update_agent_pool_project_permission.py`: give every user that holds a
    role on a project's agent-queue scope the same role, with no exclusion;
    a rejected token on any PUT raises and ends the run. */
module UpdatePoolProjectPermission {
  import opened Domain
  import opened Text
  import opened Status
  import opened Http
  import opened Config
  import opened Common

  /** `_put_permission`: raises on 203, true on 200, false otherwise. */
  method PutPermission(c: Connection, projectId: string, role: string, userId: string) returns (r: Raising<bool>)
    modifies c
    ensures c.log == old(c.log) + [PutCall(projectId, role, userId)]
    ensures r == PutOrRaise(c.server.status(old(c.log), PutCall(projectId, role, userId)))
  {
    var body := [RoleUpdate(userId, role)];
    var status := c.Send(PutRoleAssignments(projectId, body));
    if status == REJECTED_TOKEN { return Raised; }
    if status != OK { return Returned(false); }
    return Returned(true);
  }

  /** The PUTs of the loop over `ids`, after the requests `h`: one per id
      until a PUT is answered 203, whose exception ends the loop. */
  function PutRun(server: Server, h: seq<Call>, projectId: string, role: string, ids: seq<string>): Trace
    decreases |ids|
  {
    if ids == [] then Trace([], false)
    else
      var call := PutCall(projectId, role, ids[0]);
      if PutOrRaise(server.status(h, call)).Raised? then Trace([call], true)
      else
        var rest := PutRun(server, h + [call], projectId, role, ids[1..]);
        Trace([call] + rest.calls, rest.raised)
  }

  /** No PUT was answered 203 on the way. */
  predicate NoRejection(server: Server, h: seq<Call>, projectId: string, role: string, ids: seq<string>) {
    forall k :: 0 <= k < |ids| ==>
      server.status(h + PutCalls(projectId, role, ids[..k]), PutCall(projectId, role, ids[k])) != REJECTED_TOKEN
  }

  /** Without a rejected token, the loop issues exactly one PUT per id, in order,
      whatever the other PUTs return. */
  lemma {:induction false} PutRunWithoutRejection(server: Server, h: seq<Call>, projectId: string, role: string, ids: seq<string>)
    requires NoRejection(server, h, projectId, role, ids)
    ensures PutRun(server, h, projectId, role, ids) == Trace(PutCalls(projectId, role, ids), false)
    decreases |ids|
  {
    if ids != [] {
      var call := PutCall(projectId, role, ids[0]);
      assert ids[..0] == [] && PutCalls(projectId, role, []) == [];
      assert h + [] == h;
      forall k | 0 <= k < |ids[1..]|
        ensures server.status(h + [call] + PutCalls(projectId, role, ids[1..][..k]), PutCall(projectId, role, ids[1..][k])) != REJECTED_TOKEN
      {
        assert ids[1..][..k] == ids[1..k + 1];
        assert PutCalls(projectId, role, ids[..k + 1]) == [call] + PutCalls(projectId, role, ids[1..k + 1]);
        assert h + [call] + PutCalls(projectId, role, ids[1..k + 1]) == h + PutCalls(projectId, role, ids[..k + 1]);
      }
      PutRunWithoutRejection(server, h + [call], projectId, role, ids[1..]);
      assert PutCalls(projectId, role, ids) == [call] + PutCalls(projectId, role, ids[1..]);
    }
  }

  /** Whatever the replies, the loop issues a prefix of the one-PUT-per-id
      sequence; when it raised, its last PUT was the one answered 203. */
  lemma {:induction false} PutRunIsPrefix(server: Server, h: seq<Call>, projectId: string, role: string, ids: seq<string>)
    ensures var t := PutRun(server, h, projectId, role, ids);
            && |t.calls| <= |ids|
            && t.calls == PutCalls(projectId, role, ids[..|t.calls|])
            && (t.raised ==>
                  |t.calls| > 0 && server.status(h + t.calls[..|t.calls| - 1], t.calls[|t.calls| - 1]) == REJECTED_TOKEN)
    decreases |ids|
  {
    if ids != [] {
      var call := PutCall(projectId, role, ids[0]);
      var t := PutRun(server, h, projectId, role, ids);
      if PutOrRaise(server.status(h, call)).Raised? {
        assert t.calls == [call];
        assert [call][..0] == [] && h + [] == h;
      } else {
        PutRunIsPrefix(server, h + [call], projectId, role, ids[1..]);
        var rest := PutRun(server, h + [call], projectId, role, ids[1..]);
        var n := |rest.calls|;
        assert ids[1..][..n] == ids[1..n + 1];
        assert PutCalls(projectId, role, ids[..n + 1]) == [call] + PutCalls(projectId, role, ids[1..n + 1]);
        if t.raised {
          assert t.calls[..|t.calls| - 1] == [call] + rest.calls[..n - 1];
          assert h + t.calls[..|t.calls| - 1] == h + [call] + rest.calls[..n - 1];
        }
      }
    }
  }

  /** The loop stops only at a rejected token: a run that did not raise issued
      one PUT per id, in order, and a run that raised got no 203 before its
      last PUT, so the PUT that raised was the first one answered 203. */
  lemma {:induction false} PutRunStopsAtFirstRejection(server: Server, h: seq<Call>, projectId: string, role: string, ids: seq<string>)
    ensures var t := PutRun(server, h, projectId, role, ids);
            && (!t.raised ==> t.calls == PutCalls(projectId, role, ids))
            && (t.raised ==>
                  forall k :: 0 <= k < |t.calls| - 1 ==> server.status(h + t.calls[..k], t.calls[k]) != REJECTED_TOKEN)
    decreases |ids|
  {
    if ids != [] {
      var call := PutCall(projectId, role, ids[0]);
      if !PutOrRaise(server.status(h, call)).Raised? {
        var t := PutRun(server, h, projectId, role, ids);
        var rest := PutRun(server, h + [call], projectId, role, ids[1..]);
        PutRunStopsAtFirstRejection(server, h + [call], projectId, role, ids[1..]);
        assert t == Trace([call] + rest.calls, rest.raised);
        if !t.raised {
          assert PutCalls(projectId, role, ids) == [call] + PutCalls(projectId, role, ids[1..]);
        } else {
          forall k | 0 <= k < |t.calls| - 1
            ensures server.status(h + t.calls[..k], t.calls[k]) != REJECTED_TOKEN
          {
            if k == 0 {
              assert h + t.calls[..0] == h;
            } else {
              assert t.calls[..k] == [call] + rest.calls[..k - 1];
              assert h + t.calls[..k] == (h + [call]) + rest.calls[..k - 1];
              assert t.calls[k] == rest.calls[k - 1];
            }
          }
        }
      }
    }
  }

  /** One turn of the loop: the run from position `i` is the PUT of `ids[i]`
      followed, unless it raised, by the run from `i + 1`. */
  lemma PutRunStep(server: Server, h: seq<Call>, projectId: string, role: string, ids: seq<string>, i: nat)
    requires i < |ids|
    ensures var call := PutCall(projectId, role, ids[i]);
            var run := PutRun(server, h, projectId, role, ids[i..]);
            if PutOrRaise(server.status(h, call)).Raised? then run == Trace([call], true)
            else
              var rest := PutRun(server, h + [call], projectId, role, ids[i + 1..]);
              run == Trace([call] + rest.calls, rest.raised)
  {
    assert ids[i..][0] == ids[i] && ids[i..][1..] == ids[i + 1..];
  }

  /** The loop `for str_id in list_ids: _put_permission(...)`; an exception
      from a PUT leaves the loop. */
  method PutEach(c: Connection, projectId: string, role: string, ids: seq<string>) returns (raised: bool)
    modifies c
    ensures var run := PutRun(c.server, old(c.log), projectId, role, ids);
            c.log == old(c.log) + run.calls && raised == run.raised
  {
    ghost var h := c.log;
    ghost var full := PutRun(c.server, h, projectId, role, ids);
    assert ids[0..] == ids;
    var i := 0;
    while i < |ids|
      invariant 0 <= i <= |ids|
      invariant h + full.calls == c.log + PutRun(c.server, c.log, projectId, role, ids[i..]).calls
      invariant full.raised == PutRun(c.server, c.log, projectId, role, ids[i..]).raised
    {
      PutRunStep(c.server, c.log, projectId, role, ids, i);
      var put := PutPermission(c, projectId, role, ids[i]);
      if put.Raised? {
        return true;
      }
      i := i + 1;
    }
    assert ids[i..] == [];
    return false;
  }

  /** `set_permission` seen from outside: the requests it issued and whether it raised. */
  function PermissionTrace(server: Server, h: seq<Call>, project: string, role: string): Trace {
    var pid := ResolvedProjectId(server, h, project);
    if pid == "" then Trace([GetProjects], false)
    else
      var ids := UserIds(ListOnSuccess(server.roleAssignments(h + [GetProjects], pid)));
      var run := PutRun(server, h + [GetProjects, GetRoleAssignments(pid)], pid, role, ids);
      Trace([GetProjects, GetRoleAssignments(pid)] + run.calls, run.raised)
  }

  /** `set_permission`: returns false, without fetching users, when the project
      is not found; otherwise one PUT per user id, true at the end, unless a PUT
      raises, which propagates. */
  method SetPermission(c: Connection, project: string, role: string) returns (r: Raising<bool>)
    modifies c
    ensures var t := PermissionTrace(c.server, old(c.log), project, role);
            && c.log == old(c.log) + t.calls
            && r == (if t.raised then Raised else Returned(ResolvedProjectId(c.server, old(c.log), project) != ""))
  {
    ghost var h := c.log;
    var projects := GetAllProjects(c);
    var projectId := GetProjectId(project, projects);
    if projectId == "" {
      return Returned(false);
    }
    var users := GetAllUsers(c, projectId);
    var ids := GetAllUserIds(users);
    assert ids == UserIds(users);
    ghost var h2 := c.log;
    assert h2 == h + [GetProjects, GetRoleAssignments(projectId)];
    ghost var run := PutRun(c.server, h2, projectId, role, ids);
    assert PermissionTrace(c.server, h, project, role) == Trace([GetProjects, GetRoleAssignments(projectId)] + run.calls, run.raised);
    var raised := PutEach(c, projectId, role, ids);
    assert c.log == h + ([GetProjects, GetRoleAssignments(projectId)] + run.calls);
    if raised {
      return Raised;
    }
    return Returned(true);
  }

  /** The entry point: strip the project, capitalise the role, require both
      settings, run `set_permission`; an uncaught exception ends the process
      with exit code 1. */
  method Run(c: Connection, token: Option<string>, org: Option<string>, project: string, role: string)
    returns (exit: int)
    modifies c
    ensures RequireTokenAndOrg(token, org).Exit? ==> exit == MISSING_SETTING_EXIT && c.log == old(c.log)
    ensures RequireTokenAndOrg(token, org).Start? ==>
              var t := PermissionTrace(c.server, old(c.log), Strip(project), Capitalize(role));
              c.log == old(c.log) + t.calls && exit == (if t.raised then 1 else 0)
  {
    var startup := RequireTokenAndOrg(token, org);
    if startup.Exit? {
      return startup.code;
    }
    var r := SetPermission(c, Strip(project), Capitalize(role));
    exit := if r.Raised? then 1 else 0;
  }
}
