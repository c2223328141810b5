/** `ado_get_all_projects.py`: print the names of all projects of the
    organisation, one per line. */
module GetAllProjectsScript {
  import opened Domain
  import opened Text
  import opened Status
  import opened Http
  import opened Config
  import Common

  /** Each project's `name`, position by position. */
  function Names(ps: seq<Project>): seq<string> {
    seq(|ps|, i requires 0 <= i < |ps| => ps[i].name)
  }

  /** The text the loop of `_get_project_names` accumulates: every name
      followed by a newline. */
  function Lines(names: seq<string>): string {
    if names == [] then ""
    else Lines(names[..|names| - 1]) + names[|names| - 1] + "\n"
  }

  /** The accumulated text is the newline-join of the names plus one trailing newline. */
  lemma {:induction false} LinesIsJoin(names: seq<string>)
    requires names != []
    ensures Lines(names) == Join(names, "\n") + "\n"
  {
    var init := names[..|names| - 1];
    if |names| == 1 {
      assert init == [];
    } else {
      LinesIsJoin(init);
    }
  }

  /** `_get_project_names`: append each name and a newline, then strip. The
      result is the stripped newline-join of the names; it is empty for no
      projects and never begins or ends with whitespace. */
  method GetProjectNames(ps: seq<Project>) returns (s: string)
    ensures s == Strip(Join(Names(ps), "\n"))
    ensures ps == [] ==> s == ""
    ensures s == [] || (!IsSpace(s[0]) && !IsSpace(s[|s| - 1]))
  {
    var acc := "";
    for i := 0 to |ps|
      invariant acc == Lines(Names(ps)[..i])
    {
      assert Names(ps)[..i + 1][..i] == Names(ps)[..i];
      acc := acc + ps[i].name + "\n";
    }
    assert Names(ps)[..|ps|] == Names(ps);
    if ps != [] {
      LinesIsJoin(Names(ps));
      StripDropsTrailingSpace(Join(Names(ps), "\n"), '\n');
    }
    s := Strip(acc);
  }

  /** When every name is non-empty and has no whitespace at either end, the
      listing is exactly the names joined by newlines. */
  lemma ProjectNamesOfTrimmedNames(ps: seq<Project>)
    requires ps != []
    requires forall k :: 0 <= k < |ps| ==>
               ps[k].name != [] && !IsSpace(ps[k].name[0]) && !IsSpace(ps[k].name[|ps[k].name| - 1])
    ensures Strip(Join(Names(ps), "\n")) == Join(Names(ps), "\n")
  {
    JoinEnds(Names(ps), "\n");
    StripUntrimmed(Join(Names(ps), "\n"));
  }

  /** The listing printed when the projects were fetched after the requests `h`. */
  function Listing(server: Server, h: seq<Call>): string {
    Strip(Join(Names(ListOnSuccess(server.projects(h))), "\n"))
  }

  /** `get_all_projects`: fetch the projects (nothing on any failure) and list
      their names. */
  method GetAllProjects(c: Connection) returns (s: string)
    modifies c
    ensures c.log == old(c.log) + [GetProjects]
    ensures s == Listing(c.server, old(c.log))
  {
    var projects := Common.GetAllProjects(c);
    s := GetProjectNames(projects);
  }

  /** This script's `_get_all_users`, which nothing calls: it has no branch of
      its own for 401, yet every status but 200 still gives `[]`. */
  method GetAllUsers(c: Connection, projectId: string) returns (users: seq<RoleAssignment>)
    modifies c
    ensures c.log == old(c.log) + [GetRoleAssignments(projectId)]
    ensures users == ListOnSuccess(c.server.roleAssignments(old(c.log), projectId))
  {
    var r := c.FetchRoleAssignments(projectId);
    if r.status == REJECTED_TOKEN { return []; }
    if r.status != OK { return []; }
    return r.value;
  }

  /** The entry point: require both settings, then print the listing; `output`
      is what `print` writes, the listing and one newline. */
  method Run(c: Connection, token: Option<string>, org: Option<string>) returns (exit: int, output: string)
    modifies c
    ensures RequireTokenAndOrg(token, org).Exit? ==> exit == MISSING_SETTING_EXIT && output == "" && c.log == old(c.log)
    ensures RequireTokenAndOrg(token, org).Start? ==>
              exit == 0 && output == Listing(c.server, old(c.log)) + "\n" && c.log == old(c.log) + [GetProjects]
  {
    var startup := RequireTokenAndOrg(token, org);
    if startup.Exit? {
      return startup.code, "";
    }
    var listing := GetAllProjects(c);
    output := listing + "\n";
    exit := 0;
  }
}
