/** `ado_remove_agent_queue.py`: for each distinct queue name, resolve the
    project, look the queue up by name and delete it when its id is truthy. */
module RemoveAgentQueue {
  import opened Domain
  import opened Text
  import opened Status
  import opened Http
  import opened Config
  import opened Lists
  import opened Common

  /** `_get_agent_queue_id`: the queue lookup goes to the project given by
      NAME, not by id; the loop over `value` returns on its first element. */
  method GetAgentQueueId(c: Connection, projectName: string, queueName: string) returns (id: IdResult)
    modifies c
    ensures c.log == old(c.log) + [GetQueues(projectName, queueName)]
    ensures id == LookupAgentId(c.server.agents(old(c.log), GetQueues(projectName, queueName)))
  {
    var r := c.FetchAgents(GetQueues(projectName, queueName));
    if r.status == REJECTED_TOKEN { return False; }
    if r.status == UNAUTHORIZED { return False; }
    if r.status == NOT_FOUND { return False; }
    if r.status != OK { return Int(0); }
    if r.count == 0 { return Int(0); }
    for i := 0 to |r.value|
      invariant i == 0
    {
      return Int(r.value[i].id);
    }
    return Int(0);
  }

  /** `_delete_agent_queue_id`: one DELETE of the queue in the project given by id. */
  method DeleteAgentQueueId(c: Connection, projectId: string, queueId: int) returns (ok: bool)
    modifies c
    ensures c.log == old(c.log) + [DeleteQueue(projectId, queueId)]
    ensures ok == DeleteSucceeded(c.server.status(old(c.log), DeleteQueue(projectId, queueId)))
  {
    var status := c.Send(DeleteQueue(projectId, queueId));
    if status == REJECTED_TOKEN { return false; }
    if status == UNAUTHORIZED { return false; }
    if status != NO_CONTENT { return false; }
    return true;
  }

  /** The requests `delete_agent_queue_name` issues after the requests `h`. */
  function QueueCalls(server: Server, h: seq<Call>, projectName: string, queueName: string): seq<Call> {
    var pid := ResolvedProjectId(server, h, projectName);
    if pid == "" then [GetProjects]
    else
      var lookup := GetQueues(projectName, queueName);
      var q := LookupAgentId(server.agents(h + [GetProjects], lookup));
      [GetProjects, lookup] + (if q.Truthy() then [DeleteQueue(pid, q.n)] else [])
  }

  /** `delete_agent_queue_name`: false, with no queue lookup, when the project
      is not found; otherwise look the queue up, delete it only when its id is
      truthy, and return true whatever the delete returned. */
  method DeleteAgentQueueName(c: Connection, projectName: string, queueName: string) returns (ok: bool)
    modifies c
    ensures ok == (ResolvedProjectId(c.server, old(c.log), projectName) != "")
    ensures c.log == old(c.log) + QueueCalls(c.server, old(c.log), projectName, queueName)
  {
    var projects := GetAllProjects(c);
    var projectId := GetProjectId(projectName, projects);
    if projectId == "" {
      return false;
    }
    var queueId := GetAgentQueueId(c, projectName, queueName);
    if queueId.Truthy() {
      var _ := DeleteAgentQueueId(c, projectId, queueId.n);
    }
    return true;
  }

  /** The request log after one round of `delete_agent_queue_name` per name,
      in order, starting from the log `h`. */
  function AfterQueues(server: Server, h: seq<Call>, projectName: string, names: seq<string>): seq<Call>
    decreases |names|
  {
    if names == [] then h
    else AfterQueues(server, h + QueueCalls(server, h, projectName, names[0]), projectName, names[1..])
  }

  /** The number of project fetches in a list of requests. */
  function ProjectFetches(calls: seq<Call>): nat {
    multiset(calls)[GetProjects]
  }

  /** Every round fetches the projects exactly once. */
  lemma QueueCallsFetchProjectsOnce(server: Server, h: seq<Call>, projectName: string, queueName: string)
    ensures ProjectFetches(QueueCalls(server, h, projectName, queueName)) == 1
  {
  }

  /** The run keeps the earlier log as a prefix and processes every name once:
      one project fetch per name. */
  lemma {:induction false} AfterQueuesRounds(server: Server, h: seq<Call>, projectName: string, names: seq<string>)
    ensures var log := AfterQueues(server, h, projectName, names);
            h <= log && ProjectFetches(log) == ProjectFetches(h) + |names|
    decreases |names|
  {
    if names != [] {
      var round := QueueCalls(server, h, projectName, names[0]);
      QueueCallsFetchProjectsOnce(server, h, projectName, names[0]);
      AfterQueuesRounds(server, h + round, projectName, names[1..]);
    }
  }

  /** No queue with id 0 is ever deleted. */
  predicate DeletesNonzero(calls: seq<Call>) {
    forall k :: 0 <= k < |calls| && calls[k].DeleteQueue? ==> calls[k].queueId != 0
  }

  lemma DeletesNonzeroAppend(a: seq<Call>, b: seq<Call>)
    requires DeletesNonzero(a) && DeletesNonzero(b)
    ensures DeletesNonzero(a + b)
  {
    forall k | 0 <= k < |a + b| && (a + b)[k].DeleteQueue?
      ensures (a + b)[k].queueId != 0
    {
      if k >= |a| {
        assert (a + b)[k] == b[k - |a|];
      }
    }
  }

  /** A round deletes a queue exactly when the project resolved and the
      lookup's reply named one with a nonzero id, and then that queue in the
      resolved project: a truthy id is always deleted, id 0 never. */
  lemma QueueCallsDeleteOnlyFound(server: Server, h: seq<Call>, projectName: string, queueName: string, pid: string, id: int)
    ensures DeleteQueue(pid, id) in QueueCalls(server, h, projectName, queueName)
        <==> && pid == ResolvedProjectId(server, h, projectName) && pid != ""
             && var r := server.agents(h + [GetProjects], GetQueues(projectName, queueName));
                NamesAgent(r) && r.value[0].id == id && id != 0
  {
  }

  /** No round deletes a queue with id 0. */
  lemma QueueCallsDeletesNonzero(server: Server, h: seq<Call>, projectName: string, queueName: string)
    ensures DeletesNonzero(QueueCalls(server, h, projectName, queueName))
  {
  }

  /** No round of the loop deletes a queue with id 0. */
  lemma {:induction false} AfterQueuesDeletesNonzero(server: Server, h: seq<Call>, projectName: string, names: seq<string>)
    requires DeletesNonzero(h)
    ensures DeletesNonzero(AfterQueues(server, h, projectName, names))
    decreases |names|
  {
    if names != [] {
      var round := QueueCalls(server, h, projectName, names[0]);
      QueueCallsDeletesNonzero(server, h, projectName, names[0]);
      DeletesNonzeroAppend(h, round);
      AfterQueuesDeletesNonzero(server, h + round, projectName, names[1..]);
    }
  }

  /** The queue names looked up in a list of requests, in order. */
  function QueuesLookedUp(calls: seq<Call>): seq<string> {
    if calls == [] then []
    else
      var last := calls[|calls| - 1];
      QueuesLookedUp(calls[..|calls| - 1]) + (if last.GetQueues? then [last.queueName] else [])
  }

  lemma {:induction false} QueuesLookedUpAppend(a: seq<Call>, b: seq<Call>)
    ensures QueuesLookedUp(a + b) == QueuesLookedUp(a) + QueuesLookedUp(b)
    decreases |b|
  {
    if b != [] {
      var init := b[..|b| - 1];
      assert (a + b)[..|a + b| - 1] == a + init;
      QueuesLookedUpAppend(a, init);
    } else {
      assert a + b == a;
    }
  }

  /** A round looks up its own queue name when the project resolved, and no
      queue at all when it did not. */
  lemma QueueCallsLookUpName(server: Server, h: seq<Call>, projectName: string, queueName: string)
    ensures QueuesLookedUp(QueueCalls(server, h, projectName, queueName))
         == if ResolvedProjectId(server, h, projectName) != "" then [queueName] else []
  {
    var calls := QueueCalls(server, h, projectName, queueName);
    assert QueuesLookedUp(calls[..1]) == [] by {
      assert calls[..1][..0] == [];
    }
    if |calls| >= 2 {
      assert QueuesLookedUp(calls[..2]) == [queueName] by {
        assert calls[..2][..1] == calls[..1];
      }
      if |calls| == 3 {
        assert calls[..2] == calls[..|calls| - 1];
      }
    }
  }

  /** The queue names whose round found the project, in the order of the run
      starting from the log `h`. */
  function ResolvedNames(server: Server, h: seq<Call>, projectName: string, names: seq<string>): (r: seq<string>)
    ensures |r| <= |names|
    ensures forall n :: n in r ==> n in names
    decreases |names|
  {
    if names == [] then []
    else
      var rest := ResolvedNames(server, h + QueueCalls(server, h, projectName, names[0]), projectName, names[1..]);
      assert forall n :: n in rest ==> n in names by {
        forall n | n in rest ensures n in names {
          var k :| 0 <= k < |names[1..]| && names[1..][k] == n;
          assert names[k + 1] == n;
        }
      }
      (if ResolvedProjectId(server, h, projectName) != "" then [names[0]] else []) + rest
  }

  /** The run looks up exactly the queue names whose round found the project,
      in order. */
  lemma {:induction false} AfterQueuesLooksUpResolvedNames(server: Server, h: seq<Call>, projectName: string, names: seq<string>)
    ensures QueuesLookedUp(AfterQueues(server, h, projectName, names))
         == QueuesLookedUp(h) + ResolvedNames(server, h, projectName, names)
    decreases |names|
  {
    if names != [] {
      var round := QueueCalls(server, h, projectName, names[0]);
      var found := if ResolvedProjectId(server, h, projectName) != "" then [names[0]] else [];
      var rest := ResolvedNames(server, h + round, projectName, names[1..]);
      assert ResolvedNames(server, h, projectName, names) == found + rest;
      assert QueuesLookedUp(h + round) == QueuesLookedUp(h) + found by {
        QueueCallsLookUpName(server, h, projectName, names[0]);
        QueuesLookedUpAppend(h, round);
      }
      AfterQueuesLooksUpResolvedNames(server, h + round, projectName, names[1..]);
      assert AfterQueues(server, h, projectName, names) == AfterQueues(server, h + round, projectName, names[1..]);
    }
  }

  /** When every project fetch finds the project, every name is looked up, in order. */
  lemma {:induction false} ResolvedNamesAll(server: Server, h: seq<Call>, projectName: string, names: seq<string>)
    requires forall g :: ResolvedProjectId(server, g, projectName) != ""
    ensures ResolvedNames(server, h, projectName, names) == names
    decreases |names|
  {
    if names != [] {
      ResolvedNamesAll(server, h + QueueCalls(server, h, projectName, names[0]), projectName, names[1..]);
      assert [names[0]] + names[1..] == names;
    }
  }

  /** One turn of the loop: the rest of the run starts with the round of `names[i]`. */
  lemma AfterQueuesStep(server: Server, h: seq<Call>, projectName: string, names: seq<string>, i: nat)
    requires i < |names|
    ensures AfterQueues(server, h, projectName, names[i..])
         == AfterQueues(server, h + QueueCalls(server, h, projectName, names[i]), projectName, names[i + 1..])
  {
    assert names[i..][0] == names[i] && names[i..][1..] == names[i + 1..];
  }

  /** The loop `for str_pool_name in list_agent_queue_names`. */
  method DeleteEach(c: Connection, projectName: string, names: seq<string>)
    modifies c
    ensures c.log == AfterQueues(c.server, old(c.log), projectName, names)
  {
    ghost var final := AfterQueues(c.server, c.log, projectName, names);
    assert names[0..] == names;
    for i := 0 to |names|
      invariant AfterQueues(c.server, c.log, projectName, names[i..]) == final
    {
      AfterQueuesStep(c.server, c.log, projectName, names, i);
      var _ := DeleteAgentQueueName(c, projectName, names[i]);
    }
    assert names[|names|..] == [];
  }

  /** The entry point: strip the project, deduplicate the queue names keeping
      their first-seen order, require both settings, then one round per name. */
  method Run(c: Connection, token: Option<string>, org: Option<string>, project: string, queueNames: seq<string>)
    returns (exit: int)
    modifies c
    ensures RequireTokenAndOrg(token, org).Exit? ==> exit == MISSING_SETTING_EXIT && c.log == old(c.log)
    ensures RequireTokenAndOrg(token, org).Start? ==>
              exit == 0 && c.log == AfterQueues(c.server, old(c.log), Strip(project), RemoveDuplicates(queueNames))
  {
    var projectName := Strip(project);
    var names := RemoveDuplicates(queueNames);
    var startup := RequireTokenAndOrg(token, org);
    if startup.Exit? {
      return startup.code;
    }
    DeleteEach(c, projectName, names);
    return 0;
  }
}
