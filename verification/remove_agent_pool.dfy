/** `ado_remove_agent_pool.py`: for each distinct pool name, look the pool up
    by name and delete it when its id is truthy. */
module RemoveAgentPool {
  import opened Domain
  import opened Status
  import opened Http
  import opened Config
  import opened Lists

  /** `_get_agent_pool_id`: the loop over `value` returns on its first element. */
  method GetAgentPoolId(c: Connection, poolName: string) returns (id: IdResult)
    modifies c
    ensures c.log == old(c.log) + [GetPools(poolName)]
    ensures id == LookupAgentId(c.server.agents(old(c.log), GetPools(poolName)))
  {
    var r := c.FetchAgents(GetPools(poolName));
    if r.status == REJECTED_TOKEN { return False; }
    if r.status == UNAUTHORIZED { return False; }
    if r.status == NOT_FOUND { return False; }
    if r.status != OK { return Int(0); }
    if r.count == 0 { return Int(0); }
    for i := 0 to |r.value|
      invariant i == 0
    {
      return Int(r.value[i].id);
    }
    return Int(0);
  }

  /** `_delete_agent_pool_id`: one DELETE with the id as the `poolId` parameter. */
  method DeleteAgentPoolId(c: Connection, poolId: int) returns (ok: bool)
    modifies c
    ensures c.log == old(c.log) + [DeletePool(poolId)]
    ensures ok == DeleteSucceeded(c.server.status(old(c.log), DeletePool(poolId)))
  {
    var status := c.Send(DeletePool(poolId));
    if status == REJECTED_TOKEN { return false; }
    if status == UNAUTHORIZED { return false; }
    if status != NO_CONTENT { return false; }
    return true;
  }

  /** The requests `delete_agent_pool_name` issues after the requests `h`. */
  function PoolCalls(server: Server, h: seq<Call>, poolName: string): seq<Call> {
    var id := LookupAgentId(server.agents(h, GetPools(poolName)));
    [GetPools(poolName)] + (if id.Truthy() then [DeletePool(id.n)] else [])
  }

  /** A round deletes a pool exactly when the lookup named one with a nonzero
      id, and then the pool with that id: an id of 0 is never deleted. */
  lemma PoolCallsDeleteOnlyFound(server: Server, h: seq<Call>, poolName: string, poolId: int)
    ensures DeletePool(poolId) in PoolCalls(server, h, poolName)
        <==> var r := server.agents(h, GetPools(poolName));
             NamesAgent(r) && r.value[0].id == poolId && poolId != 0
  {
  }

  /** `delete_agent_pool_name`: look the pool up, delete it only when its id is truthy. */
  method DeleteAgentPoolName(c: Connection, poolName: string)
    modifies c
    ensures c.log == old(c.log) + PoolCalls(c.server, old(c.log), poolName)
  {
    var poolId := GetAgentPoolId(c, poolName);
    if poolId.Truthy() {
      var _ := DeleteAgentPoolId(c, poolId.n);
    }
  }

  /** The request log after one round per name, in order, starting from `h`. */
  function AfterPools(server: Server, h: seq<Call>, names: seq<string>): seq<Call>
    decreases |names|
  {
    if names == [] then h
    else
      var earlier := AfterPools(server, h, names[..|names| - 1]);
      earlier + PoolCalls(server, earlier, names[|names| - 1])
  }

  /** The pool names looked up in a list of requests, in order. */
  function PoolsLookedUp(calls: seq<Call>): seq<string> {
    if calls == [] then []
    else
      var last := calls[|calls| - 1];
      PoolsLookedUp(calls[..|calls| - 1]) + (if last.GetPools? then [last.poolName] else [])
  }

  lemma {:induction false} PoolsLookedUpAppend(a: seq<Call>, b: seq<Call>)
    ensures PoolsLookedUp(a + b) == PoolsLookedUp(a) + PoolsLookedUp(b)
    decreases |b|
  {
    if b != [] {
      var init := b[..|b| - 1];
      assert (a + b)[..|a + b| - 1] == a + init;
      PoolsLookedUpAppend(a, init);
    } else {
      assert a + b == a;
    }
  }

  /** A round looks up exactly its own name. */
  lemma PoolCallsLookUpName(server: Server, h: seq<Call>, poolName: string)
    ensures PoolsLookedUp(PoolCalls(server, h, poolName)) == [poolName]
  {
    var calls := PoolCalls(server, h, poolName);
    assert calls[..1] == [GetPools(poolName)];
    assert PoolsLookedUp(calls[..1]) == [poolName] by {
      assert calls[..1][..0] == [];
    }
    if |calls| == 2 {
      assert calls[..|calls| - 1] == calls[..1];
    }
  }

  /** The run keeps the earlier log as a prefix and looks up exactly the
      given names, in the given order. */
  lemma {:induction false} AfterPoolsLooksUpNames(server: Server, h: seq<Call>, names: seq<string>)
    ensures var log := AfterPools(server, h, names);
            h <= log && PoolsLookedUp(log) == PoolsLookedUp(h) + names
    decreases |names|
  {
    if names != [] {
      var init := names[..|names| - 1];
      var earlier := AfterPools(server, h, init);
      AfterPoolsLooksUpNames(server, h, init);
      PoolCallsLookUpName(server, earlier, names[|names| - 1]);
      PoolsLookedUpAppend(earlier, PoolCalls(server, earlier, names[|names| - 1]));
      assert init + [names[|names| - 1]] == names;
    }
  }

  /** One turn of the loop: the run over `names + [n]` adds the round of `n`. */
  lemma AfterPoolsSnoc(server: Server, h: seq<Call>, names: seq<string>, n: string)
    ensures AfterPools(server, h, names + [n])
         == AfterPools(server, h, names) + PoolCalls(server, AfterPools(server, h, names), n)
  {
    assert (names + [n])[..|names|] == names;
  }

  /** The entry point: require both settings, then one round per DISTINCT
      name, in the unspecified iteration order of a `set`. The ghost `order`
      is that order: every name once, no name twice. */
  method Run(c: Connection, token: Option<string>, org: Option<string>, poolNames: seq<string>)
    returns (exit: int, ghost order: seq<string>)
    modifies c
    ensures RequireTokenAndOrg(token, org).Exit? ==> exit == MISSING_SETTING_EXIT && c.log == old(c.log)
    ensures RequireTokenAndOrg(token, org).Start? ==>
              && exit == 0
              && NoDuplicates(order)
              && (forall n :: n in order <==> n in poolNames)
              && c.log == AfterPools(c.server, old(c.log), order)
  {
    order := [];
    var startup := RequireTokenAndOrg(token, org);
    if startup.Exit? {
      return startup.code, order;
    }
    ghost var h := c.log;
    var remaining := set n | n in poolNames;
    while remaining != {}
      invariant NoDuplicates(order)
      invariant forall n :: n in order ==> n in poolNames && n !in remaining
      invariant forall n :: n in poolNames ==> n in order || n in remaining
      invariant forall n :: n in remaining ==> n in poolNames
      invariant c.log == AfterPools(c.server, h, order)
      decreases remaining
    {
      var name :| name in remaining;
      AfterPoolsSnoc(c.server, h, order, name);
      DeleteAgentPoolName(c, name);
      order := order + [name];
      remaining := remaining - {name};
    }
    return 0, order;
  }
}
