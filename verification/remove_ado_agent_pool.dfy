/** `remove_ado_agent_pool.py`: for every pool name as given, duplicates
    included, look the pool up and delete it when its id is truthy; a rejected
    token raises and ends the whole run. */
module RemoveAdoAgentPool {
  import opened Domain
  import opened Status
  import opened Http
  import opened Config
  import RemoveAgentPool

  /** `_get_agent_pool_id`: raises on 203, `False` on any other failure. */
  method GetAgentPoolId(c: Connection, poolName: string) returns (r: Raising<IdResult>)
    modifies c
    ensures c.log == old(c.log) + [GetPools(poolName)]
    ensures r == LookupAgentIdOrRaise(c.server.agents(old(c.log), GetPools(poolName)))
  {
    var res := c.FetchAgents(GetPools(poolName));
    if res.status == REJECTED_TOKEN { return Raised; }
    if res.status != OK { return Returned(False); }
    if res.count == 0 { return Returned(Int(0)); }
    for i := 0 to |res.value|
      invariant i == 0
    {
      return Returned(Int(res.value[i].id));
    }
    return Returned(Int(0));
  }

  /** `_delete_agent_pool_id`: raises on 203, true exactly on 204. */
  method DeleteAgentPoolId(c: Connection, poolId: int) returns (r: Raising<bool>)
    modifies c
    ensures c.log == old(c.log) + [DeletePool(poolId)]
    ensures r == DeleteOrRaise(c.server.status(old(c.log), DeletePool(poolId)))
  {
    var status := c.Send(DeletePool(poolId));
    if status == REJECTED_TOKEN { return Raised; }
    if status != NO_CONTENT { return Returned(false); }
    return Returned(true);
  }

  /** The requests `delete_agent_pool_name` issues after the requests `h`, and
      whether the lookup or the delete raised. */
  function PoolTrace(server: Server, h: seq<Call>, poolName: string): Trace {
    var lookup := LookupAgentIdOrRaise(server.agents(h, GetPools(poolName)));
    if lookup.Raised? then Trace([GetPools(poolName)], true)
    else if lookup.value.Truthy() then
      var delete := DeletePool(lookup.value.n);
      Trace([GetPools(poolName), delete], DeleteOrRaise(server.status(h + [GetPools(poolName)], delete)).Raised?)
    else Trace([GetPools(poolName)], false)
  }

  /** A round raises exactly when the lookup, or the delete it issued, was
      answered 203; it deletes only a pool the lookup named, never id 0. */
  lemma PoolTraceRaisesOnRejection(server: Server, h: seq<Call>, poolName: string)
    ensures var t := PoolTrace(server, h, poolName);
            var r := server.agents(h, GetPools(poolName));
            && (t.raised <==>
                  r.status == REJECTED_TOKEN
                  || (|t.calls| == 2 && server.status(h + [GetPools(poolName)], t.calls[1]) == REJECTED_TOKEN))
            && (|t.calls| == 2 <==> NamesAgent(r) && r.value[0].id != 0)
            && (|t.calls| == 2 ==> t.calls[1] == DeletePool(r.value[0].id))
  {
  }

  /** `delete_agent_pool_name`, which lets the exception of either call propagate. */
  method DeleteAgentPoolName(c: Connection, poolName: string) returns (raised: bool)
    modifies c
    ensures var t := PoolTrace(c.server, old(c.log), poolName);
            c.log == old(c.log) + t.calls && raised == t.raised
  {
    var poolId := GetAgentPoolId(c, poolName);
    if poolId.Raised? {
      return true;
    }
    if poolId.value.Truthy() {
      var deleted := DeleteAgentPoolId(c, poolId.value.n);
      if deleted.Raised? {
        return true;
      }
    }
    return false;
  }

  /** The loop over the names as given, starting from the log `h`: one round
      per name, in order, until a round raises. The result's `calls` is the
      whole request log at the end of the run. */
  function AfterPools(server: Server, h: seq<Call>, names: seq<string>): Trace
    decreases |names|
  {
    if names == [] then Trace(h, false)
    else
      var t := PoolTrace(server, h, names[0]);
      if t.raised then Trace(h + t.calls, true)
      else AfterPools(server, h + t.calls, names[1..])
  }

  /** A round looks up exactly its own name. */
  lemma PoolTraceLooksUpName(server: Server, h: seq<Call>, poolName: string)
    ensures RemoveAgentPool.PoolsLookedUp(PoolTrace(server, h, poolName).calls) == [poolName]
  {
    var calls := PoolTrace(server, h, poolName).calls;
    assert RemoveAgentPool.PoolsLookedUp(calls[..1]) == [poolName] by {
      assert calls[..1][..0] == [];
    }
    if |calls| == 2 {
      assert calls[..|calls| - 1] == calls[..1];
    }
  }

  /** Without dedup, a run that does not raise looks up every name as given,
      duplicates included, in order. */
  lemma {:induction false} AfterPoolsLooksUpAllNames(server: Server, h: seq<Call>, names: seq<string>)
    ensures var e := AfterPools(server, h, names);
            !e.raised ==> RemoveAgentPool.PoolsLookedUp(e.calls) == RemoveAgentPool.PoolsLookedUp(h) + names
    decreases |names|
  {
    if names != [] {
      var t := PoolTrace(server, h, names[0]);
      if !t.raised {
        PoolTraceLooksUpName(server, h, names[0]);
        RemoveAgentPool.PoolsLookedUpAppend(h, t.calls);
        AfterPoolsLooksUpAllNames(server, h + t.calls, names[1..]);
        assert [names[0]] + names[1..] == names;
      }
    }
  }

  /** A run that raises has looked up a non-empty prefix of the names. */
  lemma {:induction false} AfterPoolsStopsAtRaise(server: Server, h: seq<Call>, names: seq<string>)
    ensures var e := AfterPools(server, h, names);
            e.raised ==>
              exists k :: 0 < k <= |names|
                && RemoveAgentPool.PoolsLookedUp(e.calls) == RemoveAgentPool.PoolsLookedUp(h) + names[..k]
    decreases |names|
  {
    if names != [] {
      var t := PoolTrace(server, h, names[0]);
      var before := RemoveAgentPool.PoolsLookedUp(h);
      assert RemoveAgentPool.PoolsLookedUp(h + t.calls) == before + [names[0]] by {
        PoolTraceLooksUpName(server, h, names[0]);
        RemoveAgentPool.PoolsLookedUpAppend(h, t.calls);
      }
      if t.raised {
        assert AfterPools(server, h, names) == Trace(h + t.calls, true);
        assert names[..1] == [names[0]];
      } else {
        var e := AfterPools(server, h + t.calls, names[1..]);
        assert AfterPools(server, h, names) == e;
        if e.raised {
          AfterPoolsStopsAtRaise(server, h + t.calls, names[1..]);
          var k :| 0 < k <= |names[1..]|
            && RemoveAgentPool.PoolsLookedUp(e.calls) == before + [names[0]] + names[1..][..k];
          PrefixAfterFirst(before, names, k);
        }
      }
    }
  }

  /** Round `k` of the run over `names` is the first one to raise. */
  predicate RaisesAt(server: Server, h: seq<Call>, names: seq<string>, k: int) {
    && 0 <= k < |names|
    && var before := AfterPools(server, h, names[..k]);
       !before.raised && PoolTrace(server, before.calls, names[k]).raised
  }

  /** A run that raises ends with the round that raised: no round before it
      raised, and the log is the rounds before it followed by that round. */
  lemma {:induction false} AfterPoolsEndsAtRaisingRound(server: Server, h: seq<Call>, names: seq<string>)
    ensures var e := AfterPools(server, h, names);
            e.raised ==>
              exists k :: RaisesAt(server, h, names, k)
                && var before := AfterPools(server, h, names[..k]);
                   e.calls == before.calls + PoolTrace(server, before.calls, names[k]).calls
    decreases |names|
  {
    if names != [] {
      var t := PoolTrace(server, h, names[0]);
      if t.raised {
        assert names[..0] == [];
        assert RaisesAt(server, h, names, 0);
      } else {
        var rest := names[1..];
        var e := AfterPools(server, h + t.calls, rest);
        if e.raised {
          AfterPoolsEndsAtRaisingRound(server, h + t.calls, rest);
          var k :| RaisesAt(server, h + t.calls, rest, k)
            && var before := AfterPools(server, h + t.calls, rest[..k]);
               e.calls == before.calls + PoolTrace(server, before.calls, rest[k]).calls;
          assert AfterPools(server, h, names[..k + 1]) == AfterPools(server, h + t.calls, rest[..k]) by {
            assert names[..k + 1][0] == names[0] && names[..k + 1][1..] == rest[..k];
          }
          assert names[k + 1] == rest[k];
          assert RaisesAt(server, h, names, k + 1);
        }
      }
    }
  }

  lemma PrefixAfterFirst(before: seq<string>, names: seq<string>, k: nat)
    requires 0 < k < |names|
    ensures before + [names[0]] + names[1..][..k] == before + names[..k + 1]
  {
    assert [names[0]] + names[1..][..k] == names[..k + 1];
  }

  /** One turn of the loop: the rest of the run starts with the round of `names[i]`. */
  lemma AfterPoolsStep(server: Server, h: seq<Call>, names: seq<string>, i: nat)
    requires i < |names|
    ensures var t := PoolTrace(server, h, names[i]);
            AfterPools(server, h, names[i..])
            == if t.raised then Trace(h + t.calls, true) else AfterPools(server, h + t.calls, names[i + 1..])
  {
    assert names[i..][0] == names[i] && names[i..][1..] == names[i + 1..];
  }

  /** The loop `for str_pool_name in list_pool_names`; an exception leaves it. */
  method DeleteEach(c: Connection, poolNames: seq<string>) returns (raised: bool)
    modifies c
    ensures var e := AfterPools(c.server, old(c.log), poolNames);
            c.log == e.calls && raised == e.raised
  {
    ghost var final := AfterPools(c.server, c.log, poolNames);
    assert poolNames[0..] == poolNames;
    for i := 0 to |poolNames|
      invariant AfterPools(c.server, c.log, poolNames[i..]) == final
    {
      AfterPoolsStep(c.server, c.log, poolNames, i);
      raised := DeleteAgentPoolName(c, poolNames[i]);
      if raised {
        return;
      }
    }
    assert poolNames[|poolNames|..] == [];
    return false;
  }

  /** The entry point: only the token is required (a missing org falls back to
      the default), then every name is processed as given; an uncaught
      exception ends the process with exit code 1. */
  method Run(c: Connection, token: Option<string>, org: Option<string>, poolNames: seq<string>)
    returns (exit: int)
    modifies c
    ensures RequireTokenDefaultOrg(token, org).Exit? ==> exit == MISSING_SETTING_EXIT && c.log == old(c.log)
    ensures RequireTokenDefaultOrg(token, org).Start? ==>
              var e := AfterPools(c.server, old(c.log), poolNames);
              c.log == e.calls && exit == (if e.raised then 1 else 0)
  {
    var startup := RequireTokenDefaultOrg(token, org);
    if startup.Exit? {
      return startup.code;
    }
    var raised := DeleteEach(c, poolNames);
    exit := if raised then 1 else 0;
  }
}
