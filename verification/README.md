# azure_devops_tools — a verified model of the Azure DevOps scripts

The repository has six command-line scripts. Each one works against the Azure DevOps REST API:

- `ado_update_agent_queue_permission.py` grants a role on a project's agent-queue scope to every user who already holds one there. Users whose display name contains an "ignore" string are skipped.
- `ado_update_agent_pool_project_permission.py` does the same with no exclusion. A PUT answered 203 raises and ends the run; a 203 on the project or user fetch only yields an empty list.
- `ado_remove_agent_queue.py` deletes agent queues of a project by name. It first drops repeated names, keeping first-seen order.
- `ado_get_all_projects.py` prints the organisation's project names, one per line.
- `ado_remove_agent_pool.py` deletes agent pools by name, once per distinct name, in `set` order.
- `remove_ado_agent_pool.py` deletes agent pools by name for every name as given. A lookup or delete answered 203 raises and ends the run. A missing organisation falls back to `My-Org`.

## How the model is built

- **Transport.** `Http.Connection` is a class whose one mutable field is `log`, the sequence of requests sent so far. Each request is a `Domain.Call` naming its target.
- **Replies.** The service is a `Server` value, a record of reply functions. Each reply function receives the request log at the moment of the request, so a reply may depend on earlier requests (a pool deleted earlier is not found again). A GET reply is a parsed `Response(status, count, value)`. A PUT or DELETE reply is a status code.
- **Helpers that call the service** are methods. Each states the request it appends to `log` and its result as a function of the reply.
- **Workflows** are methods too. Each ensures that the new log equals a pure function of the server and the old log: `PermissionCalls`, `PermissionTrace`, `QueueCalls`, `AfterQueues`, `PoolCalls`, `AfterPools`, `PoolTrace`. Lemmas prove the script's promises about those functions: one round per name, a delete exactly for a nonzero id the lookup named (in the resolved project, for queues) and never id 0, exactly the names as given or a prefix when a rejected token raises.
- **Python's results.** A falsy `False`/`0` result is `Domain.IdResult`, whose `Truthy()` is Python truthiness. `BadCredentialException` is the `Raised` case of `Domain.Raising`.
- **Script exit.** An uncaught exception ends the script with exit code 1, and the `Run` methods say so.
- **Code shared across scripts.** Functions several scripts copy with the same behaviour are modelled once, in `Common`, `Status` and `Text`. The table cites one copy:
  - `_get_project_id`, `_get_all_projects`, `_get_all_users`, `_get_all_user_ids` and the non-raising `_put_permission` are alike across the files that define them. The one difference is `ado_get_all_projects.py:88-113`, whose `_get_all_users` lacks the 401 branch; `GetAllProjectsScript.GetAllUsers` shows it returns the same.
  - `_get_agent_queue_id` (`ado_remove_agent_queue.py:102-149`) and `_get_agent_pool_id` (`ado_remove_agent_pool.py:43-90`) map statuses the same way (`Status.LookupAgentId`).
  - The two `_delete_*_id` functions of those files also map statuses the same way (`Status.DeleteSucceeded`).
- **String functions.** `str.lower()` and `str.capitalize()` are ASCII-only. `str.strip()` uses every code point Python's `str.isspace()` accepts. `in` between strings is a substring test.

## Model

| member | source | states |
|---|---|---|
| Text.Lower | ado_update_agent_queue_permission.py:72 | `lower()` keeps the length, leaves no ASCII capital, and changes a character only by shifting an ASCII capital to its lower-case letter |
| Text.LowerIdempotent | ado_update_agent_queue_permission.py:72 | lowering an already lower-cased string changes nothing |
| Text.Capitalize | ado_update_agent_queue_permission.py:272 | `capitalize()` keeps the length and the lower-cased text, leaves no lower-case first letter and no upper-case later letter |
| Text.CapitalizeIdempotent | ado_update_agent_pool_project_permission.py:241 | capitalising twice is capitalising once |
| Text.IsSubstring | ado_update_agent_queue_permission.py:72 | the `in` test holds iff the needle occurs at some start position of the haystack |
| Text.EmptyIsSubstring | ado_update_agent_queue_permission.py:72 | the empty string is contained in every string |
| Text.TrimEnd | ado_get_all_projects.py:85 | right strip returns a prefix, cuts only whitespace, and leaves no trailing whitespace |
| Text.TrimStart | ado_get_all_projects.py:85 | left strip returns a suffix, cuts only whitespace, and leaves no leading whitespace |
| Text.Strip | ado_remove_agent_queue.py:230 | `strip()` returns a slice with only whitespace cut from both ends, neither beginning nor ending with whitespace |
| Text.StripDropsTrailingSpace | ado_get_all_projects.py:83-85 | one trailing whitespace character never survives `strip()` |
| Text.StripUntrimmed | ado_get_all_projects.py:85 | a string without whitespace at either end is its own `strip()` |
| Text.JoinEnds | ado_get_all_projects.py:82-85 | a join of non-empty parts starts with the first part's first character and ends with the last part's last character |
| Status.ListOnSuccess | ado_update_agent_queue_permission.py:94-111 | a list fetch gives `value` exactly on 200, and `[]` on 203, 401 and every other status |
| Status.PutSucceeded | ado_update_agent_queue_permission.py:193-205 | the logging PUT returns true iff the status is 200 |
| Status.PutOrRaise | ado_update_agent_pool_project_permission.py:170-181 | the raising PUT raises iff the status is 203, returns true iff 200, false otherwise |
| Status.DeleteSucceeded | ado_remove_agent_queue.py:164-180 | the logging DELETE returns true iff the status is 204 (a 200 is a failure) |
| Status.DeleteOrRaise | remove_ado_agent_pool.py:98-108 | the raising DELETE raises iff the status is 203, returns true iff 204 |
| Status.LookupAgentId | ado_remove_agent_queue.py:116-148 | `False` iff the status is 203, 401 or 404; otherwise the first element's id when a 200 reply has nonzero `count` and an element; the result is truthy iff such a nonzero id exists |
| Status.LookupAgentIdOrRaise | remove_ado_agent_pool.py:62-83 | raises iff 203; `False` iff any other non-200 status; otherwise as above; truthy iff a nonzero first id exists |
| Lists.RemoveDuplicates | ado_remove_agent_queue.py:218-220 | the result has no repeated element and contains exactly the input's elements |
| Lists.RemoveDuplicatesKeepsFirstSeenOrder | ado_remove_agent_queue.py:218-220 | elements come out in the order of their first occurrence in the input |
| Lists.RemoveDuplicatesOfDistinct | ado_remove_agent_queue.py:218-220 | a list without repeats is returned unchanged |
| Common.ProjectId | ado_update_agent_queue_permission.py:114-123 | the id of the first project whose name equals the target ignoring case, `""` when none does |
| Common.GetProjectId | ado_update_agent_queue_permission.py:114-124 | the early-return search loop returns exactly `ProjectId` |
| Common.GetAllProjects | ado_update_agent_queue_permission.py:81-112 | one project GET is appended to the log; the result is `value` on 200 and `[]` otherwise |
| Common.GetAllUsers | ado_update_agent_pool_project_permission.py:107-137 | one role-assignment GET for the project id is appended; `value` on 200, `[]` otherwise |
| Common.GetAllUserIds | ado_update_agent_queue_permission.py:160-169 | same length as the users, the i-th id is the i-th user's `identity.id` |
| Common.PutPermission | ado_update_agent_queue_permission.py:171-206 | one PUT whose body is the single record (user id, role) is appended; true iff its status is 200 |
| Config.RequireTokenAndOrg | ado_update_agent_queue_permission.py:284-293 | the run starts iff both token and organisation are set and non-empty; otherwise exit code 1 |
| Config.RequireTokenDefaultOrg | remove_ado_agent_pool.py:165-172 | the run starts iff the token is set and non-empty; the organisation is the given one, or `My-Org` when unset or empty |
| UpdateQueuePermission.KeepUsersMembers | ado_update_agent_queue_permission.py:69-78 | a user is kept iff it is in the input and its lower-cased display name does not contain the lower-cased ignore string |
| UpdateQueuePermission.KeepUsersWithEmptyIgnore | ado_update_agent_queue_permission.py:64-78 | without the early return, an empty ignore string would drop every user (every string contains `""`) |
| UpdateQueuePermission.KeepUsersLowerIgnore | ado_update_agent_queue_permission.py:72 | the filter depends only on the lower-cased ignore string |
| UpdateQueuePermission.RemoveExceptUser | ado_update_agent_queue_permission.py:63-79 | an empty ignore string returns the list unchanged; otherwise exactly the kept users, in original order |
| UpdateQueuePermission.PutEach | ado_update_agent_queue_permission.py:57-59 | the loop appends exactly one single-record PUT per id, in order, whatever each returns |
| UpdateQueuePermission.SetPermission | ado_update_agent_queue_permission.py:42-61 | false with only the project fetch when the project is unresolved; otherwise the role-assignment fetch and one PUT per kept user, in order, then true whatever the PUTs returned |
| UpdateQueuePermission.Normalise | ado_update_agent_queue_permission.py:270-273 | the project is stripped, the role capitalised, the ignore string lower-cased, each agreeing with the input up to case |
| UpdateQueuePermission.PermissionCallsLowerIgnore | ado_update_agent_queue_permission.py:273 | lower-casing the ignore string first does not change the requests `set_permission` issues |
| UpdateQueuePermission.Run | ado_update_agent_queue_permission.py:265-304 | missing settings: exit 1 with no request; otherwise exit 0 after exactly the requests of `set_permission` on the cleaned arguments |
| UpdatePoolProjectPermission.PutPermission | ado_update_agent_pool_project_permission.py:150-182 | one single-record PUT is appended; the outcome is `PutOrRaise` of its status |
| UpdatePoolProjectPermission.PutRunWithoutRejection | ado_update_agent_pool_project_permission.py:58-60 | when no PUT is answered 203, the loop issues exactly one PUT per id, in order, and does not raise |
| UpdatePoolProjectPermission.PutRunIsPrefix | ado_update_agent_pool_project_permission.py:58-60 | whatever the replies, the PUTs are a prefix of one-per-id; when it raised, the last PUT was the one answered 203 |
| UpdatePoolProjectPermission.PutRunStopsAtFirstRejection | ado_update_agent_pool_project_permission.py:58-60 | a loop that did not raise issued exactly one PUT per id, in order; a loop that raised got no 203 before its last PUT, so it stopped at the first PUT answered 203 |
| UpdatePoolProjectPermission.PutEach | ado_update_agent_pool_project_permission.py:58-60 | the loop appends exactly the PUTs of `PutRun` and raises exactly when it does |
| UpdatePoolProjectPermission.SetPermission | ado_update_agent_pool_project_permission.py:45-62 | false with only the project fetch when unresolved; otherwise the user fetch and the PUT loop; true unless a PUT raised, which propagates |
| UpdatePoolProjectPermission.Run | ado_update_agent_pool_project_permission.py:234-271 | missing settings: exit 1 with no request; otherwise `set_permission` on the stripped project and capitalised role, exit 1 iff it raised |
| RemoveAgentQueue.GetAgentQueueId | ado_remove_agent_queue.py:102-149 | one queue GET, addressed by project NAME and queue name, is appended; the result is `LookupAgentId` of its reply |
| RemoveAgentQueue.DeleteAgentQueueId | ado_remove_agent_queue.py:151-181 | one DELETE of the queue id in the project id is appended; true iff 204 |
| RemoveAgentQueue.DeleteAgentQueueName | ado_remove_agent_queue.py:39-55 | false with no queue lookup when the project is unresolved; otherwise the lookup, a delete only for a truthy id, and true whatever the delete returned |
| RemoveAgentQueue.QueueCallsFetchProjectsOnce | ado_remove_agent_queue.py:40 | each round fetches the project list exactly once |
| RemoveAgentQueue.AfterQueuesRounds | ado_remove_agent_queue.py:257-259 | the run extends the earlier log and has one round per name |
| RemoveAgentQueue.QueueCallsLookUpName | ado_remove_agent_queue.py:39-48 | a round looks up its own queue name when the project resolved, and no queue when it did not |
| RemoveAgentQueue.ResolvedNames | ado_remove_agent_queue.py:257-259 | the names whose round found the project are drawn from the names given, at most one per round |
| RemoveAgentQueue.AfterQueuesLooksUpResolvedNames | ado_remove_agent_queue.py:257-259 | the run looks up exactly the queue names whose round found the project, in order |
| RemoveAgentQueue.ResolvedNamesAll | ado_remove_agent_queue.py:257-259 | when every project fetch finds the project, every name is looked up, in order |
| RemoveAgentQueue.QueueCallsDeleteOnlyFound | ado_remove_agent_queue.py:39-52 | a round deletes queue `id` in project `pid` iff `pid` is the resolved, non-empty project id and the lookup's 200 reply names `id` first and `id` is nonzero |
| RemoveAgentQueue.QueueCallsDeletesNonzero | ado_remove_agent_queue.py:51-52 | a round never deletes queue id 0 |
| RemoveAgentQueue.AfterQueuesDeletesNonzero | ado_remove_agent_queue.py:257-259 | no round of the whole run deletes queue id 0 |
| RemoveAgentQueue.DeleteEach | ado_remove_agent_queue.py:257-259 | the main loop's log is exactly one round per name, in order |
| RemoveAgentQueue.Run | ado_remove_agent_queue.py:225-260 | missing settings: exit 1 with no request; otherwise one round per deduplicated name, in first-seen order, for the stripped project |
| GetAllProjectsScript.LinesIsJoin | ado_get_all_projects.py:81-84 | the accumulated text is the newline-join of the names plus one trailing newline |
| GetAllProjectsScript.GetProjectNames | ado_get_all_projects.py:80-86 | the result is the stripped newline-join of the names; `""` for no projects; never begins or ends with whitespace |
| GetAllProjectsScript.ProjectNamesOfTrimmedNames | ado_get_all_projects.py:80-85 | when every name is non-empty and unpadded, the listing is exactly the names joined by newlines |
| GetAllProjectsScript.GetAllProjects | ado_get_all_projects.py:44-48 | one project GET; the listing of the names it returned on 200, `""` otherwise |
| GetAllProjectsScript.GetAllUsers | ado_get_all_projects.py:88-113 | this copy has no 401 branch but still returns `value` only on 200 and `[]` otherwise |
| GetAllProjectsScript.Run | ado_get_all_projects.py:188-218 | missing settings: exit 1, no output, no request; otherwise one GET, and the output is the listing followed by the newline `print` adds |
| RemoveAgentPool.GetAgentPoolId | ado_remove_agent_pool.py:43-90 | one pool GET by name is appended; the result is `LookupAgentId` of its reply |
| RemoveAgentPool.DeleteAgentPoolId | ado_remove_agent_pool.py:92-121 | one DELETE with the id as `poolId` is appended; true iff 204 |
| RemoveAgentPool.PoolCallsDeleteOnlyFound | ado_remove_agent_pool.py:124-129 | a round deletes pool `id` iff the lookup's 200 reply names it first and `id` is nonzero; id 0 is never deleted |
| RemoveAgentPool.DeleteAgentPoolName | ado_remove_agent_pool.py:124-129 | the log grows by the lookup and, for a truthy id, its delete |
| RemoveAgentPool.PoolCallsLookUpName | ado_remove_agent_pool.py:125 | each round looks up exactly its own name |
| RemoveAgentPool.AfterPoolsLooksUpNames | ado_remove_agent_pool.py:190-192 | the run extends the earlier log and looks up exactly the given names, in the given order |
| RemoveAgentPool.Run | ado_remove_agent_pool.py:160-193 | missing settings: exit 1 with no request; otherwise one round per distinct name, each once, in some order |
| RemoveAdoAgentPool.GetAgentPoolId | remove_ado_agent_pool.py:48-84 | one pool GET is appended; the outcome is `LookupAgentIdOrRaise` of its reply |
| RemoveAdoAgentPool.DeleteAgentPoolId | remove_ado_agent_pool.py:86-109 | one DELETE by `poolId` is appended; the outcome is `DeleteOrRaise` of its status |
| RemoveAdoAgentPool.PoolTraceRaisesOnRejection | remove_ado_agent_pool.py:112-117 | a round raises iff the lookup or its delete was answered 203; it deletes iff the lookup named a nonzero id, and then that id |
| RemoveAdoAgentPool.DeleteAgentPoolName | remove_ado_agent_pool.py:112-117 | the log grows by the round's requests, and it raises exactly when the round does |
| RemoveAdoAgentPool.PoolTraceLooksUpName | remove_ado_agent_pool.py:113 | each round looks up exactly its own name |
| RemoveAdoAgentPool.AfterPoolsLooksUpAllNames | remove_ado_agent_pool.py:175-177 | with no dedup, a run that does not raise looks up every name as given, duplicates included, in order |
| RemoveAdoAgentPool.AfterPoolsStopsAtRaise | remove_ado_agent_pool.py:175-177 | a run that raises has looked up a non-empty prefix of the names |
| RemoveAdoAgentPool.AfterPoolsEndsAtRaisingRound | remove_ado_agent_pool.py:175-177 | a run that raises ends with the first round that raised: no earlier round raised, and the log is the earlier rounds followed by that round |
| RemoveAdoAgentPool.DeleteEach | remove_ado_agent_pool.py:175-177 | the main loop's log and raise are exactly those of `AfterPools` |
| RemoveAdoAgentPool.Run | remove_ado_agent_pool.py:146-178 | no token: exit 1 with no request; otherwise every name in turn, exit 1 iff a round raised |

## Left out

- **HTTP.** URLs, query parameters other than the ones that select a target, headers, basic authentication, the TLS flag and `disable_warnings` are not modelled. A request is a `Call` value, a reply is a parsed record, and the organisation does not appear in requests.
- **JSON and HTTP failures.** JSON encoding and decoding are not modelled. A body without `count` or `value`, an `id` that `int()` cannot parse, and network exceptions are out of scope.
- **Logging and argument parsing.** Log messages, logger set-up and verbosity are left out. So is `argparse`: arguments arrive as values.
- **The global `str_pool_name`.** It is passed to `_delete_agent_queue_id` at ado_remove_agent_queue.py:52 and reaches only log text, so it is not modelled.
- **Environment.** `os.getenv` becomes `Option<string>` parameters, and `sys.exit` becomes the exit code `Run` returns.
- **Case mapping.** `Text.Lower` and `Text.Capitalize` map ASCII letters only. Python's full Unicode case mapping is not modelled.
- **`set()` iteration order.** It is a nondeterministic choice. `RemoveAgentPool.Run` returns the order it used as a ghost value and states only that each distinct name occurs exactly once.
- **Concurrency and timing.** Replies depend only on the requests sent before them. Concurrent changes to the organisation by other clients are not modelled.
