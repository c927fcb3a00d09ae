# overlay-mcp: a verified model of the session protocol

overlay-mcp is a reverse proxy for MCP servers. A client holds one SSE connection and posts messages; the proxy keeps a
session that relays them to an upstream server. In a cluster the session has one object per node: the objects elect an
owner through a key-value record guarded by a lock, and relay loops pass messages between nodes over an event bus.

This project models that protocol and the self-contained algorithms around it in Dafny, and proves what they keep.

| file | what it models |
|---|---|
| `raft_cluster.dfy` | every task of the cluster's control plane, one atomic step at a time, and its invariant |
| `raft_register.dfy` | the record's owner field: no stolen claims, refinement of an atomic register |
| `raft_session.dfy` | the calls `start`, `stop`, `close`, `create`, `find` as methods over objects |
| `raft_find.dfy` | `find` as an atomic get-or-create on one node's session map |
| `raft_entries.dfy` | map entries against records and delete events |
| `raft_stranded.dfy` | map entries left behind without record or event |
| `raft_exhibits.dfy` | concrete runs in which a naive property fails |
| `raft_history.dfy` | every part of a control-plane state as what the steps so far say |
| `routing.dfy` | the cluster's data plane: relays, transports, the event bus |
| `routing_history.dfy` | the same for the data plane, and what a new relay can hear |
| `raft_relay.dfy` | the two relay loops as loops, and each turn of them as a step of the data plane |
| `routing_roles.dfy` | which assignments of relay roles deliver at most once |
| `raft_roles.dfy` | election and relaying together |
| `raft_scripts.dfy` | schedules of both planes, from which concrete runs are put together |
| `raft_written_roles.dfy` | the role choice as written, over both planes |
| `raft_handover.dfy` | both role choices when an owner stops |
| `cancellation.dfy` | the tree of cancellation tokens |
| `session_connection.dfy` | `take`, `restore` and stop tokens of one session object under all interleavings |
| `session_history.dfy` | that machine read backwards: tokens, `is_started`, calls |
| `guards.dfy` | endpoints lent through guards and returned on drop |
| `broadcast.dfy` | the bounded broadcast channel as a ring with receiver positions |
| `standalone_relay.dfy` | the standalone relay loop over all stop/start cycles |
| `standalone_history.dfy` | what the calls and scripts of a standalone session say was accepted and delivered |
| `sse_stream.dfy` | the event stream of successive SSE connections |
| `standalone_manager.dfy` | the standalone session map against its cleanup tasks |
| `manager_history.dfy` | that map read backwards |
| `form_urlencoded.dfy`, `form_text.dfy` | the form serializer and parser, and the codec on all texts |
| `endpoint_url.dfy` | the endpoint URL and its two parsers |
| `round_robin.dfy` | upstream resolution with a wrapping counter and reload |
| `json_value.dfy`, `clean_json.dfy` | removal of null and empty-object members |
| `static_authz.dfy` | first-match authorization |
| `authz_meaning.dfy` | what its answers mean rule by rule, and where JSON Pointers lead |
| `request_builder.dfy` | upstream request headers and query |
| `prelude.dfy` | definitions used by several modules |

hiqlite is taken as an atomic key-value store, a mutual-exclusion lock per key and an event bus that hands each event to
each node at most once; tokio's broadcast channel as a ring of sixteen messages in which a lagging receiver jumps to the
oldest message kept; a cancellation token as a node of a tree; a regular expression as the set of names it matches.
Anything that depends on time, the network or a foreign call is an unconstrained choice: a step label, a script of
happenings or a `Faults` parameter. A call can be cut short at any step (`Abort`).

## What the code does that its texts do not say

The model follows the code. These points are proved, with the exact condition where one exists:

- `crates/overlay-mcp-raft/src/session.rs:220-233` starts a sub relay in the owner and a main relay everywhere else,
  the opposite of the comments in `crates/overlay-mcp-raft/src/raft_schema.rs:16-25`. While no owner stops, the
  documented choice forwards a client message at most once (`RoutingRoles.IntendedRolesForwardOnce`,
  `RaftRoles.ElectedRelaysForwardOnce`), and the written one exactly as long as no two objects stand beside the owner
  (`RoutingRoles.WrittenRolesForwardOnceExactly`, `RaftWrittenRoles.WrittenForwardsOnceExactly`). When owners may stop,
  either choice forwards twice in some run, exactly if the session has two objects
  (`RaftHandover.EitherForwardsOnceExactly`). The register results do not depend on the choice.
- `stop` clears the claim before it cancels its relay (`session.rs:255-276`), so two objects can both act as the owner
  for a while (`RaftExhibits.OwnersOverlap`), but only after such a `stop` (`RaftRegister.OverlapNeedsAStop`), and
  exactly by a put that overtakes somebody else's `start` (`RaftRegister.OneActsExactly`); uniqueness holds for claims
  that were not given up (`RaftRegister.ClaimIsUnique`).
- `close` deletes the record without the lock (`session.rs:298-307`). With each call labelled by its own operation, a
  run refines the atomic register if and only if no put brings a deleted record back (`RaftRegister.RunRefines`). With
  any labels it does if and only if no `start` does so, since a `stop` that resurrects the record looks like a `create`
  (`RaftRegister.RunIsSomeRegisterRun`). `RaftExhibits.RecordComesBack` is a run that fails both.
- A delete event handled between a `find`'s read, or a `create`'s put, and its insert leaves an entry without a record,
  and so does a `close` cut off before its notify (`RaftExhibits.StaleEntry`, `RaftExhibits.StaleCreate`,
  `RaftExhibits.CloseCutOff`). The steps that do so are spelled out by `RaftStranded.EntriesAreAnnouncedExactly`.
- A `find` for an id whose `create` has not returned yet can publish an object that `create` then replaces
  (`RaftExhibits.FindsDisagree`). Two finds agree exactly when nothing replaced the entry between them
  (`RaftFind.FindsAgreeExactly`).
- A connect that fails after `take`, or whose caller goes away, loses the channel ends and leaves the object started
  (`SessionConnection.LostExactlyWhileConnecting`).
- Around a wrap of its counter, round robin favours a url by two calls whenever the number of urls does not divide the
  machine word, and is fair if it does (`RoundRobin.FairAcrossWrapExactly`).
- A standalone session inserted after its cleanup stays in the map (`StandaloneManager.LateEntryStays`).
- `docs/configuration.md:103-106` calls the JWT rules a conjunction; the loops take the first rule and value that
  decide (`StaticAuthz.AllowsExactly`, `StaticAuthz.ConjunctionExactly`, `StaticAuthz.EarlierRuleDecides`).
- An API key whose query name is `session_id` comes back as the session id (`EndpointUrl.ApiKeyComesBackExactly`).

## Model

| member | source | states |
|---|---|---|
| RaftCluster.InvStep | crates/overlay-mcp-raft/src/session.rs:164-307 | every step of create, find, start, stop, close, closing guards, the event listeners and shutdown keeps the invariant: records and objects carry the created url, a section's copy is current, a call in its section holds the lock |
| RaftCluster.InvAlways | crates/overlay-mcp-raft/src/session_manager.rs:85-189 | the invariant holds in every state of every run of any number of nodes, sessions and calls |
| RaftCluster.CacheAgreement | crates/overlay-mcp-raft/src/session_manager.rs:124-189 | whatever is interleaved, every record and every object of a session on any node carries the url given to `create`, also after the record was deleted and put back |
| RaftCluster.NothingUncreated | crates/overlay-mcp-raft/src/session_manager.rs:157-166 | an id that no `create` drew has no record, no object and no map entry anywhere |
| RaftCluster.ReplicaStays | crates/overlay-mcp-raft/src/session.rs:312-339 | over every run an object keeps its session, node and url, and a cancelled one stays cancelled |
| RaftRegister.NoClaimIsStolen | crates/overlay-mcp-raft/src/session.rs:200-267 | from the put of an owner until that owner's own `stop` clears it, no other owner is written, every record found carries it and every `start` decides on it, even across an unlocked delete |
| RaftRegister.ClaimIsUnique | crates/overlay-mcp-raft/src/session.rs:206-218 | two claims on one session that were not given up belong to one object |
| RaftRegister.DecisionsAgree | crates/overlay-mcp-raft/src/session.rs:200-220 | until the owner gives up, all `start`s of a session decide on the same owner |
| RaftRegister.OverlapNeedsAStop | crates/overlay-mcp-raft/src/session.rs:255-276 | two objects act on their ownership of one session at once only if a `stop` has cleared the claim of one of them |
| RaftRegister.OneActsStep | crates/overlay-mcp-raft/src/session.rs:206-233 | if at most one object acts as the owner of a session, a step leaves it so exactly unless it is the put of a `start` that names itself while a `start` of another object acts as the owner |
| RaftRegister.OneActsExactly | crates/overlay-mcp-raft/src/session.rs:206-276 | in every state of a run at most one object acts as the owner, if and only if the run has no such put |
| RaftRegister.StepRefines | crates/overlay-mcp-raft/src/session.rs:192-267 | with each call labelled by its own operation, a step is a step of the register "if empty become owner, return owner / if owner clear" exactly unless it puts back a deleted record |
| RaftRegister.RunRefines | crates/overlay-mcp-raft/src/session.rs:188-307 | with those labels, a whole run of any number of objects is a run of the atomic register if and only if no put resurrects the record |
| RaftRegister.StepIsSomeOperation | crates/overlay-mcp-raft/src/session.rs:206-265 | with any label allowed, a step is a step of the register exactly unless it is a `start` that puts back a deleted record; a resurrecting `stop` looks like a `create` |
| RaftRegister.RunIsSomeRegisterRun | crates/overlay-mcp-raft/src/session.rs:188-307 | whatever labels are chosen, a run is a run of the register if and only if no `start` puts back a deleted record |
| RaftRegister.ReplyIsCarried | crates/overlay-mcp-raft/src/session.rs:209-220 | in every run, the owner that a `start` holds after its put or release is the register's reply to the put of that same call, whatever happened in between |
| RaftRegister.ReleaseKeepsReply | crates/overlay-mcp-raft/src/session.rs:218-220 | after its put a `start` can release the lock at once and then holds that reply |
| RaftRegister.SectionsSeeTheRecord | crates/overlay-mcp-raft/src/session.rs:200-218 | while no delete falls inside a section, whoever is between get and put finds the record in place |
| RaftRegister.RefinesWithoutRacingClose | crates/overlay-mcp-raft/src/session.rs:298-302 | if no `close` deletes between somebody's get and put, every step of the run refines the register |
| RaftSession.Session.StartSection | crates/overlay-mcp-raft/src/session.rs:188-218 | the locked section of `start`: exactly when it succeeds and with which error it fails otherwise, what the records and the decided owner are, and that the lock is given back on every path |
| RaftSession.Session.Start | crates/overlay-mcp-raft/src/session.rs:188-234 | it succeeds exactly when its section does, and the role it goes on to is "sub" exactly when the record then names the caller |
| RaftSession.Session.StopSection | crates/overlay-mcp-raft/src/session.rs:236-267 | the locked section of `stop`: exactly when it succeeds and with which error it fails otherwise; a success clears the record of an owner and leaves every other record alone |
| RaftSession.Session.Close | crates/overlay-mcp-raft/src/session.rs:298-307 | with any fault: nothing is announced that was not deleted, a delete that is not announced is an error to the caller, success is both, and no other record and no lock is touched |
| RaftSession.Manager.Create | crates/overlay-mcp-raft/src/session_manager.rs:124-155 | the new record without an owner and the new object in the map, under the same id; after a failed put an error, and nothing in the map |
| RaftSession.Manager.Find | crates/overlay-mcp-raft/src/session_manager.rs:157-189 | an error after a failed get; nothing without a record; the known object if there is one; otherwise one new object with the record's url, put into the map |
| RaftSession.Manager.HandleDelete | crates/overlay-mcp-raft/src/session_manager.rs:93-99 | the entry is gone, its object is cancelled, every other object is as before |
| RaftSession.SectionsAreAtomic | crates/overlay-mcp-raft/src/session.rs:192-267 | a section on the records is one operation of the atomic register with the reply its caller acts on, and changes neither urls nor other records |
| RaftSession.StopUndoesStart | crates/overlay-mcp-raft/src/session.rs:206-267 | stopping right after starting restores the records exactly unless the caller owned the record before |
| RaftSession.StartIsItsSteps | crates/overlay-mcp-raft/src/session.rs:192-218 | the four small steps of `start`, uninterrupted, have the section's effect and carry its owner out |
| RaftSession.StopIsItsSteps | crates/overlay-mcp-raft/src/session.rs:241-267 | the small steps of `stop`, uninterrupted, have the section's effect, with a put only for the owner |
| RaftSession.CloseIsItsSteps | crates/overlay-mcp-raft/src/session.rs:298-307 | the small steps of `close`, uninterrupted, delete this record, put a delete event before every node, and leave locks and tasks as they were |
| RaftFind.FindIsGetOrCreate | crates/overlay-mcp-raft/src/session_manager.rs:167-188 | the last step of `find` is atomic: the entry for the id asked for, or one new object with the created url and no other change |
| RaftFind.FindsAgreeExactly | crates/overlay-mcp-raft/src/session_manager.rs:157-189 | two successful finds of one id on one node return one object if and only if no step in between dropped or replaced the entry |
| RaftFind.FindsAgree | crates/overlay-mcp-raft/src/session_manager.rs:157-189 | so between two such steps all successful finds return one object |
| RaftFind.PublishedOnce | crates/overlay-mcp-raft/src/session_manager.rs:148-152 | after the insert of `create` nobody is creating that session any more |
| RaftFind.FindsAgreeBetweenDeletes | crates/overlay-mcp-raft/src/session_manager.rs:93-99 | after the insert of `create`, only a handled delete event separates the answers of finds on a node |
| RaftExhibits.RecordComesBack | crates/overlay-mcp-raft/src/session.rs:298-302 | a run in which a put recreates the record that `close` deleted and the register is not refined |
| RaftEntries.CoveredStep | crates/overlay-mcp-raft/src/session_manager.rs:93-189 | a step leaves an entry, or a call about to insert one, without record and without announcement exactly if it handles the last delete event too early or cuts off the last close, as spelled out in the state before |
| RaftEntries.EntriesAreCoveredExactly | crates/overlay-mcp-raft/src/session_manager.rs:93-189 | in a run every entry without a record, and every call about to insert one, has its delete event pending or a `close` still to send it, in every state, if and only if no such step is taken |
| RaftStranded.AnnouncedStep | crates/overlay-mcp-raft/src/session_manager.rs:93-189 | for entries alone: a step leaves an entry without record and without announcement exactly if it inserts one whose record is gone and which nobody will announce, or cuts off the last `close` that would announce one |
| RaftStranded.EntriesAreAnnouncedExactly | crates/overlay-mcp-raft/src/session_manager.rs:93-189 | in a run every entry without a record has its delete event pending or a `close` still to send it, in every state, if and only if no step is such an insert or cut |
| RaftEntries.EntriesGoWithRecords | crates/overlay-mcp-raft/src/session_manager.rs:93-99 | in particular as long as no delete event is handled on a node where a find or create has still to insert, and no `close` is cut off before its notify |
| RaftExhibits.StaleEntry | crates/overlay-mcp-raft/src/session_manager.rs:158-186 | a run that breaks the first condition and ends quietly with an entry for a session without a record |
| RaftExhibits.StaleCreate | crates/overlay-mcp-raft/src/session_manager.rs:138-152 | another one: the delete is handled between the put and the insert of `create`, which then publishes an object without a record |
| RaftExhibits.CloseCutOff | crates/overlay-mcp-raft/src/session.rs:298-307 | a run that breaks the second one: `close` is cut off after its delete |
| RaftExhibits.FindsDisagree | crates/overlay-mcp-raft/src/session_manager.rs:138-152 | a run without deletes in which two finds of one id return different objects, because `create` had not published yet |
| RaftExhibits.OwnersOverlap | crates/overlay-mcp-raft/src/session.rs:255-276 | a run in which two uncancelled objects have both decided that they own the session |
| RaftHistory.CancelledExactly | crates/overlay-mcp-raft/src/session.rs:164-180 | in every state of a run an object is cancelled if and only if its closing guard was dropped, its node was shut down, before or after it was made, or a delete event was handled while the map led to it |
| RaftHistory.CallsBeginExactly | crates/overlay-mcp-raft/src/session.rs:188-239 | a `start` or `stop` of an object can begin if and only if none of that has happened; `close` checks no token |
| RaftHistory.CancelIsForEver | crates/overlay-mcp-raft/src/session_manager.rs:93-99 | after such a step no later state lets a `start` or `stop` of its objects begin, and every other token is as it was |
| RaftHistory.LookupsBeginExactly | crates/overlay-mcp-raft/src/session_manager.rs:124-166 | a `find` can begin on any node for any id, and a `create` on any node with an id never drawn before, shut down or not |
| RaftHistory.ObjectsAreMade | crates/overlay-mcp-raft/src/session_manager.rs:124-186 | an object exists if and only if a `create` or the last step of a `find` has made it, for the session and the node of that call |
| RaftHistory.CallsAreWhereTheyWent | crates/overlay-mcp-raft/src/session.rs:188-307 | a call is under way if and only if it has begun and neither returned nor been cut off, and it is where its latest step has led it |
| RaftHistory.CallsKeepTheirArguments | crates/overlay-mcp-raft/src/session_manager.rs:124-189 | over every run a call keeps the arguments it was begun with |
| RaftHistory.StepsComeInOrder | crates/overlay-mcp-raft/src/session.rs:188-307 | no call skips an await, passes one twice or begins under the number of another |
| RaftHistory.LockedExactlyInside | crates/overlay-mcp-raft/src/session.rs:192-266 | a session is locked if and only if one call is in its section on it, so every way out of a section gives the lock back |
| RaftHistory.EventsAreConserved | crates/overlay-mcp-raft/src/session_manager.rs:85-99 | every notify of a `close` reaches every node once: what a node has still to hear is what was sent less what it heard |
| RaftHistory.EntriesAreLastPublished | crates/overlay-mcp-raft/src/session_manager.rs:93-186 | an entry of a node is the object put there last, and there is none exactly if nothing was put or a delete event has dropped it since |
| RaftHistory.RecordsAreLastPut | crates/overlay-mcp-raft/src/session.rs:206-307 | a record is there if and only if its last write was a put and not a delete, and carries the owner of that put |
| RaftHistory.CallsGoOnExactly | crates/overlay-mcp-raft/src/session.rs:192-266 | in every reachable state a call can take a next step of its own if and only if it is not through its section and no other call is in the section that it waits for |
| Routing.InvStep | crates/overlay-mcp-raft/src/session.rs:374-437 | every step of relays, clients, transports and nodes keeps the invariant about where each message has been |
| Routing.NothingCrossesSessions | crates/overlay-mcp-raft/src/session.rs:376-387 | every message put on a transport or a client channel comes from the same session |
| Routing.DuplicateNeedsTwoMains | crates/overlay-mcp-raft/src/session.rs:374-437 | a client message offered twice was sent over the bus by a sub of its session and read from it by two different mains |
| Routing.ClientMessagesOnce | crates/overlay-mcp-raft/src/session.rs:468-513 | however objects start, stop and change roles, nothing is forwarded twice in a session that never had a sub beside two mains |
| Routing.ServerMessagesOnce | crates/overlay-mcp-raft/src/session.rs:397-411 | an object that never changed its role puts every server message on its client channel at most once |
| RoutingHistory.EverythingIsTold | crates/overlay-mcp-raft/src/session.rs:374-513 | in every state of every run the position, phase and counts of each object, the events of the bus and of each node, and all offers and deliveries in order are given by recursions over the steps |
| RoutingHistory.HearsOnlyLater | crates/overlay-mcp-raft/src/session.rs:355-459 | a relay that takes the ends at some step never offers or delivers an event that its node had passed on before that step |
| RoutingHistory.ObjectsGoOnExactly | crates/overlay-mcp-raft/src/session.rs:341-461 | what an object can do next that is not up to messages is decided by its latest take, connect, failure or end |
| RoutingHistory.NodesGoOnExactly | crates/overlay-mcp-raft/src/session_manager.rs:85-108 | a node can pass on or lose an event if and only if it is on the bus and the node has done neither |
| RaftRelay.Relay.MainLoop | crates/overlay-mcp-raft/src/session.rs:374-438 | the main loop over ring-buffer channels, for every script: what was put on the transport, the bus and the client channel, and where both receivers are |
| RaftRelay.Relay.SubLoop | crates/overlay-mcp-raft/src/session.rs:468-514 | the same for the sub loop |
| RaftRelay.Relay.HearAsMain | crates/overlay-mcp-raft/src/session.rs:376-395 | a node event reaches the transport only if it is for a main of this session; every other event and a lag only move the position |
| RaftRelay.Relay.HearAsSub | crates/overlay-mcp-raft/src/session.rs:470-485 | a node event reaches the client channel only if it is for a sub of this session |
| RaftRelay.Relay.TakeAsMain | crates/overlay-mcp-raft/src/session.rs:416-431 | the next client message goes to the transport; a lag skips to the oldest kept message |
| RaftRelay.Relay.TakeAsSub | crates/overlay-mcp-raft/src/session.rs:487-507 | the next client message goes to the bus, or is lost when the notification fails |
| RaftRelay.Relay.PassOn | crates/overlay-mcp-raft/src/session.rs:397-409 | a server message goes to the subs and to the own client, or only to the own client when the notification fails |
| RaftRelay.EachTurnIsAStep | crates/overlay-mcp-raft/src/session.rs:374-513 | in every reachable state each turn of either loop is one enabled step of the routing machine with the same effect, or changes nothing |
| RaftRelay.EventTurn | crates/overlay-mcp-raft/src/session_manager.rs:100-108 | the listener's send on a node is the machine's handling of that event there |
| RaftRelay.ForeignTurn | crates/overlay-mcp-raft/src/session.rs:374-513 | a step of another object, or of a node with an event that this loop does not hear, leaves everything the object sees as it is |
| RaftRelay.LoopAmongOthers | crates/overlay-mcp-raft/src/session.rs:374-513 | a whole loop, whatever happens in it and whatever other objects and nodes do between its turns, is a run of the routing machine that ends in the same view, idle exactly when the loop has broken |
| RaftRelay.AnyTurnCanCome | crates/overlay-mcp-raft/src/session.rs:374-513 | and while the loop runs, every turn of it and every enabled step of anybody else can come next |
| RoutingRoles.ForwardsOnceExactly | crates/overlay-mcp-raft/src/session.rs:374-513 | a fixed assignment of roles forwards every client message at most once in all runs if and only if no session has a sub beside two mains |
| RoutingRoles.IntendedRolesForwardOnce | crates/overlay-mcp-raft/src/raft_schema.rs:16-25 | the role choice that the comments ask for forwards at most once |
| RoutingRoles.WrittenRolesForwardOnceExactly | crates/overlay-mcp-raft/src/session.rs:220-233 | the role choice as written does so if and only if no two objects stand beside an owner |
| RoutingRoles.RoleChangeDeliversTwice | crates/overlay-mcp-raft/src/session.rs:470-481 | a run in which an object that was main and became sub hears its own broadcast again |
| RoutingRoles.DeliversOnceExactly | crates/overlay-mcp-raft/src/session.rs:397-481 | the client channel of an object gets every server message at most once in all runs if and only if the object keeps to one role |
| RaftRoles.OneOwner | crates/overlay-mcp-raft/src/session.rs:200-220 | as long as no elected owner of a session stops, all its elections name one owner |
| RaftRoles.Project | crates/overlay-mcp-raft/src/session.rs:188-234 | each plane of a run of both planes is a run of its own, and every role relayed in was elected in the control plane |
| RaftRoles.ElectedRelaysForwardOnce | crates/overlay-mcp-raft/src/session.rs:188-513 | in every interleaved run of elections and relays with the documented role choice, as long as no owner decided on for a session stops, its client messages reach a transport at most once and its server messages each of its client channels at most once |
| RaftRoles.ServersOnce | crates/overlay-mcp-raft/src/session.rs:220-233 | the half about server messages holds in every interleaved run for every role choice, the written one included |
| RaftWrittenRoles.TwiceTakesThree | crates/overlay-mcp-raft/src/session.rs:220-233 | in every interleaved run with the written role choice in which the owner stays, a client message forwarded twice takes three objects of its session, two as mains and one as sub |
| RaftWrittenRoles.ThreeForwardTwice | crates/overlay-mcp-raft/src/session.rs:220-233 | any three objects of a session, on whatever nodes, have such a run, from `create` and two finds over three starts to the second offer; where all three share a node, a `close` races a `find` and a `start` |
| RaftWrittenRoles.WrittenForwardsOnceExactly | crates/overlay-mcp-raft/src/session.rs:220-233 | all such runs forward at most once if and only if the session has no three objects |
| RaftHandover.AloneForwardsOnce | crates/overlay-mcp-raft/src/session.rs:188-513 | with at most one object of a session, every interleaved run forwards its client messages at most once, whatever stops and however roles are chosen |
| RaftHandover.HandoverForwardsTwice | crates/overlay-mcp-raft/src/session.rs:206-276 | any two objects of a session have a run in which the owner's `stop` gives the claim up, the other object takes it, and two mains forward one message, with every role choice that goes by who owns the record, the documented and the written one included |
| RaftHandover.EitherForwardsOnceExactly | crates/overlay-mcp-raft/src/session.rs:188-276 | when owners may stop, all interleaved runs with the documented role choice forward at most once if and only if the session has no two objects, and so do those with the written one |
| Cancellation.OlderTokensStay | crates/overlay-mcp-standalone/src/session.rs:361 | making a child token cancels nobody |
| Cancellation.ChildInherits | crates/overlay-mcp-standalone/src/session_manager.rs:39 | a new token is cancelled exactly when its parent is |
| Cancellation.CancelReachesBelow | crates/overlay-mcp-standalone/src/session.rs:297 | a cancel reaches exactly the tokens below it |
| SessionConnection.TokenTree.ChildToken | crates/overlay-mcp-standalone/src/session.rs:361 | a new token below its parent, and the others as they were |
| SessionConnection.TokenTree.CancelToken | crates/overlay-mcp-standalone/src/session.rs:268-270 | one more cancelled token in the tree |
| SessionConnection.ConnectionCell.Take | crates/overlay-mcp-standalone/src/session.rs:349-371 | a stopped connection gives its ends away once, under a new child token; a started one refuses and stays; the `unreachable!` arm is dead |
| SessionConnection.ConnectionCell.Restore | crates/overlay-mcp-raft/src/session.rs:550-569 | a started connection takes the ends back and its stop token ends up cancelled; the `unreachable!` arm is dead |
| SessionConnection.InvStep | crates/overlay-mcp-standalone/src/session.rs:180-300 | every step of starts, stops, closes and relay tasks keeps the invariant about ends and tokens |
| SessionConnection.EndsAreInOnePlace | crates/overlay-mcp-standalone/src/session.rs:185-255 | in every reachable state the one pair of channel ends is in exactly one of the object, one task's hands and nowhere, and no other pair exists |
| SessionConnection.OneRelay | crates/overlay-mcp-raft/src/session.rs:346-363 | at most one task has the ends, and the started connection names its stop token |
| SessionConnection.RestoreFindsStarted | crates/overlay-mcp-standalone/src/session.rs:373-395 | `restore` never finds a stopped connection, puts the pair back and leaves its stop token cancelled |
| SessionConnection.LostExactlyWhileConnecting | crates/overlay-mcp-standalone/src/session.rs:193-197 | over every run the pair is lost if and only if some connect failed or its call was dropped while it connected |
| SessionConnection.LostForEver | crates/overlay-mcp-standalone/src/session.rs:193-197 | from then on the object stays started, under the same stop token and without a relay, in every later state |
| SessionConnection.OneLiveStopToken | crates/overlay-mcp-standalone/src/session.rs:258-271 | at most one stop token is uncancelled: the one of the started connection |
| SessionConnection.NothingLivesAfterCancel | crates/overlay-mcp-standalone/src/session.rs:173-191 | once the session or manager token is cancelled, no later state has a live stop token and `is_started` is false for ever, also for a `start` that had passed its check |
| SessionConnection.RacingStart | crates/overlay-mcp-raft/src/session.rs:341-352 | a run with such a `start`: it takes the ends, under a token that is dead from the beginning |
| SessionHistory.EverythingIsTold | crates/overlay-mcp-standalone/src/session.rs:180-395 | in every state of every run the connection, its stop token and what each call and relay is doing are given by recursions over the steps |
| SessionHistory.OwnExactly | crates/overlay-mcp-standalone/src/session.rs:292-300 | the session's own token is cancelled if and only if the session was closed or its manager shut down, and so for ever |
| SessionHistory.ManagerExactly | crates/overlay-mcp-standalone/src/session_manager.rs:37-54 | the manager's token is cancelled if and only if the manager was shut down, whatever its sessions do |
| SessionHistory.StopExactly | crates/overlay-mcp-standalone/src/session.rs:258-270 | a stop token is cancelled if and only if the own token is, or a `stop` or `restore` has found the ends out under it |
| SessionHistory.StopHaltsForEver | crates/overlay-mcp-standalone/src/session.rs:263-270 | a `stop` that gets through finds the ends out, and their stop token is cancelled in every later state |
| SessionHistory.StartedExactly | crates/overlay-mcp-standalone/src/session.rs:173-178 | `is_started` answers yes if and only if the ends were taken and not brought back since and nothing closed the session |
| SessionHistory.CallsGoOnExactly | crates/overlay-mcp-standalone/src/session.rs:180-270 | a `start` or `stop` can begin if and only if the session is not closed, and what it can do next is decided by whether the ends are out |
| Guards.StreamGuard.Drop | crates/overlay-mcp-core/src/guard.rs:13-26 | the guard's value is sent back through its one-shot |
| Guards.Lender.Lend | crates/overlay-mcp-standalone/src/session.rs:64-90 | a full slot lends its endpoint to one new guard, as a step of the lending machine; an empty slot lends nothing |
| Guards.Lender.UseGuard | crates/overlay-mcp-core/src/guard.rs:36-40 | a change through the lent guard is the machine's update: it is what the guard will give back |
| Guards.Lender.DropGuard | crates/overlay-mcp-core/src/guard.rs:13-26 | dropping the lent guard cannot panic and moves the endpoint to the return task, as the machine's drop |
| Guards.Lender.GiveBack | crates/overlay-mcp-standalone/src/session.rs:82-88 | the return task fills a slot that is empty, as the machine's return |
| Guards.EndpointIsInOnePlace | crates/overlay-mcp-raft/src/session.rs:71-162 | in every run an endpoint is in exactly one of its slot, one live guard and one return task, with what was last put into it; at most one guard exists |
| Guards.NoPanicNoOverwrite | crates/overlay-mcp-core/src/guard.rs:13-40 | no reachable use or drop of a guard panics, and no return overwrites a full slot |
| Guards.EndpointMovesOn | crates/overlay-mcp-standalone/src/session.rs:64-154 | a guard can be lent exactly while the endpoint is in its slot, used and dropped exactly while it is lent, and returned exactly after that |
| Broadcast.Channel.Send | crates/overlay-mcp-core/src/stream.rs:12-17 | a message is appended to the log, over the oldest of the sixteen kept, exactly when a receiver exists |
| Broadcast.Receiver.Recv | crates/overlay-mcp-core/src/stream.rs:19-28 | a receiver gets the message at its position, or on lag jumps to the oldest kept one and says how many it missed |
| Broadcast.ReceiveAdvances | crates/overlay-mcp-core/src/stream.rs:19-28 | a lag says by how many messages the receiver jumps, and leaves it at the oldest of the sixteen kept; nothing else skips a message |
| StandaloneRelay.StandaloneSession.Accept | crates/overlay-mcp-core/src/stream.rs:13-16 | a client message is accepted exactly while the sender and the receiver exist |
| StandaloneRelay.StandaloneSession.RelayLoop | crates/overlay-mcp-standalone/src/session.rs:207-251 | the relay loop over the ring-buffer channels equals the specification for every script, also when clients drop their ends of the channels on the way |
| StandaloneRelay.StandaloneSession.TakeNext | crates/overlay-mcp-standalone/src/session.rs:229-246 | the arm for client messages: one message offered, a lag skipped, or the loop broken on a closed channel |
| StandaloneRelay.StandaloneSession.Run | crates/overlay-mcp-standalone/src/session.rs:180-256 | one start from take to restore: the receiver comes back at the position it had reached, or is dropped with a cut connect |
| StandaloneRelay.HistoryFaithful | crates/overlay-mcp-standalone/src/session.rs:207-251 | after any history the receive outcomes tile the accepted messages up to the cursor |
| StandaloneRelay.OfferedInOrder | crates/overlay-mcp-standalone/src/session.rs:229-241 | over all stop/start cycles, what reaches the transports is the accepted messages at strictly increasing positions |
| StandaloneRelay.NothingElseIsSkipped | crates/overlay-mcp-standalone/src/session.rs:240 | every accepted message before the cursor was offered or lies in a stretch that a lagged receive reported |
| StandaloneRelay.OnlyLagSkips | crates/overlay-mcp-standalone/src/session.rs:349-395 | two receives in a row that both offered a message offered neighbouring ones, also when a stop and a start lie between them |
| StandaloneRelay.OfferedWasNotMissed | crates/overlay-mcp-standalone/src/session.rs:229-241 | no message was both offered and missed |
| StandaloneHistory.HistoryExactly | crates/overlay-mcp-standalone/src/session.rs:180-256 | over all stop/start cycles the accepted client messages and the delivered server messages are, in order and once each, those that the calls and scripts say, and the ends are lost exactly by a cut connect |
| StandaloneHistory.RelayExactly | crates/overlay-mcp-standalone/src/session.rs:207-251 | one relay accepts and delivers exactly what its script says up to the event that ends it |
| StandaloneHistory.NothingAfterTheEnd | crates/overlay-mcp-standalone/src/session.rs:207-251 | nothing after the end of the transport, the stop or a closed channel changes anything |
| SseStream.StreamEvents | crates/overlay-mcp-svr/src/router/sse.rs:64-75 | the stream loop equals the specification for every interleaving with senders and disconnects |
| SseStream.DeliversABlock | crates/overlay-mcp-svr/src/router/sse.rs:67-74 | a connection delivers a contiguous block of the merged log from the receiver's position on; only its last receive can skip |
| SseStream.BlockIsDelivered | crates/overlay-mcp-svr/src/router/sse.rs:67-74 | the k-th connection delivers exactly its block of the final log |
| SseStream.BlocksIncrease | crates/overlay-mcp-standalone/src/session.rs:92-120 | the blocks of successive connections on one session object are disjoint and increasing |
| SseStream.NextBlockIsAdjacent | crates/overlay-mcp-svr/src/router/sse.rs:68-71 | a connection that did not end in a lag leaves nothing out before the next one |
| SseStream.ReadsExactly | crates/overlay-mcp-svr/src/router/sse.rs:64-75 | everything that is sent is in the log in order, bypassed entries included, and the connection yields one entry with each poll that finds one until it ends |
| SseStream.NothingAfterTheEnd | crates/overlay-mcp-svr/src/router/sse.rs:67-71 | after a disconnect or a receive error the receiver and what was yielded stay as they are |
| StandaloneManager.SessionMap.Create | crates/overlay-mcp-standalone/src/session_manager.rs:37-54 | the whole of `create`, if nothing comes between: the machine's two steps, after which exactly the new session is found beside the old ones |
| StandaloneManager.SessionMap.Insert | crates/overlay-mcp-standalone/src/session_manager.rs:47-53 | the insert of `create` is the machine's step on the map and keeps its invariant |
| StandaloneManager.SessionMap.Elsewhere | crates/overlay-mcp-standalone/src/session.rs:156-171 | every step that does not take the lock leaves the map as it is and keeps the invariant |
| StandaloneManager.SessionMap.Find | crates/overlay-mcp-standalone/src/session_manager.rs:56-66 | a session is found exactly if its `create` returned and its cleanup has not run or ran before the insert; what is found is what was made, and an uncancelled session always is |
| StandaloneManager.SessionMap.CleanUp | crates/overlay-mcp-standalone/src/session.rs:317-324 | the cleanup is the machine's step on the map and keeps its invariant |
| StandaloneManager.InvStep | crates/overlay-mcp-standalone/src/session_manager.rs:37-66 | every step of creates, closes, shutdown and cleanups keeps the map's invariant |
| StandaloneManager.MapAgreesWithTokens | crates/overlay-mcp-standalone/src/session_manager.rs:37-54 | every id in the map has an uncancelled token or a cleanup still to come, but for an insert after the cleanup, which needs a stopped manager |
| StandaloneManager.LateInsert | crates/overlay-mcp-standalone/src/session_manager.rs:47-51 | an insert comes late exactly when its cleanup has run, and then the manager had been stopped before |
| StandaloneManager.UncancelledIsFound | crates/overlay-mcp-standalone/src/session_manager.rs:56-66 | a session whose `create` returned is found as long as its token is uncancelled |
| StandaloneManager.CleanedUpIsNeverFound | crates/overlay-mcp-standalone/src/session.rs:317-324 | once its cleanup has run, no later `find` returns it |
| StandaloneManager.LateEntryStays | crates/overlay-mcp-standalone/src/session_manager.rs:39-51 | a run in which the late entry stays in the map of a stopped manager |
| ManagerHistory.EverythingIsTold | crates/overlay-mcp-standalone/src/session_manager.rs:37-66 | in every state what `find` answers, which calls wait and who is cancelled or cleaned up is given by recursions over the steps |
| ManagerHistory.StepsGoOnExactly | crates/overlay-mcp-standalone/src/session.rs:317-324 | which creates, inserts, closes and cleanups are possible, as what has happened before; a cleanup comes once and exactly for the cancelled |
| FormUrlencoded.Serializer.AppendPair | crates/overlay-mcp-svr/src/router/sse.rs:52-60 | the text in the serializer is the serialization of all pairs appended so far |
| FormUrlencoded.Serializer.AppendEncoded | crates/overlay-mcp-svr/src/router/sse.rs:59 | the byte-by-byte loop appends the encoding of the whole string |
| FormUrlencoded.Serializer.Finish | crates/overlay-mcp-svr/src/router/sse.rs:62 | the finished text is the serialization of the pairs |
| FormUrlencoded.DecodeEncode | crates/overlay-mcp-svr/src/router/sse.rs:52-60 | percent-decoding the encoding of any byte string gives it back |
| FormUrlencoded.ParseJoin | crates/overlay-mcp-core/src/mcp.rs:18-24 | parsing distributes over an ampersand, for all byte strings |
| FormUrlencoded.ParseSerialize | crates/overlay-mcp-svr/src/router/sse.rs:52-62 | for all lists of pairs of byte strings, parsing the serialization gives the pairs back |
| FormUrlencoded.SerializeFitsQuery | crates/overlay-mcp-svr/src/router/sse.rs:80 | the serialization contains neither a question mark nor a hash, so it is the whole query of the endpoint URL |
| FormText.WrittenExactly | crates/overlay-mcp-svr/src/router/sse.rs:52-60 | letters, digits and `*-._` are written as they are, a space as a plus sign, and every other byte as a percent sign and two capital hexadecimal digits |
| FormText.HexValueExactly | crates/overlay-mcp-core/src/mcp.rs:18-24 | the sixteen digits count in both cases, and nothing else |
| FormText.DecodeEscape | crates/overlay-mcp-core/src/mcp.rs:18-24 | an escape in either case stands for its byte |
| FormText.DecodeWithoutEscapes | crates/overlay-mcp-core/src/mcp.rs:18-24 | text without escapes keeps every byte, lone percent signs included, but plus signs become spaces |
| FormText.DecodeJoin | crates/overlay-mcp-core/src/mcp.rs:18-24 | decoding goes piece by piece unless an escape lies across the border |
| FormText.ParseNameAndValue | crates/overlay-mcp-core/src/mcp.rs:18-24 | the first equals sign of a part ends the name, and the value has the others |
| FormText.ParseName | crates/overlay-mcp-core/src/mcp.rs:18-24 | a part without one is a name with an empty value |
| FormText.EmptyPartsAreNothing | crates/overlay-mcp-core/src/mcp.rs:18-24 | ampersands may stand first, last or in a row |
| FormText.LowerExactly | crates/httpbuilder/src/builder.rs:66-69 | the header map keeps names in lower case: capital letters become small ones and every other byte stays |
| EndpointUrl.PrintEndpoint | crates/overlay-mcp-svr/src/router/sse.rs:52-81 | what the endpoint event announces |
| EndpointUrl.SessionIdComesBack | crates/overlay-mcp-core/src/mcp.rs:18-24 | a request to the announced URL carries the printed session id, for all ids, keys and key names |
| EndpointUrl.ApiKeyComesBackExactly | crates/httpbuilder/src/lib.rs:13-18 | it carries the API key under its name if and only if that name is not `session_id` or the key equals the session id |
| EndpointUrl.HeaderKeyIsNotPrinted | crates/overlay-mcp-svr/src/router/sse.rs:54-60 | a key that came in a header cannot be read from the URL |
| EndpointUrl.EndpointText | crates/overlay-mcp-svr/src/router/sse.rs:52-81 | the announced text is `/message?session_id=`, the encoded id and, for a key from the query, `&`, its name, `=` and the key |
| EndpointUrl.QueryExactly | crates/overlay-mcp-core/src/mcp.rs:18-24 | the query of a request is what follows the first question mark |
| EndpointUrl.NothingWithoutQuery | crates/httpbuilder/src/lib.rs:13-18 | without a query there is no session id and no query parameter |
| EndpointUrl.HeaderComesBackExactly | crates/httpbuilder/src/lib.rs:9-12 | a header is found in any letter case whatever the URL, and comes back exactly if it is visible ASCII; otherwise it counts as empty |
| RoundRobin.Resolver.Resolve | crates/overlay-mcp-resolver/src/static_resolver.rs:29-36 | the url at the counter modulo the list, and the counter one further modulo the machine word; an empty list answers an error and moves nothing |
| RoundRobin.Resolver.Reload | crates/overlay-mcp-resolver/src/discovery_resolver.rs:41-83 | a lookup replaces the list by the accepted hosts in order and resets the counter; a failed one changes nothing |
| RoundRobin.AcceptedInOrder | crates/overlay-mcp-resolver/src/discovery_resolver.rs:62-77 | the urls of a lookup stand in the order of its hosts |
| RoundRobin.AcceptedExactly | crates/overlay-mcp-resolver/src/discovery_resolver.rs:62-77 | a url is offered as often as hosts were accepted with it |
| RoundRobin.FairBeforeWrap | crates/overlay-mcp-resolver/src/discovery_resolver.rs:101-108 | in m calls without a wrap each of n urls is served floor(m/n) or ceil(m/n) times |
| RoundRobin.FairAcrossWrap | crates/overlay-mcp-resolver/src/static_resolver.rs:34-35 | with one wrap in between two urls differ by at most two |
| RoundRobin.FairAcrossWrapExactly | crates/overlay-mcp-resolver/src/static_resolver.rs:34-35 | all windows with one wrap are as fair as those without if and only if the number of urls divides the machine word |
| RoundRobin.WrapUnnoticed | crates/overlay-mcp-resolver/src/static_resolver.rs:34-35 | if it does, every such window serves each url floor(m/n) or ceil(m/n) times |
| RoundRobin.WrapFavoursByTwo | crates/overlay-mcp-resolver/src/discovery_resolver.rs:106-107 | if it does not, for every such number of urls there is a window that serves one url twice and another not at all |
| RoundRobin.ResolveInTurn | crates/overlay-mcp-resolver/src/discovery_resolver.rs:101-108 | m calls of `Resolve` in turn always answer, and serve each of distinct urls as often as the counting function of the fairness results says |
| CleanJson.CleanIsClean | crates/overlay-mcp-cli/src/utils.rs:4-30 | the result has no null or empty-object member in any object at any depth |
| CleanJson.FixedExactlyWhenClean | crates/overlay-mcp-cli/src/utils.rs:4-30 | cleaning leaves a value alone if and only if it is clean |
| CleanJson.Idempotent | crates/overlay-mcp-cli/src/utils.rs:4-30 | cleaning twice is cleaning once |
| CleanJson.RemovedExactlyWhenEmpty | crates/overlay-mcp-cli/src/utils.rs:9-19 | a member is removed if and only if nothing at or below it is an array or a scalar other than null |
| CleanJson.ContentIsKept | crates/overlay-mcp-cli/src/utils.rs:4-30 | path by path, input and result hold the same non-null scalars and arrays of the same lengths |
| CleanJson.PathsKept | crates/overlay-mcp-cli/src/utils.rs:4-30 | the paths of the result are exactly those along which every member has something worth keeping |
| CleanJson.NothingIsInvented | crates/overlay-mcp-cli/src/utils.rs:4-30 | whatever the result has at a path is the cleaned value of what the input has there |
| StaticAuthz.Collect | crates/overlay-mcp-auth/src/authz_static.rs:80-108 | the claim as a list of strings if it is well typed, otherwise the error about the first thing that is not |
| StaticAuthz.AuthorizeJwt | crates/overlay-mcp-auth/src/authz_static.rs:65-119 | the nested early-exit loops answer what the first deciding place in rule and value order says, and refuse when there is none |
| StaticAuthz.OneOutcome | crates/overlay-mcp-auth/src/authz_static.rs:69-118 | that specification leaves exactly one answer |
| StaticAuthz.WhitelistGrows | crates/overlay-mcp-auth/src/authz_static.rs:113-115 | enlarging whitelists never takes an allowance away |
| StaticAuthz.BlacklistGrows | crates/overlay-mcp-auth/src/authz_static.rs:110-112 | enlarging blacklists never adds an allowance |
| StaticAuthz.TypeErrorsDiffer | crates/overlay-mcp-auth/src/authz_static.rs:80-134 | a type error never names the expected type as the actual one |
| StaticAuthz.AllowsAlone | crates/overlay-mcp-auth/src/authz_static.rs:69-117 | a rule on its own allows if and only if its claim is there, well typed, and its first listed value is whitelisted and not blacklisted |
| StaticAuthz.SilentExactly | crates/overlay-mcp-auth/src/authz_static.rs:69-117 | a rule decides nowhere if and only if its claim is missing and not required, or well typed without a listed value |
| StaticAuthz.AllowsExactly | crates/overlay-mcp-auth/src/authz_static.rs:69-118 | the loops allow if and only if some rule allows, and every rule before it is silent, in that sense |
| StaticAuthz.ConjunctionSuffices | crates/overlay-mcp-auth/src/authz_static.rs:69-118 | whom every rule of a non-empty list allows on its own, the loops allow |
| StaticAuthz.ConjunctionExactly | crates/overlay-mcp-auth/src/authz_static.rs:69-118 | the loops allow exactly whom the documented conjunction allows, if and only if no rule but the first can be the one that decides to allow and, if it does, all others allow too |
| StaticAuthz.EarlierRuleDecides | crates/overlay-mcp-auth/src/authz_static.rs:69-118 | two rules of which the second alone refuses allow a caller that the first one lists |
| AuthzMeaning.OutcomeExactly | crates/overlay-mcp-auth/src/authz_static.rs:69-118 | the loops answer what the first rule says that is not silent: allowance or refusal by its first listed value, refusal for a missing required claim, or the error about a claim of the wrong type; and they refuse if all are silent |
| AuthzMeaning.NeverUnauthorized | crates/overlay-mcp-auth/src/authz_static.rs:65-119 | no claims leave the caller of a token merely unauthorized |
| AuthzMeaning.ResolveJoin | crates/overlay-mcp-auth/src/authz_static.rs:70-72 | a pointer leads where its second part leads from where its first part leads |
| AuthzMeaning.ResolveOne | crates/overlay-mcp-auth/src/authz_static.rs:70-72 | one token leads to a member of an object by name and to an item of an array by its decimal number, and nowhere else |
| AuthzMeaning.TypeNames | crates/overlay-mcp-auth/src/authz_static.rs:121-127 | the name of each kind of value in an error |
| AuthzMeaning.ArrayTypeNames | crates/overlay-mcp-auth/src/authz_static.rs:128-132 | an array whose items are all strings, numbers, booleans or objects has the name of that kind with brackets, any other is an array |
| StaticAuthz.AuthorizeApiKey | crates/overlay-mcp-auth/src/authz_static.rs:56-64 | allowed exactly if on the whitelist and not on the blacklist |
| StaticAuthz.AuthorizeEnter | crates/overlay-mcp-auth/src/authz_static.rs:21-27 | the answer by kind of caller |
| RequestBuilder.Group | crates/httpbuilder/src/builder.rs:34-39 | the values of each name in their order, and no name without a value |
| RequestBuilder.New | crates/httpbuilder/src/builder.rs:24-57 | the first missing part in the order asked for, or a builder with the grouped queries of both URLs and no headers |
| RequestBuilder.ExtendMatching | crates/httpbuilder/src/builder.rs:79-96 | every entry whose name matches is appended, in whatever order the map yields its entries |
| RequestBuilder.HttpBuilder.ApplyHeader | crates/httpbuilder/src/builder.rs:65-70 | the first value of the named header in any letter case, if it is present |
| RequestBuilder.HeaderByName | crates/httpbuilder/src/lib.rs:9-12 | a reference by name forwards under that name what `resolve` reads from that header, and nothing under other names |
| RequestBuilder.ResolveFindsTheFirst | crates/httpbuilder/src/lib.rs:13-18 | what `resolve` finds under a query name is the first of the grouped values |
| RequestBuilder.ValuesInOrder | crates/httpbuilder/src/builder.rs:34-46 | the grouped values of a name stand in the order of the query |
| RequestBuilder.HttpBuilder.ApplyQuery | crates/httpbuilder/src/builder.rs:71-78 | all values of the named parameter |
| RequestBuilder.HttpBuilder.Apply | crates/httpbuilder/src/builder.rs:59-100 | per query name the old values and then the source values once per matching reference; per header name the contributions in reference order |
| RequestBuilder.QueryIgnoresOrder | crates/httpbuilder/src/builder.rs:71-96 | the query is the same for every permutation of the references, and does not depend on map iteration |
| RequestBuilder.HeadersAreDetermined | crates/httpbuilder/src/builder.rs:65-86 | the headers do not depend on the order of map iteration |
| RequestBuilder.Build | crates/httpbuilder/src/builder.rs:24-100 | the finished query and headers in terms of the two URLs and the incoming headers |

## Left out

- Liveness and time: timeouts are failures that may happen at any step, and nothing is claimed about `stop` or
  `guard_upstream` returning, since `stream_notify` is awaited but not signalled.
- A put that hiqlite applies only after its caller gave up and the lock went to somebody else.
- The internals of hiqlite, tokio, the SSE transport, reqwest, DNS lookup and regular expressions.
- Lossy UTF-8 decoding after percent-decoding: strings are their UTF-8 bytes.
- SessionConnection.InvStep: does not model the notification loop at the end of `stop`, which waits for the relay.
- RaftSession.Session.StartSection: runs without interleaving; interleaving is the subject of `RaftCluster`.
- StandaloneRelay.StandaloneSession.RelayLoop: a message handed to a transport counts as offered whether or not the
  transport then reports an error, as in the code, which only logs it.
- Guards.EndpointIsInOnePlace: the three slots of a session are modelled by one generic slot.
- `NewMainSession` events, which no modelled code sends or acts on.
- Parsing of JSON Pointers: rules carry the list of unescaped tokens.
- Authorization of single messages in `crates/overlay-mcp-svr/src/router/message.rs`: its Deny arm replies with an error
  and goes on, so nothing is claimed about withheld messages.
- The parser of regular-expression references, whose pattern accepts only `/./` and `/+/`.
- OAuth and OIDC endpoints, JWT signatures, OpenFGA, middleware, routing, metrics, tracing, deployment.
