# ReAgent coordination layer in Dafny

This project models the reversible coordination layer of ReAgent, a multi-agent question-answering
system. The layer has these parts:

- a message record with a shortening debug rendering;
- an append-only message pool with visibility, sender, id and time-range filters, and with
  snapshots keyed by a time index;
- agents that keep a local state with a backtrack stack, and the deterministic pipeline built from
  them: decomposer, retriever, verifier, assembler, supervisor and controller;
- the environment, which is both the synchronous message bus and the global coordinator. It routes
  messages, takes and restores global checkpoints, resolves conflicts by searching backwards, and
  drives the time steps;
- the group-chat environment, which adds a clamped trust graph and round summaries;
- the HotpotQA sample wrapper, which turns an item's context into documents, its supporting facts
  into sentences, and its documents into one knowledge text.

Modules, one per source file:

- `Wrappers`: `Option`, `Result` and the Python exceptions that can occur.
- `PyText`: integer-to-text conversion, `str.join`, substring tests and string `repr`.
- `Messages`: `message.py`.
- `Pool`: `messagepool.py`, with class `MessagePool`.
- `Agents`: `agent.py`, lines 29-335, with class `Agent`. A `Role` tag stands for the subclass.
- `Env`: `environment.py`, with class `Environment`.
- `GroupChat`: `groupchat.py`, with class `GroupChatEnvironment`. It holds its `Environment`
  instead of inheriting from it.
- `HotpotQAItem`: `Hotpotqa.py`, with class `HotpotQA`.
- `Pipeline`: the question-answering chain of the five default agents, on the delivery
  specification.
- `Scenarios`: short end-to-end runs on small concrete setups.

## How delivery is modelled

In the source, delivery is re-entrant. `Environment.send_message` calls an agent's
`receive_message`, and that may call `send_message` again before returning.

The model separates what a delivery does from how the objects do it.

- `Agents.React` is an agent's reaction as a value. From the role, the name, whether there is a bus,
  the agent's fields and the envelope, it gives the new fields, the bus calls its `send_message`
  would make, in order, and the exception it raises, if any. `Agent.ReceiveMessage` is proved to
  do exactly that.
- `Env.World` is what a delivery can change: every agent's fields, the pool's list and the clock.
  `SendSpec`, `DeliverSpec`, `DispatchSpec` and `PerformCalls` define a send on a world
  recursively. A send records the message, hands the envelope to every agent on its Route in list
  order, and performs each agent's calls one level deeper before the next agent receives it.
- The methods of `Environment` (`SendMessage`, `BroadcastMessage`, `Deliver`, `Dispatch`,
  `Receive`, `Perform`) change the objects in place. Each is proved to leave exactly the world and
  exception that the matching specification function gives for the world before.

This order is the source's, for these reasons:

- every modelled role makes all its state changes before its first send;
- every modelled role computes everything it sends before its first send;
- the calls run in the order the source issues them, and each finishes before the next starts.

The recursion carries a `depth: nat` bound. A send that would nest deeper stops the chain with
`DeliveryDepthExceeded`.

An exception raised inside `receive_message` (for example `.get` on a text payload) also stops the
chain. It is returned as `Some(exception)`. The messages already recorded stay in the pool, as they
would in Python.

Clock readings and UUIDs are replaced by the environment's counter `ticks`. Message `k` gets
timestamp `k` and id `MintId(k)` = `"msg-k"`.

The module `Pipeline` follows one question through the five default agents, message by message,
on the specification functions. `Scenarios.PipelineQuestion` runs the same question through the
objects.

## Model

| member | source | states |
|---|---|---|
| Messages.NewMessage | en/research/ReAgent/sources/Interaction/message.py:40-44 | content, sender and receiver are stored unchanged; a supplied timestamp or id is kept; only absent ones take the clock value or the fresh id |
| Messages.ShownContent | en/research/ReAgent/sources/Interaction/message.py:50-54 | content over 33 characters shows as its first 30 plus "..."; otherwise it shows unchanged, and this happens exactly when the length is at most 33; the shown text is never longer than 33 or than the content |
| Messages.TruncatedContent | en/research/ReAgent/sources/Interaction/message.py:50-54 | text is shortened by ShownContent; a dictionary is shown whole; slicing a dictionary fails once it has more than 33 entries, and only then |
| Messages.Repr | en/research/ReAgent/sources/Interaction/message.py:55-58 | fails exactly when the truncation fails; otherwise starts with `Message(msg_id=` followed by the id, `, from=`, the sender and `, to=`, then the receiver, `, time=` and the timestamp, and ends with `, content='` + the truncated content + `')` |
| Pool.Keep | en/research/ReAgent/sources/Interaction/messagepool.py:59-62 | the comprehension filter: a message is in the result iff it is in the input and kept; the result is never longer than the input |
| Pool.KeepCounts | en/research/ReAgent/sources/Interaction/messagepool.py:59-62 | the filter keeps every copy of a kept message and drops every copy of any other |
| Pool.KeepConcat | en/research/ReAgent/sources/Interaction/messagepool.py:59-62 | filtering a concatenation is concatenating the filtered parts, so relative order is preserved |
| Pool.SliceBound | en/research/ReAgent/sources/Interaction/messagepool.py:101 | Python's slice-bound normalisation: an in-range bound is kept, a negative one counts from the end, one past the end is clamped to the length and one before the start to 0 |
| Pool.HistoryLine | en/research/ReAgent/sources/Interaction/messagepool.py:102 | the line starts with `[` + the timestamp + `] `, then shows `sender => receiver`, and ends with `: ` + the content |
| Pool.MessagePool.constructor | en/research/ReAgent/sources/Interaction/messagepool.py:32-33 | empty list and no snapshots |
| Pool.MessagePool.UpdateMessage | en/research/ReAgent/sources/Interaction/messagepool.py:45 | the new list is the old list with the message appended last |
| Pool.MessagePool.GetVisibleMessages | en/research/ReAgent/sources/Interaction/messagepool.py:54-62 | "all" returns the whole list; any other name returns, in order, exactly the messages sent to "ALL", sent to a list containing the name, or sent to the name |
| Pool.MessagePool.GetOnesMessages | en/research/ReAgent/sources/Interaction/messagepool.py:71-76 | "all" returns the whole list; any other name returns, in order, exactly the messages whose sender is the name or "all" |
| Pool.MessagePool.HistoryRange | en/research/ReAgent/sources/Interaction/messagepool.py:97-101 | Python's `messages[start:end]`: an absent end, or one past the length, is clamped to the length; negative bounds, with or without an end, count from the end; a start at or past the end, or an end at or before the start, gives nothing |
| Pool.MessagePool.OutputHistory | en/research/ReAgent/sources/Interaction/messagepool.py:97-103 | the result is the listing of exactly the messages the clamped range selects, in order; every selected message's line occurs in it; it is empty exactly when the range is empty |
| Pool.ListingSingle | en/research/ReAgent/sources/Interaction/messagepool.py:100-103 | the listing of one message is exactly that message's line |
| Pool.ListingSnoc | en/research/ReAgent/sources/Interaction/messagepool.py:100-103 | one more message adds a newline and exactly its line at the end of the listing |
| Pool.ListingShowsEach | en/research/ReAgent/sources/Interaction/messagepool.py:95-103 | every message of the list has its line somewhere in the listing |
| Pool.MessagePool.SnapshotState | en/research/ReAgent/sources/Interaction/messagepool.py:114 | only key `timeIndex` is (over)written, with the live list |
| Pool.MessagePool.RevertState | en/research/ReAgent/sources/Interaction/messagepool.py:123-124 | with a snapshot at the key, the live list becomes that snapshot; without one, nothing changes |
| Pool.MessagePool.PruneSnapshotsAfter | en/research/ReAgent/sources/Interaction/messagepool.py:133-135 | the snapshots end as exactly the old ones with key at most `timeIndex`, with their values unchanged |
| Pool.MessagePool.FindMessagesById | en/research/ReAgent/sources/Interaction/messagepool.py:147 | an order-preserving filter holding exactly the messages with that id |
| Pool.MessagePool.FindMessagesInTimeRange | en/research/ReAgent/sources/Interaction/messagepool.py:157-160 | an order-preserving filter holding exactly the messages with a timestamp in the closed range |
| Pool.MessagePool.ClearPool | en/research/ReAgent/sources/Interaction/messagepool.py:167-168 | list and snapshots both empty |
| Pool.BroadcastVisibleToEveryone | en/research/ReAgent/sources/Interaction/messagepool.py:61 | a message sent to "ALL" is visible to every name |
| Pool.DirectedVisibleOnlyToReceiver | en/research/ReAgent/sources/Interaction/messagepool.py:54-62 | a message sent to one name q other than "ALL" is visible to q and to "all", and to no other name |
| Pool.VisibleExtends | en/research/ReAgent/sources/Interaction/messagepool.py:45 | appending messages extends each name's visible list by the visible part of the new messages |
| Agents.LocalState.Pushed | en/research/ReAgent/sources/Agent/agent.py:54-55 | facts and history are unchanged; the stack grows by exactly one, keeps the old stack as prefix, and has the whole prior state on top |
| Agents.LocalState.Popped | en/research/ReAgent/sources/Agent/agent.py:62-64 | an empty stack leaves the state as it is; otherwise the state becomes the top entry |
| Agents.Lookup | en/research/ReAgent/sources/Agent/agent.py:159 | `dict.get`: present iff some entry has the key, and the value is one stored under that key |
| Agents.DecomposeQuestion | en/research/ReAgent/sources/Agent/agent.py:131-135 | exactly three sub-questions, pairwise different, each ending with the question |
| Agents.RetrieveEvidence | en/research/ReAgent/sources/Agent/agent.py:173 | one evidence line, ending with the sub-question |
| Agents.DistinctCount | en/research/ReAgent/sources/Agent/agent.py:222 | `len(set(s)) <= len(s)`, and the inequality is strict iff `s` holds a repeated element |
| Agents.Verify | en/research/ReAgent/sources/Agent/agent.py:221-224 | the detail is non-empty iff facts followed by evidence contain a duplicate, and then it is the fixed conflict text |
| Agents.AssembleAnswer | en/research/ReAgent/sources/Agent/agent.py:269 | the answer is "Integrated Answer: " followed by the partial answers joined with "; " |
| Agents.AssembleAnswerSnoc | en/research/ReAgent/sources/Agent/agent.py:269 | one more partial answer appends "; " and that answer to the assembled answer |
| Agents.ExtensionOf | en/research/ReAgent/sources/Agent/agent.py:249 | `list.extend` adds a list's items, or a string's characters one by one |
| Agents.BacktrackIgnoredByAll | en/research/ReAgent/sources/Agent/agent.py:320-335 | no role reacts to BACKTRACK, so a supervisor's broadcast ends the chain |
| Agents.Agent.constructor | en/research/ReAgent/sources/Agent/agent.py:37-48 | name and bus are stored; the state is empty facts, empty history and an empty stack; no partial answers; counter 0 |
| Agents.Agent.CheckpointState | en/research/ReAgent/sources/Agent/agent.py:50-55 | the new state is the old state Pushed: a copy of the old state taken before the push is on top |
| Agents.PopAfterPush | en/research/ReAgent/sources/Agent/agent.py:54-64 | checkpoint followed by backtrack gives back exactly the state before the checkpoint |
| Agents.Agent.LocalBacktrack | en/research/ReAgent/sources/Agent/agent.py:57-64 | the new state is the old state Popped |
| Agents.Agent.SendMessage | en/research/ReAgent/sources/Agent/agent.py:73-87 | no call without a bus; otherwise exactly one call, with this agent as sender and the given receiver, type and content |
| Agents.Agent.DecomposerReceive | en/research/ReAgent/sources/Agent/agent.py:109-124 | an INFORM with text content sends exactly 3 ASSERTs to "RetrieverAgent", carrying the sub-questions in order; anything else sends nothing |
| Agents.Agent.RetrieverReceive | en/research/ReAgent/sources/Agent/agent.py:152-166 | an ASSERT with a truthy sub-question sends one INFORM to "VerifierAgent" with its evidence; text content raises AttributeError; other types are ignored |
| Agents.Agent.VerifierReceive | en/research/ReAgent/sources/Agent/agent.py:189-214 | on a conflict, the state ends as it was and one CONFLICT goes to "SupervisorAgent"; otherwise the facts are extended by the evidence in order (on top of the checkpoint) and one ASSERT goes to "AnswerAssemblerAgent"; text content raises AttributeError, and string evidence raises TypeError after the checkpoint |
| Agents.Agent.AssemblerReceive | en/research/ReAgent/sources/Agent/agent.py:241-256 | the partial answers are extended; the final answer is sent iff there are at least 3, and it is AssembleAnswer of them |
| Agents.Agent.SupervisorReceive | en/research/ReAgent/sources/Agent/agent.py:285-303 | a CONFLICT is broadcast to "ALL" as a BACKTRACK carrying its reason; a final answer in a dictionary is only shown; a text payload raises the Python exception |
| Agents.Agent.ControllerReceive | en/research/ReAgent/sources/Agent/agent.py:320-335 | the counter rises by exactly 1 per CONFLICT; a CHALLENGE goes to "VerifierAgent" iff the counter then exceeds 2 |
| Agents.React | en/research/ReAgent/sources/Agent/agent.py:109-335 | the reaction of each role as a value: an ignored envelope changes nothing and sends nothing; without a bus nothing is sent; every call has the agent as sender; an exception comes with no call; each role changes only its own field (the verifier its local state, the assembler its partial answers, the controller its counter) |
| Agents.Agent.ReceiveMessage | en/research/ReAgent/sources/Agent/agent.py:66-71 | the agent's new fields and the calls and exception it returns are exactly its role's React of the old fields and the envelope |
| Env.Route | en/research/ReAgent/sources/Environment/environment.py:78-88 | the delivery positions are in range and in list order, and an agent is among them iff it receives the message: for "ALL" every name but the sender, otherwise every agent with the receiver's name |
| Env.RoutePrefix | en/research/ReAgent/sources/Environment/environment.py:81-88 | delivering over a prefix of the agents is a prefix of the whole delivery |
| Env.RouteStep | en/research/ReAgent/sources/Environment/environment.py:81-88 | one more agent in the list adds its position to the delivery exactly when it receives the message |
| Env.BroadcastRoute | en/research/ReAgent/sources/Environment/environment.py:60-67 | a broadcast reaches each agent whose name differs from the sender exactly once, and the sender never |
| Env.IncreasingDistinct | en/research/ReAgent/sources/Environment/environment.py:60-67 | a strictly increasing route holds each position at most once |
| Env.LatestAtOrBelow | en/research/ReAgent/sources/Environment/environment.py:146-151 | the backward search finds the largest key in [0, f], or none when that range has no key |
| Env.LatestIgnoresAbove | en/research/ReAgent/sources/Environment/environment.py:160-170 | a snapshot added above the search start does not change where the search ends |
| Env.PrunedAfter | en/research/ReAgent/sources/Environment/environment.py:122-124 | exactly the keys at most t remain, with their values |
| Env.WithSnapshots | en/research/ReAgent/sources/Environment/environment.py:177-180 | the history plus, at every time in (from, to], a snapshot of the given pool list and agent states; earlier entries outside that range are kept |
| Env.WithSnapshotsStep | en/research/ReAgent/sources/Environment/environment.py:177-180 | one more step adds exactly the snapshot at the next time |
| Env.AgentStatesNames | en/research/ReAgent/sources/Environment/environment.py:100-101 | the snapshot's agent map has exactly the agents' names as keys |
| Env.AgentStatesLastOfName | en/research/ReAgent/sources/Environment/environment.py:100-101 | under a repeated name, the snapshot holds the state of the last agent with that name |
| Env.MintId | en/research/ReAgent/sources/Interaction/message.py:44 | minted ids all start with "msg-" |
| Env.MintIdInjective | en/research/ReAgent/sources/Interaction/message.py:44 | different clock values give different ids, the uniqueness `uuid4` stands for |
| Env.FreshIds | en/research/ReAgent/sources/Interaction/message.py:44 | the messages a delivery appends have pairwise different ids, none of them an id minted before it |
| Env.SendSpec | en/research/ReAgent/sources/Environment/environment.py:69-88 | a send only appends to the pool and advances the clock by one per appended message, keeps the agents, and its first appended message is the one sent, stamped and identified by the clock |
| Env.DeliverSpec | en/research/ReAgent/sources/Environment/environment.py:78-88 | delivery along a route only appends to the pool and keeps the agents |
| Env.DispatchSpec | en/research/ReAgent/sources/Environment/environment.py:83-88 | one agent's reaction and the calls it makes only append to the pool and keep the agents |
| Env.PerformCalls | en/research/ReAgent/sources/Agent/agent.py:81-87 | performing an agent's calls one level deeper only appends to the pool and keeps the agents |
| Env.DeliverIgnored | en/research/ReAgent/sources/Environment/environment.py:78-88 | handing an envelope to agents that all ignore it changes nothing |
| Env.SendIgnored | en/research/ReAgent/sources/Environment/environment.py:69-88 | a send that every receiver ignores only records the message |
| Env.Environment.constructor | en/research/ReAgent/sources/Environment/environment.py:32-53 | time 0, empty history, empty pool, no conflict, and every agent's bus is this environment; agent states are untouched |
| Env.Environment.Receive | en/research/ReAgent/sources/Environment/environment.py:83-88 | agent k alone takes its React of the envelope: its fields become the reaction's and its calls and exception are returned; nothing else changes |
| Env.Environment.Perform | en/research/ReAgent/sources/Agent/agent.py:81-87 | performing calls one after another, each a send one level deeper, until one raises, gives exactly PerformCalls of the state before |
| Env.Environment.Dispatch | en/research/ReAgent/sources/Environment/environment.py:83-88 | the state after agent k receives the envelope and its calls are performed, and the exception, are exactly DispatchSpec of the state before |
| Env.Environment.Deliver | en/research/ReAgent/sources/Environment/environment.py:78-88 | handing the envelope to the agents along Route, in order, until one raises, gives exactly DeliverSpec of the state before |
| Env.Environment.BroadcastMessage | en/research/ReAgent/sources/Environment/environment.py:55-67 | the state and exception are exactly DeliverSpec along the broadcast route: every agent but the sender, in list order, without recording anything |
| Env.Environment.SendMessage | en/research/ReAgent/sources/Environment/environment.py:69-88 | the state and exception are exactly SendSpec of the state before: one message is recorded, carrying the content, sender and receiver (not the type), whatever the receiver, then it is delivered along Route; the clock advances |
| Env.Environment.CheckpointEnvironment | en/research/ReAgent/sources/Environment/environment.py:90-102 | only key `currentTime` is (over)written, with the pool's list and every agent's state |
| Env.Environment.RestoreAgents | en/research/ReAgent/sources/Environment/environment.py:116-118 | every agent whose name the snapshot records gets that state; the other agents keep theirs |
| Env.Environment.PruneHistoryAfter | en/research/ReAgent/sources/Environment/environment.py:122-124 | the history becomes exactly its entries at or below the target time |
| Env.Environment.RevertEnvironment | en/research/ReAgent/sources/Environment/environment.py:104-124 | no snapshot means no change; otherwise the pool and each recorded agent's state equal the snapshot, the time equals the target, and exactly the keys at most the target remain, unchanged |
| Env.Environment.RaiseConflict | en/research/ReAgent/sources/Environment/environment.py:126-133 | the flag is raised and the details are recorded as given, `None` included |
| Env.Environment.ResolveConflict | en/research/ReAgent/sources/Environment/environment.py:135-153 | reverts to the largest key in [0, currentTime-1], or changes nothing if there is none; in both cases the flag ends false and the details ends None |
| Env.Environment.CheckpointAndStep | en/research/ReAgent/sources/Environment/environment.py:162-170 | the core shared by a time step and a group-chat round: only key currentTime is (over)written with the current state and nothing else changes; a raised conflict is resolved from the state right after that snapshot; the flag ends false |
| Env.Environment.RunTimeStep | en/research/ReAgent/sources/Environment/environment.py:155-170 | the time rises by exactly 1, then CheckpointAndStep runs at the new time: a snapshot there before the agents step, and a raised conflict resolved from that state; the flag ends false |
| Env.Environment.RunUntilStable | en/research/ReAgent/sources/Environment/environment.py:172-186 | with n > 0 the flag ends false; when no conflict is raised on entry, it takes exactly max(n, 0) steps: the time rises by that much, the pool and agents are unchanged, and the history gains exactly keys t+1..t+n, each a snapshot of that state |
| Env.Environment.Start | en/research/ReAgent/sources/Environment/environment.py:188-193 | fifty steps |
| Pipeline.RouteToOne | en/research/ReAgent/sources/Environment/environment.py:81-88 | with pairwise different names, a directed message goes to the one agent with that name |
| Pipeline.EvidenceDistinct | en/research/ReAgent/sources/Agent/agent.py:173 | different sub-questions give different evidence lines |
| Pipeline.DecomposerLeg | en/research/ReAgent/sources/Agent/agent.py:109-124 | the question reaches the decomposer, which changes nothing of its own and starts one retriever call per sub-question |
| Pipeline.RetrieverLeg | en/research/ReAgent/sources/Agent/agent.py:152-166 | a non-empty sub-question reaches the retriever, which sends its evidence to the verifier one level deeper |
| Pipeline.VerifierLeg | en/research/ReAgent/sources/Agent/agent.py:189-214 | evidence without a repeat reaches the verifier, which checkpoints, keeps it among its facts and sends it to the assembler one level deeper |
| Pipeline.AssemblerLeg | en/research/ReAgent/sources/Agent/agent.py:241-256 | verified facts reach the assembler, which adds them to its partial answers and, once there are three, sends the assembled answer to the supervisor |
| Pipeline.SupervisorLeg | en/research/ReAgent/sources/Agent/agent.py:285-303 | a final answer in a dictionary reaches the supervisor and is only recorded |
| Pipeline.AssembleStep | en/research/ReAgent/sources/Agent/agent.py:241-256 | the assembler step as a world: the facts and, once ready, the final answer are recorded, and only the assembler's partial answers change |
| Pipeline.VerifyStep | en/research/ReAgent/sources/Agent/agent.py:189-256 | the verifier step as a world: the evidence is recorded, the verifier checkpointed and holding it, then the assembler step follows; nothing else changes |
| Pipeline.Round | en/research/ReAgent/sources/Agent/agent.py:152-256 | one round of a sub-question ends without an exception: its trace is appended, the clock advances by one per message, the verifier and the assembler hold its evidence, and no other agent changes |
| Pipeline.RoundAt | en/research/ReAgent/sources/Agent/agent.py:109-256 | round i of the decomposer's three calls extends the verifier's facts and the assembler's partial answers by the i-th evidence, and the remaining calls continue from there |
| Pipeline.ThreeRounds | en/research/ReAgent/sources/Agent/agent.py:109-256 | the three rounds all succeed, append the three rounds' ten messages, and leave the three pieces of evidence with the verifier and the assembler |
| Pipeline.PipelineRun | en/research/ReAgent/sources/Agent/agent.py:109-303 | a question to the decomposer of the default five agents ends without an exception at every depth from 4 on; the pool gains exactly the eleven messages of the trace and the clock advances by eleven; the verifier and the assembler hold the three pieces of evidence |
| GroupChat.Clamp | en/research/ReAgent/sources/Environment/groupchat.py:67 | the result is in [0, 1]; a value already inside is unchanged; values outside go to the nearer end |
| GroupChat.NewScore | en/research/ReAgent/sources/Environment/groupchat.py:60-67 | every new score lies in [0, 1] |
| GroupChat.NewScoreMonotone | en/research/ReAgent/sources/Environment/groupchat.py:64-67 | the new score never decreases as the rating increases |
| GroupChat.NeutralRating | en/research/ReAgent/sources/Environment/groupchat.py:64-67 | a rating of 4.5 leaves a score in [0, 1] where it was |
| GroupChat.NewScoreDirection | en/research/ReAgent/sources/Environment/groupchat.py:64-67 | an unclamped update moves the score by exactly (rating − 4.5)/100: up for a higher rating, down for a lower one |
| GroupChat.InitialTrustInRange | en/research/ReAgent/sources/Environment/groupchat.py:46-52 | the initial graph's scores are in [0, 1] |
| GroupChat.SummaryText | en/research/ReAgent/sources/Environment/groupchat.py:78-81 | the summary starts with "Round i Summary:\n", and is only that header for an empty pool |
| GroupChat.SummaryTextSnoc | en/research/ReAgent/sources/Environment/groupchat.py:78-81 | one more pool message adds a newline and its line at the end |
| GroupChat.SummaryTextSingle | en/research/ReAgent/sources/Environment/groupchat.py:78-81 | a single-message pool gives the header and that message's line |
| GroupChat.Summaries | en/research/ReAgent/sources/Environment/groupchat.py:121-123 | entry i is the summary of round i, for i = 0..n-1 |
| GroupChat.SummariesSnoc | en/research/ReAgent/sources/Environment/groupchat.py:121-123 | one more round adds exactly that round's summary at the end |
| GroupChat.HeadersSnoc | en/research/ReAgent/sources/Environment/groupchat.py:113-114 | appending the next round's summary keeps every new entry headed by its round |
| GroupChat.GroupChatEnvironment.constructor | en/research/ReAgent/sources/Environment/groupchat.py:32-40 | the base environment starts at time 0 and clock 0 with an empty history, an empty pool with no snapshots, no conflict and no conflict details, and every agent's local state, partial answers and counter as they were; the trust graph is 0.5 for every ordered pair of distinct names; the discussion history is empty |
| GroupChat.GroupChatEnvironment.InitializeTrustGraph | en/research/ReAgent/sources/Environment/groupchat.py:42-52 | one row per name, holding every other name at 0.5 and no entry for the name itself |
| GroupChat.GroupChatEnvironment.UpdateTrustScore | en/research/ReAgent/sources/Environment/groupchat.py:54-68 | an unknown evaluator raises KeyError and changes nothing; otherwise only entry [evaluator][evaluatee] changes, to NewScore of the old score (0.5 if absent); scores stay in [0, 1] |
| GroupChat.GroupChatEnvironment.RunRound | en/research/ReAgent/sources/Environment/groupchat.py:83-114 | a checkpoint at the current time, which does not advance; a raised conflict is resolved from that state; exactly one summary is appended |
| GroupChat.GroupChatEnvironment.StartDiscussion | en/research/ReAgent/sources/Environment/groupchat.py:116-124 | exactly max(n, 0) entries are appended, entry i headed "Round i Summary:"; without a conflict they are the summaries of rounds 0..n-1 in order |
| GroupChat.GroupChatEnvironment.Start | en/research/ReAgent/sources/Environment/groupchat.py:128-136 | three rounds then twenty steps: the history grows by 3, the time by 20 without a conflict |
| HotpotQAItem.FirstIndexOf | en/research/ReAgent/sources/DataProcess/Hotpotqa.py:51 | `list.index`: the first position holding the title, and absent (ValueError) iff the title is missing |
| HotpotQAItem.PyIndex | en/research/ReAgent/sources/DataProcess/Hotpotqa.py:52 | Python subscripting: defined iff −len ≤ i < len; negative indices count from the end; otherwise IndexError |
| HotpotQAItem.FactText | en/research/ReAgent/sources/DataProcess/Hotpotqa.py:49-52 | an absent title gives ValueError; otherwise the indexed sentence of the first document with that title |
| HotpotQAItem.KnowledgeConcat | en/research/ReAgent/sources/DataProcess/Hotpotqa.py:61-66 | the knowledge of a concatenation is the concatenation of the knowledge, with no separator |
| HotpotQAItem.KnowledgeHasTitles | en/research/ReAgent/sources/DataProcess/Hotpotqa.py:61-66 | each document's title appears where that document's part of the text starts |
| HotpotQAItem.HotpotQA.constructor | en/research/ReAgent/sources/DataProcess/Hotpotqa.py:20-28 | id, type, level, question, answer, context and supporting facts are copied; documents are dealt from the context |
| HotpotQAItem.HotpotQA.DealContext | en/research/ReAgent/sources/DataProcess/Hotpotqa.py:30-39 | one document per context entry, in order, titled by entry[0] and holding entry[1] |
| HotpotQAItem.HotpotQA.DealFacts | en/research/ReAgent/sources/DataProcess/Hotpotqa.py:41-54 | succeeds iff every fact resolves; then it has one entry per fact, entry i being [title_i, FactText of fact i]; otherwise the error is that of the first fact that fails |
| HotpotQAItem.HotpotQA.ToString | en/research/ReAgent/sources/DataProcess/Hotpotqa.py:56-66 | the concatenation over documents of title + "\n" + the sentences joined with "\n-" |
| HotpotQAItem.HotpotQA.GetKnowledge | en/research/ReAgent/sources/DataProcess/Hotpotqa.py:68-77 | the same knowledge text whatever `retrieval` is |
| Scenarios.PoolSnapshotRevert | en/research/ReAgent/sources/Interaction/messagepool.py:108-135 | snapshot, appends, revert gives back the list as it was at the snapshot; a prune keeps only the earlier key |
| Scenarios.AgentCheckpointBacktrack | en/research/ReAgent/sources/Agent/agent.py:50-64 | a change made after the checkpoint is undone by the backtrack |
| Scenarios.DirectedSendThenRevert | en/research/ReAgent/sources/Environment/environment.py:69-124 | an A→B message between two plain agents raises nothing, is recorded once with its sender, receiver and clock value, and a revert to the earlier checkpoint removes it |
| Scenarios.RouteFromA | en/research/ReAgent/sources/Environment/environment.py:60-67 | among A, B and C, a broadcast from A reaches positions 1 and 2 |
| Scenarios.BroadcastFromA | en/research/ReAgent/sources/Environment/environment.py:55-79 | a CONFLICT broadcast from A among three controllers raises nothing, is recorded once, and leaves the counters of A, B and C at 0, 1 and 1 |
| Scenarios.ControllerDispatch | en/research/ReAgent/sources/Agent/agent.py:320-335 | a controller below the threshold handed a CONFLICT counts one more intervention and sends nothing |
| Scenarios.TwoControllers | en/research/ReAgent/sources/Environment/environment.py:60-67 | handing a CONFLICT to two controllers below the threshold raises one counter after the other and sends nothing |
| Scenarios.ConflictAmongControllers | en/research/ReAgent/sources/Environment/environment.py:55-79 | a CONFLICT from A to "ALL" among controllers A, B and C is recorded once, raises B's and C's counters by one and leaves A's |
| Scenarios.PipelineQuestion | en/research/ReAgent/sources/Environment/environment.py:69-88 | a question to the decomposer of five fresh default agents at depth 5 raises nothing and leaves exactly the eleven-message trace, with the evidence held by the verifier and by the assembler |
| Scenarios.QuietSteps | en/research/ReAgent/sources/Environment/environment.py:155-186 | three steps from a fresh environment reach time 3, with snapshots at exactly 1, 2 and 3, each holding the empty pool |

## Left out

- Printing and output only: `show_messages`, the prints in `start_discussion` and the supervisor's print of the final answer are not modelled.
- Clock and identifiers: `time.time()` and `uuid4()` are replaced by a clock value and a fresh id passed to `Messages.NewMessage`. The environment supplies them from its counter `ticks`. Timestamps are integers, so `%.2f` always prints `.00`.
- Messages.Repr: `str()` of a string written inside a dictionary is quoted with single quotes and gets no escaping; Python escapes some characters there.
- Messages.TruncatedContent: slicing a dictionary is modelled as TypeError, which is what Python before 3.12 raises. From 3.12 on, Python raises KeyError.
- Payloads: content is text or a dictionary whose values are strings or lists of strings. These are the only shapes the pipeline sends. Other Python objects are not modelled.
- Trust scores: they are `real`, so the arithmetic is exact and not IEEE floating point.
- `args`: the environment's and group chat's configuration object is never read by the modelled code and is left out. So is `knowledge_source` of the retriever.
- Env.Environment.SendMessage: re-entrant delivery is bounded by `depth`. A chain nested deeper stops with `DeliveryDepthExceeded`, and Python has no such bound. For the five pipeline agents under their default names, Pipeline.PipelineRun proves that a question ends without an exception at every depth from 4 on. Under other names chains can be unbounded. For example, a verifier named "SupervisorAgent" receives the assembler's final INFORM and sends an empty ASSERT back, and an assembler that is still ready answers again. The model stops such a chain only at the depth bound.
- Payload dictionaries are sequences of key-value pairs, so they can hold a key twice, which a Python dict cannot. The payloads the pipeline builds have distinct keys. `Lookup` returns the first entry with the key, and the 33-entry limit of TruncatedContent counts entries.
- Env.Environment.RevertEnvironment: the later snapshots are deleted in an unspecified order rather than in sorted order. The resulting history is the same.
- Revert restores only agents' `local_state`, as the source does. The assembler's partial answers and the controller's counter are not part of the snapshot.
- Agents.Agent.RunOneStep: every modelled role's step does nothing, as in the source. The LLM-driven agents (moderators, thinker, black sheep, human) and `agent.py` after line 335 are not part of this model.
- The process-wide `message_pool` singleton and its helpers (`get_pool`, `update_pool`) are not modelled. The pool is an object owned by the environment.
- The commented-out rating loop in `run_round` is not code and is not modelled.
- HotpotQA samples are a typed record. A missing dictionary key in the sample fails in Python with KeyError, and that case is not modelled. `DataProcess/Document.py` is not part of this model: a `Document` is taken to store its title and context as given.
- `backend/api.py`, `Dataset.py` and `main.py` (network calls, file reading, wiring) are not part of this model.

## Differences between the documentation and the code

The code is followed in both cases below.

- Getters: the documentation speaks of `"ALL"` as the sentinel that selects every message. In the code the sentinel of `get_visibile_messages` and `get_ones_messages` is lower-case `"all"`. Upper-case `"ALL"` is only the broadcast marker on messages.
- Trust update: the documentation computes a shift of +0.036 for a rating of 9. The code's rule, `0.1 * rating - 0.45` scaled by 0.1, gives +0.045.
