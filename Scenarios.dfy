/** End-to-end uses of the coordination layer on small concrete setups: each method builds
    fresh objects, drives them through a short sequence of operations and returns what it
    observes, and its contract states the outcome the layer guarantees. */
module Scenarios {
  import opened Wrappers
  import opened Messages
  import opened Pool
  import opened Agents
  import opened Env
  import opened Pipeline

  /** Snapshot after one append, two more appends, revert: the list is back to the one message
      and the snapshot store holds exactly that one key. A second snapshot at another key and a
      prune below it leave only the first key. */
  method PoolSnapshotRevert(m1: Message, m2: Message, m3: Message)
    returns (restored: seq<Message>, snapshots: map<int, seq<Message>>, pruned: map<int, seq<Message>>)
    ensures restored == [m1]
    ensures snapshots == map[0 := [m1]]
    ensures pruned == map[0 := [m1]]
  {
    var p := new MessagePool();
    p.UpdateMessage(m1);
    p.SnapshotState(0);
    p.UpdateMessage(m2);
    p.UpdateMessage(m3);
    p.RevertState(0);
    restored := p.messages;
    snapshots := p.historySnapshots;
    p.UpdateMessage(m2);
    p.SnapshotState(1);
    p.SnapshotState(2);
    p.PruneSnapshotsAfter(0);
    pruned := p.historySnapshots;
  }

  /** An agent checkpoints, changes its facts, then backtracks: its state is exactly the one
      before the checkpoint. */
  method AgentCheckpointBacktrack(facts: seq<string>, extra: string) returns (before: LocalState, after: LocalState)
    ensures before == LocalState(facts, [], []) && after == before
  {
    var a := new Agent("A", BaseRole, null);
    a.localState := LocalState(facts, [], []);
    before := a.localState;
    a.CheckpointState();
    a.localState := LocalState(a.localState.verifiedFacts + [extra], a.localState.history, a.localState.backtrackStack);
    a.LocalBacktrack();
    after := a.localState;
  }

  /** A send no receiver reacts to raises nothing and only appends the message, stamped with
      the clock, to the pool. */
  method SendUnheard(env: Environment, sender: string, receiver: string, msgType: string, content: Payload)
    returns (err: Option<PyException>)
    requires env.Valid() && AllIgnore(env.people, Envelope(sender, receiver, msgType, content))
    modifies env`ticks, env.pool`messages, env.agents`localState, env.agents`partialAnswers, env.agents`interventionCount
    ensures env.Valid() && err == None
    ensures env.pool.messages == old(env.pool.messages) + [Stamped(content, sender, receiver, old(env.ticks))]
  {
    ghost var w0 := env.State();
    err := env.SendMessage(sender, receiver, msgType, content, 5);
    SendIgnored(env.people, w0, sender, receiver, msgType, content, 5);
  }

  /** Two plain agents: a directed message from A to B is recorded once, with A as sender, B as
      receiver and the first clock value, and raises nothing; reverting to the checkpoint taken
      before it empties the pool again and leaves the time at 0. */
  method DirectedSendThenRevert(text: string)
    returns (err: Option<PyException>, sent: seq<Message>, reverted: seq<Message>, time: int)
    ensures err == None
    ensures sent == [Message(Text(text), Some("A"), To("B"), 0, MintId(0))]
    ensures reverted == [] && time == 0
  {
    var a := new Agent("A", BaseRole, null);
    var b := new Agent("B", BaseRole, null);
    var env := new Environment([a, b]);
    env.CheckpointEnvironment();
    assert AllIgnore(env.people, Envelope("A", "B", "INFORM", Text(text)));
    err := SendUnheard(env, "A", "B", "INFORM", Text(text));
    sent := env.pool.messages;
    env.RevertEnvironment(0);
    reverted := env.pool.messages;
    time := env.currentTime;
  }

  /** Among A, B and C, a broadcast from A is routed to positions 1 and 2. */
  lemma RouteFromA()
    ensures Route(["A", "B", "C"], "A", Broadcast) == [1, 2]
  {
    var names := ["A", "B", "C"];
    assert names[..1][..0] == [];
    assert Route(names[..1], "A", Broadcast) == [];
    assert names[..2][..1] == names[..1];
    assert Route(names[..2], "A", Broadcast) == [1];
    assert names[..|names| - 1] == names[..2];
  }

  /** A controller below the threshold that is handed a CONFLICT counts one more intervention
      and sends nothing. */
  lemma ControllerDispatch(people: seq<Agent>, w: World, k: nat, envelope: Envelope, depth: nat)
    requires Covers(people, w) && k < |people| && people[k].role == Controller
    requires envelope.msgType == "CONFLICT" && w.vars[people[k]].interventionCount < ChallengeThreshold
    ensures var v := w.vars[people[k]];
            DispatchSpec(people, w, k, envelope, depth)
            == Outcome(w.(vars := w.vars[people[k] := v.(interventionCount := v.interventionCount + 1)]), None)
  {
    var v := w.vars[people[k]];
    assert React(Controller, people[k].name, true, v, envelope) == Reaction(v.(interventionCount := v.interventionCount + 1), [], None);
  }

  /** Delivery along a route hands the envelope to its first position and, when that raises
      nothing, goes on along the rest. */
  lemma DeliverFirst(people: seq<Agent>, w: World, positions: seq<nat>, envelope: Envelope, depth: nat)
    requires Covers(people, w) && OnRoster(positions, |people|) && positions != []
    ensures var o1 := DispatchSpec(people, w, positions[0], envelope, depth);
            DeliverSpec(people, w, positions, envelope, depth)
            == if o1.err.Some? then o1 else DeliverSpec(people, o1.world, positions[1..], envelope, depth)
  {
  }

  /** Two controllers at positions 1 and 2, both below the threshold, handed a CONFLICT in turn:
      each counts one more intervention, nobody sends anything and nothing raises. */
  lemma TwoControllers(people: seq<Agent>, w: World, envelope: Envelope, depth: nat)
    requires |people| == 3 && Covers(people, w) && people[1] != people[2]
    requires people[1].role == Controller && people[2].role == Controller && envelope.msgType == "CONFLICT"
    requires w.vars[people[1]].interventionCount < ChallengeThreshold
    requires w.vars[people[2]].interventionCount < ChallengeThreshold
    ensures var b := w.vars[people[1]];
            var c := w.vars[people[2]];
            DeliverSpec(people, w, [1, 2], envelope, depth)
            == Outcome(w.(vars := w.vars[people[1] := b.(interventionCount := b.interventionCount + 1)]
                                        [people[2] := c.(interventionCount := c.interventionCount + 1)]), None)
  {
    var b := w.vars[people[1]];
    var w2 := w.(vars := w.vars[people[1] := b.(interventionCount := b.interventionCount + 1)]);
    ControllerDispatch(people, w, 1, envelope, depth);
    ControllerDispatch(people, w2, 2, envelope, depth);
    DeliverToOne(people, w2, 2, envelope, depth);
    DeliverFirst(people, w, [1, 2], envelope, depth);
    assert [1, 2][0] == 1 && [1, 2][1..] == [2];
  }

  /** Agents named A, B and C in this order: a broadcast from A is routed to B and C. */
  lemma RouteFromABC(people: seq<Agent>)
    requires |people| == 3 && people[0].name == "A" && people[1].name == "B" && people[2].name == "C"
    ensures Route(NamesOf(people), "A", Broadcast) == [1, 2]
  {
    assert NamesOf(people) == ["A", "B", "C"];
    RouteFromA();
  }

  /** A send records the message, then delivers it along the route of its receiver. */
  lemma SendDelivers(people: seq<Agent>, w: World, sender: string, receiver: string, msgType: string,
                     content: Payload, depth: nat)
    requires Covers(people, w)
    ensures SendSpec(people, w, sender, receiver, msgType, content, depth)
         == DeliverSpec(people, Recorded(w, sender, receiver, content), Route(NamesOf(people), sender, receiver),
                        Envelope(sender, receiver, msgType, content), depth)
  {
  }

  /** Three controllers A, B and C whose counts are below the threshold: a CONFLICT broadcast
      from A raises nothing and leaves the world `w2`: the message recorded once, B and C each
      counting one more intervention, and A, the sender, left alone. */
  lemma ConflictAmongControllers(people: seq<Agent>, w: World, content: Payload, depth: nat) returns (w2: World)
    requires |people| == 3 && Covers(people, w)
    requires people[0].name == "A" && people[1].name == "B" && people[2].name == "C"
    requires people[1].role == Controller && people[2].role == Controller
    requires w.vars[people[1]].interventionCount < ChallengeThreshold
    requires w.vars[people[2]].interventionCount < ChallengeThreshold
    ensures SendSpec(people, w, "A", Broadcast, "CONFLICT", content, depth) == Outcome(w2, None)
    ensures w2.pool == w.pool + [Stamped(content, "A", Broadcast, w.ticks)]
    ensures w2.vars[people[0]].interventionCount == w.vars[people[0]].interventionCount
    ensures w2.vars[people[1]].interventionCount == w.vars[people[1]].interventionCount + 1
    ensures w2.vars[people[2]].interventionCount == w.vars[people[2]].interventionCount + 1
  {
    var w1 := Recorded(w, "A", Broadcast, content);
    var envelope := Envelope("A", Broadcast, "CONFLICT", content);
    RouteFromABC(people);
    SendDelivers(people, w, "A", Broadcast, "CONFLICT", content, depth);
    assert people[0] != people[1] && people[0] != people[2] && people[1] != people[2] by {
      assert people[0].name != people[1].name && people[0].name != people[2].name && people[1].name != people[2].name;
    }
    TwoControllers(people, w1, envelope, depth);
    var b := w.vars[people[1]];
    var c := w.vars[people[2]];
    w2 := w1.(vars := w1.vars[people[1] := b.(interventionCount := b.interventionCount + 1)]
                             [people[2] := c.(interventionCount := c.interventionCount + 1)]);
  }

  /** Three controllers: a CONFLICT broadcast from A is recorded once, raises nothing, and leaves
      the intervention counts of A, B and C at 0, 1 and 1. */
  method BroadcastFromA(content: Payload) returns (err: Option<PyException>, sent: seq<Message>, counts: seq<int>)
    ensures err == None
    ensures sent == [Message(content, Some("A"), To(Broadcast), 0, MintId(0))]
    ensures counts == [0, 1, 1]
  {
    var a := new Agent("A", Controller, null);
    var b := new Agent("B", Controller, null);
    var c := new Agent("C", Controller, null);
    var env := new Environment([a, b, c]);
    ghost var w0 := env.State();
    assert w0.pool == [] && w0.ticks == 0;
    assert env.people[0] == a && env.people[1] == b && env.people[2] == c;
    assert w0.vars[a].interventionCount == 0 && w0.vars[b].interventionCount == 0 && w0.vars[c].interventionCount == 0;
    err := env.SendMessage("A", Broadcast, "CONFLICT", content, 5);
    ghost var w2 := ConflictAmongControllers(env.people, w0, content, 5);
    sent := env.pool.messages;
    assert w2 == env.State();
    assert a.interventionCount == w2.vars[a].interventionCount == 0;
    assert b.interventionCount == w2.vars[b].interventionCount == 1;
    assert c.interventionCount == w2.vars[c].interventionCount == 1;
    counts := [a.interventionCount, b.interventionCount, c.interventionCount];
  }

  /** A question from `user` to the decomposer of a fresh default pipeline, at depth 5: the
      send raises nothing, the pool holds exactly the eleven messages of the pipeline's trace,
      and the verifier and the assembler both hold the three pieces of evidence. */
  method PipelineQuestion(user: string, question: string)
    returns (err: Option<PyException>, pool: seq<Message>, facts: seq<string>, answers: seq<string>)
    ensures err == None
    ensures pool == PipelineTrace(user, question, 0)
    ensures facts == Evidence(question) && answers == Evidence(question)
  {
    var d := new Agent(DecomposerName, Decomposer, null);
    var r := new Agent(RetrieverName, Retriever, null);
    var v := new Agent(VerifierName, Verifier, null);
    var a := new Agent(AssemblerName, Assembler, null);
    var s := new Agent(SupervisorName, Supervisor, null);
    var env := new Environment([d, r, v, a, s]);
    ghost var w0 := env.State();
    assert DefaultPipeline(env.people);
    assert w0.vars[v] == v.Vars() && w0.vars[a] == a.Vars();
    err := env.SendMessage(user, DecomposerName, "INFORM", Text(question), 5);
    ghost var w3 := PipelineRun(env.people, w0, user, question, 5);
    pool := env.pool.messages;
    assert env.State().vars[v] == v.Vars() && env.State().vars[a] == a.Vars();
    facts := v.localState.verifiedFacts;
    answers := a.partialAnswers;
  }

  /** A fresh environment run for three quiet steps sits at time 3 with snapshots at 1, 2 and 3,
      each holding the empty pool. */
  method QuietSteps() returns (time: int, keys: set<int>, pools: seq<seq<Message>>)
    ensures time == 3 && keys == {1, 2, 3}
    ensures pools == [[], [], []]
  {
    var a := new Agent("A", BaseRole, null);
    var env := new Environment([a]);
    env.RunUntilStable(3);
    time := env.currentTime;
    keys := env.globalHistory.Keys;
    assert 1 in keys && 2 in keys && 3 in keys;
    pools := [env.globalHistory[1].messagePool, env.globalHistory[2].messagePool, env.globalHistory[3].messagePool];
  }
}
