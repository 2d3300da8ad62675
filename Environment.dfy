/** The synchronous message bus and global coordinator: routing of broadcast and directed
    messages, global snapshots of the pool and of every agent's local state, revert, conflict
    resolution by a backward search, and the time-step driver. */
module Env {
  import opened Wrappers
  import opened PyText
  import opened Messages
  import opened Pool
  import opened Agents

  /** A global checkpoint: the time it was taken at, the pool's list, and the local state of
      each agent keyed by name. */
  datatype GlobalSnapshot = GlobalSnapshot(time: int, messagePool: seq<Message>, agentsState: map<string, LocalState>)

  /** Whether an agent called `name` gets a message from `sender` addressed to `receiver`:
      a broadcast reaches everyone but the sender, a directed message everyone of that name. */
  predicate Receives(name: string, sender: string, receiver: string)
  {
    if receiver == Broadcast then name != sender else name == receiver
  }

  /** The positions, in list order, of the agents that get the message. */
  function Route(names: seq<string>, sender: string, receiver: string): (r: seq<nat>)
    ensures forall k :: 0 <= k < |r| ==> r[k] < |names|
    ensures forall j, k :: 0 <= j < k < |r| ==> r[j] < r[k]
    ensures forall i :: 0 <= i < |names| ==> (i in r <==> Receives(names[i], sender, receiver))
  {
    if names == [] then []
    else
      var init := names[..|names| - 1];
      var r := Route(init, sender, receiver);
      assert forall i :: 0 <= i < |init| ==> init[i] == names[i];
      r + if Receives(names[|names| - 1], sender, receiver) then [|names| - 1] else []
  }

  /** Extending the agents by one extends the route by that agent's position when it receives. */
  lemma RouteStep(names: seq<string>, k: nat, sender: string, receiver: string)
    requires k < |names|
    ensures Route(names[..k + 1], sender, receiver)
         == Route(names[..k], sender, receiver) + if Receives(names[k], sender, receiver) then [k] else []
  {
    assert names[..k + 1][..k] == names[..k];
  }

  /** The route over a prefix of the agents is a prefix of the whole route. */
  lemma {:induction false} RoutePrefix(names: seq<string>, k: nat, sender: string, receiver: string)
    requires k <= |names|
    ensures Route(names[..k], sender, receiver) <= Route(names, sender, receiver)
    decreases |names| - k
  {
    if k < |names| {
      var init := names[..|names| - 1];
      assert init[..k] == names[..k];
      RoutePrefix(init, k, sender, receiver);
    } else {
      assert names[..k] == names;
    }
  }

  /** The sender never gets its own broadcast, and every other agent gets it exactly once. */
  lemma BroadcastRoute(names: seq<string>, sender: string, i: nat)
    requires i < |names|
    ensures i in Route(names, sender, Broadcast) <==> names[i] != sender
    ensures multiset(Route(names, sender, Broadcast))[i] == if names[i] != sender then 1 else 0
  {
    var r := Route(names, sender, Broadcast);
    IncreasingDistinct(r, i);
  }

  /** An increasing list holds each value at most once. */
  lemma {:induction false} IncreasingDistinct(r: seq<nat>, i: nat)
    requires forall j, k :: 0 <= j < k < |r| ==> r[j] < r[k]
    ensures multiset(r)[i] == if i in r then 1 else 0
  {
    if r != [] {
      var t := r[1..];
      assert r == [r[0]] + t;
      IncreasingDistinct(t, i);
    }
  }

  /** The largest key in `[0, f]`, or None. */
  function LatestAtOrBelow(keys: set<int>, f: int): (r: Option<int>)
    ensures r.Some? ==> 0 <= r.value <= f && r.value in keys
    ensures r.Some? ==> forall j :: r.value < j <= f ==> j !in keys
    ensures r.None? ==> forall j :: 0 <= j <= f ==> j !in keys
    decreases f + 1
  {
    if f < 0 then None else if f in keys then Some(f) else LatestAtOrBelow(keys, f - 1)
  }

  /** Keys above the search bound do not affect the search. */
  lemma {:induction false} LatestIgnoresAbove(keys: set<int>, f: int, extra: int)
    requires extra > f
    ensures LatestAtOrBelow(keys + {extra}, f) == LatestAtOrBelow(keys, f)
    decreases f + 1
  {
    if f >= 0 && f !in keys {
      LatestIgnoresAbove(keys, f - 1, extra);
    }
  }

  /** The history left after discarding every snapshot later than `t`. */
  function PrunedAfter(history: map<int, GlobalSnapshot>, t: int): (r: map<int, GlobalSnapshot>)
    ensures forall k :: k in r <==> k in history && k <= t
    ensures forall k | k in r :: r[k] == history[k]
  {
    map k | k in history && k <= t :: history[k]
  }

  /** `history` with one snapshot of the same pool list and agent states added at every time
      in `(from, to]`. */
  function WithSnapshots(history: map<int, GlobalSnapshot>, from: int, to: int, messages: seq<Message>,
                         states: map<string, LocalState>): (r: map<int, GlobalSnapshot>)
    ensures forall t :: t in r <==> t in history || from < t <= to
    ensures forall t | from < t <= to :: r[t] == GlobalSnapshot(t, messages, states)
    ensures forall t | t in history && !(from < t <= to) :: r[t] == history[t]
  {
    history + map t | from < t <= to :: GlobalSnapshot(t, messages, states)
  }

  /** One more step adds exactly the snapshot at the next time. */
  lemma WithSnapshotsStep(history: map<int, GlobalSnapshot>, from: int, to: int, messages: seq<Message>,
                          states: map<string, LocalState>)
    requires from <= to
    ensures WithSnapshots(history, from, to + 1, messages, states)
         == WithSnapshots(history, from, to, messages, states)[to + 1 := GlobalSnapshot(to + 1, messages, states)]
  {
  }

  /** The local states as the checkpoint records them: one entry per name, where a later agent
      of the same name overwrites an earlier one. */
  function AgentStates(ps: seq<Agent>): map<string, LocalState>
    reads ps`localState
  {
    if ps == [] then map[]
    else AgentStates(ps[..|ps| - 1])[ps[|ps| - 1].name := ps[|ps| - 1].localState]
  }

  /** The recorded names are exactly the agents' names. */
  lemma {:induction false} AgentStatesNames(ps: seq<Agent>)
    ensures AgentStates(ps).Keys == set k | 0 <= k < |ps| :: ps[k].name
  {
    if ps != [] {
      var init := ps[..|ps| - 1];
      AgentStatesNames(init);
      assert (set k | 0 <= k < |ps| :: ps[k].name) == (set k | 0 <= k < |init| :: init[k].name) + {ps[|ps| - 1].name} by {
        assert forall k :: 0 <= k < |init| ==> init[k] == ps[k];
      }
    }
  }

  /** A name holds the state of the last agent carrying it. */
  lemma {:induction false} AgentStatesLastOfName(ps: seq<Agent>, k: nat)
    requires k < |ps| && LastOfName(ps, k)
    ensures ps[k].name in AgentStates(ps) && AgentStates(ps)[ps[k].name] == ps[k].localState
  {
    if k < |ps| - 1 {
      var init := ps[..|ps| - 1];
      assert ps[|ps| - 1].name != ps[k].name;
      assert init[k] == ps[k];
      assert LastOfName(init, k) by {
        forall j | k < j < |init| ensures init[j].name != init[k].name {
          assert init[j] == ps[j];
        }
      }
      AgentStatesLastOfName(init, k);
    }
  }

  /** No agent after position `k` has the name of the agent at `k`. */
  predicate LastOfName(ps: seq<Agent>, k: nat)
    requires k < |ps|
  {
    forall j :: k < j < |ps| ==> ps[j].name != ps[k].name
  }

  /** The counter-based stand-in for `uuid4()`: one identifier per message created by the bus. */
  function MintId(tick: nat): (id: string)
    ensures |id| > 4 && id[..4] == "msg-"
  {
    "msg-" + NatToString(tick)
  }

  /** Different clock values give different identifiers. */
  lemma MintIdInjective(a: nat, b: nat)
    ensures MintId(a) == MintId(b) ==> a == b
  {
    if MintId(a) == MintId(b) {
      assert MintId(a)[4..] == NatToString(a) && MintId(b)[4..] == NatToString(b);
      NatToStringInjective(a, b);
    }
  }

  /** The agents' names in list order. */
  function NamesOf(people: seq<Agent>): (r: seq<string>)
    ensures |r| == |people| && forall k :: 0 <= k < |people| ==> r[k] == people[k].name
  {
    seq(|people|, k requires 0 <= k < |people| => people[k].name)
  }

  /** Every agent that would get the envelope ignores it. */
  predicate AllIgnore(people: seq<Agent>, envelope: Envelope)
  {
    forall k :: 0 <= k < |people| && Receives(people[k].name, envelope.sender, envelope.receiver) ==>
      Ignores(people[k].role, envelope.msgType, envelope.content)
  }

  /** What delivery can change, as a value: each agent's fields, the pool's list and the clock. */
  datatype World = World(vars: map<Agent, AgentVars>, pool: seq<Message>, ticks: nat)

  /** Where a delivery ends: the world it leaves and the exception that stopped it, if any. */
  datatype Outcome = Outcome(world: World, err: Option<PyException>)

  /** Every position is one of the `n` agents. */
  predicate OnRoster(positions: seq<nat>, n: nat)
  {
    forall j :: 0 <= j < |positions| ==> positions[j] < n
  }

  /** The part of the envelope's route left once the agents before position `k` are visited. */
  function RouteFrom(people: seq<Agent>, envelope: Envelope, k: nat): (r: seq<nat>)
    requires k <= |people|
    ensures OnRoster(r, |people|)
    ensures k == 0 ==> r == Route(NamesOf(people), envelope.sender, envelope.receiver)
    ensures k == |people| ==> r == []
  {
    var names := NamesOf(people);
    RoutePrefix(names, k, envelope.sender, envelope.receiver);
    assert names[..0] == [] && names[..|names|] == names;
    Route(names, envelope.sender, envelope.receiver)[|Route(names[..k], envelope.sender, envelope.receiver)|..]
  }

  /** The world holds the fields of every listed agent. */
  predicate Covers(people: seq<Agent>, w: World)
  {
    forall a | a in people :: a in w.vars
  }

  /** The record `send_message` makes at clock value `t`. */
  function Stamped(content: Payload, sender: string, receiver: string, t: nat): Message
  {
    Message(content, Some(sender), To(receiver), t, MintId(t))
  }

  /** The world after the bus records one sent message and advances its clock. */
  function Recorded(w: World, sender: string, receiver: string, content: Payload): World
  {
    w.(pool := w.pool + [Stamped(content, sender, receiver, w.ticks)], ticks := w.ticks + 1)
  }

  /** `w2` can follow `w` by delivery: the same agents, the pool only appended to, and one clock
      value per appended message, used in order as its timestamp and in its identifier. */
  predicate Extends(w: World, w2: World)
  {
    && w2.vars.Keys == w.vars.Keys
    && w.pool <= w2.pool
    && w2.ticks == w.ticks + (|w2.pool| - |w.pool|)
    && forall j | |w.pool| <= j < |w2.pool| ::
         w2.pool[j].timestamp == w.ticks + (j - |w.pool|) && w2.pool[j].msgId == MintId(w.ticks + (j - |w.pool|))
  }

  lemma ExtendsTrans(w1: World, w2: World, w3: World)
    requires Extends(w1, w2) && Extends(w2, w3)
    ensures Extends(w1, w3)
  {
    forall j | |w1.pool| <= j < |w3.pool|
      ensures w3.pool[j].timestamp == w1.ticks + (j - |w1.pool|) && w3.pool[j].msgId == MintId(w1.ticks + (j - |w1.pool|))
    {
      if j < |w2.pool| {
        assert w3.pool[j] == w2.pool[j];
      }
    }
  }

  /** The messages a delivery appends carry pairwise different identifiers, none of them minted
      from a clock value used before it started. */
  lemma FreshIds(w: World, w2: World)
    requires Extends(w, w2)
    ensures forall i, j | |w.pool| <= i < j < |w2.pool| :: w2.pool[i].msgId != w2.pool[j].msgId
    ensures forall j, t | |w.pool| <= j < |w2.pool| && 0 <= t < w.ticks :: w2.pool[j].msgId != MintId(t)
  {
    forall i, j | |w.pool| <= i < j < |w2.pool| ensures w2.pool[i].msgId != w2.pool[j].msgId {
      MintIdInjective(w.ticks + (i - |w.pool|), w.ticks + (j - |w.pool|));
    }
    forall j, t | |w.pool| <= j < |w2.pool| && 0 <= t < w.ticks ensures w2.pool[j].msgId != MintId(t) {
      MintIdInjective(w.ticks + (j - |w.pool|), t);
    }
  }

  /** `send_message` on the world `w`: the message is recorded, then handed to every agent the
      route selects (for receiver "ALL" this is `broadcast_message`). */
  function SendSpec(people: seq<Agent>, w: World, sender: string, receiver: string, msgType: string, content: Payload,
                    depth: nat): (o: Outcome)
    requires Covers(people, w)
    ensures Extends(w, o.world) && |o.world.pool| > |w.pool|
    ensures o.world.pool[|w.pool|] == Stamped(content, sender, receiver, w.ticks)
    decreases depth, 3, 0
  {
    var w1 := Recorded(w, sender, receiver, content);
    assert Extends(w, w1) && w1.pool[|w.pool|] == Stamped(content, sender, receiver, w.ticks);
    var o := DeliverSpec(people, w1, Route(NamesOf(people), sender, receiver), Envelope(sender, receiver, msgType, content), depth);
    ExtendsTrans(w, w1, o.world);
    assert o.world.pool[|w.pool|] == w1.pool[|w.pool|];
    o
  }

  /** Hands the envelope to the agents at `positions`, in order, until one raises. */
  function DeliverSpec(people: seq<Agent>, w: World, positions: seq<nat>, envelope: Envelope, depth: nat): (o: Outcome)
    requires Covers(people, w) && OnRoster(positions, |people|)
    ensures Extends(w, o.world)
    decreases depth, 2, |positions|
  {
    if positions == [] then Outcome(w, None)
    else
      var o1 := DispatchSpec(people, w, positions[0], envelope, depth);
      if o1.err.Some? then o1
      else
        var o2 := DeliverSpec(people, o1.world, positions[1..], envelope, depth);
        ExtendsTrans(w, o1.world, o2.world);
        o2
  }

  /** Agent `k` reacts to the envelope, and the bus performs the calls it makes. */
  function DispatchSpec(people: seq<Agent>, w: World, k: nat, envelope: Envelope, depth: nat): (o: Outcome)
    requires Covers(people, w) && k < |people|
    ensures Extends(w, o.world)
    decreases depth, 1, 0
  {
    var a := people[k];
    var r := React(a.role, a.name, true, w.vars[a], envelope);
    var w1 := w.(vars := w.vars[a := r.vars]);
    if r.err.Some? then Outcome(w1, r.err) else PerformCalls(people, w1, r.calls, depth)
  }

  /** Performs an agent's calls one level deeper, in order, until one raises; at depth 0 a
      pending call fails with DeliveryDepthExceeded. */
  function PerformCalls(people: seq<Agent>, w: World, calls: seq<BusCall>, depth: nat): (o: Outcome)
    requires Covers(people, w)
    ensures Extends(w, o.world)
    decreases depth, 0, |calls|
  {
    if calls == [] then Outcome(w, None)
    else if depth == 0 then Outcome(w, Some(DeliveryDepthExceeded))
    else
      var c := calls[0];
      var o1 := SendSpec(people, w, c.sender, c.receiver, c.msgType, c.content, depth - 1);
      if o1.err.Some? then o1
      else
        var o2 := PerformCalls(people, o1.world, calls[1..], depth);
        ExtendsTrans(w, o1.world, o2.world);
        o2
  }

  /** One agent further along the list: the route gains that agent's position exactly when it
      receives the envelope, and the delivery to the rest of the route then starts with it. */
  lemma DeliverStep(people: seq<Agent>, w: World, k: nat, envelope: Envelope, depth: nat)
    requires Covers(people, w) && k < |people|
    ensures !Receives(people[k].name, envelope.sender, envelope.receiver) ==>
              RouteFrom(people, envelope, k + 1) == RouteFrom(people, envelope, k)
    ensures Receives(people[k].name, envelope.sender, envelope.receiver) ==>
              DeliverSpec(people, w, RouteFrom(people, envelope, k), envelope, depth)
              == var o1 := DispatchSpec(people, w, k, envelope, depth);
                 if o1.err.Some? then o1 else DeliverSpec(people, o1.world, RouteFrom(people, envelope, k + 1), envelope, depth)
  {
    var names := NamesOf(people);
    var route := Route(names, envelope.sender, envelope.receiver);
    RouteStep(names, k, envelope.sender, envelope.receiver);
    RoutePrefix(names, k, envelope.sender, envelope.receiver);
    RoutePrefix(names, k + 1, envelope.sender, envelope.receiver);
    var done := |Route(names[..k], envelope.sender, envelope.receiver)|;
    assert RouteFrom(people, envelope, k) == route[done..];
    if Receives(people[k].name, envelope.sender, envelope.receiver) {
      assert RouteFrom(people, envelope, k + 1) == route[done + 1..];
      assert route[done..][0] == k && route[done..][1..] == route[done + 1..];
    }
  }

  /** The first of an agent's pending calls is sent one level deeper, then the rest follow:
      given the outcome `o1` of that send, the outcome of all of them is `o1` itself when it
      raised and the outcome of the rest from `o1`'s world otherwise. */
  lemma PerformStep(people: seq<Agent>, w: World, calls: seq<BusCall>, j: nat, depth: nat, o1: Outcome)
    requires Covers(people, w) && j < |calls| && depth > 0
    requires o1 == SendSpec(people, w, calls[j].sender, calls[j].receiver, calls[j].msgType, calls[j].content, depth - 1)
    ensures Covers(people, o1.world)
    ensures o1.err.Some? ==> PerformCalls(people, w, calls[j..], depth) == o1
    ensures o1.err.None? ==> PerformCalls(people, w, calls[j..], depth) == PerformCalls(people, o1.world, calls[j + 1..], depth)
  {
    assert calls[j..][0] == calls[j] && calls[j..][1..] == calls[j + 1..];
  }

  /** Handing an envelope to agents that all ignore it changes nothing. */
  lemma {:induction false} DeliverIgnored(people: seq<Agent>, w: World, positions: seq<nat>, envelope: Envelope, depth: nat)
    requires Covers(people, w) && OnRoster(positions, |people|)
    requires forall j :: 0 <= j < |positions| ==> Ignores(people[positions[j]].role, envelope.msgType, envelope.content)
    ensures DeliverSpec(people, w, positions, envelope, depth) == Outcome(w, None)
    decreases |positions|
  {
    if positions != [] {
      var a := people[positions[0]];
      assert React(a.role, a.name, true, w.vars[a], envelope) == Reaction(w.vars[a], [], None);
      assert w.(vars := w.vars[a := w.vars[a]]) == w;
      assert DispatchSpec(people, w, positions[0], envelope, depth) == Outcome(w, None);
      DeliverIgnored(people, w, positions[1..], envelope, depth);
    }
  }

  /** A send that every receiver ignores only records its message. */
  lemma SendIgnored(people: seq<Agent>, w: World, sender: string, receiver: string, msgType: string, content: Payload,
                    depth: nat)
    requires Covers(people, w) && AllIgnore(people, Envelope(sender, receiver, msgType, content))
    ensures SendSpec(people, w, sender, receiver, msgType, content, depth) == Outcome(Recorded(w, sender, receiver, content), None)
  {
    var names := NamesOf(people);
    DeliverIgnored(people, Recorded(w, sender, receiver, content), Route(names, sender, receiver),
                   Envelope(sender, receiver, msgType, content), depth);
  }

  class Environment {
    const people: seq<Agent>
    /** The agents as a set, for frames. */
    ghost const agents: set<Agent>
    const n: nat
    const pool: MessagePool
    var currentTime: int
    var globalHistory: map<int, GlobalSnapshot>
    var globalConflictRaised: bool
    var conflictDetails: Option<Payload>
    /** The abstract clock that stamps the messages the bus creates and mints their ids. */
    var ticks: nat

    /** Every agent sends through this bus, and the history holds snapshots only at times
        between 0 and the current time, each keyed by the time it records. */
    ghost predicate Valid()
      reads this`currentTime, this`globalHistory, agents`messageBus
    {
      && agents == (set a | a in people)
      && n == |people|
      && (forall a | a in agents :: a.messageBus == this)
      && 0 <= currentTime
      && (forall t | t in globalHistory :: 0 <= t <= currentTime && globalHistory[t].time == t)
    }

    /** The snapshot `checkpoint_environment` would take now, labelled with time `t`. */
    function SnapshotAt(t: int): GlobalSnapshot
      reads pool`messages, people`localState
    {
      GlobalSnapshot(t, pool.messages, AgentStates(people))
    }

    /** What delivery can change, as a value. */
    ghost function State(): World
      reads this`ticks, pool`messages, agents`localState, agents`partialAnswers, agents`interventionCount
    {
      World(map a | a in agents :: a.Vars(), pool.messages, ticks)
    }

    /** Each agent's local state. */
    ghost function StateMap(): map<Agent, LocalState>
      reads agents`localState
    {
      map a | a in agents :: a.localState
    }

    /** The state a revert to `target` leaves behind, given the history and the agents' local
        states before it: the pool and every agent whose name was recorded as in the snapshot,
        the other agents as before, the time at `target`, and no snapshot later than `target`. */
    ghost predicate RevertedFrom(history0: map<int, GlobalSnapshot>, target: int, states0: map<Agent, LocalState>)
      reads this`currentTime, this`globalHistory, pool`messages, agents`localState
    {
      && target in history0
      && var snapshot := history0[target];
      && currentTime == target
      && pool.messages == snapshot.messagePool
      && globalHistory == PrunedAfter(history0, target)
      && forall a | a in agents ::
           a in states0 &&
           a.localState == if a.name in snapshot.agentsState then snapshot.agentsState[a.name] else states0[a]
    }

    /** The state conflict resolution leaves behind, given the state before it: reverted to the
        latest snapshot strictly before `time0` if there is one, unchanged otherwise, and the
        conflict flag and details cleared in both cases. */
    ghost predicate ResolvedFrom(history0: map<int, GlobalSnapshot>, time0: int, messages0: seq<Message>,
                                 states0: map<Agent, LocalState>)
      reads this`currentTime, this`globalHistory, this`globalConflictRaised, this`conflictDetails,
            pool`messages, agents`localState
    {
      && !globalConflictRaised
      && conflictDetails == None
      && match LatestAtOrBelow(history0.Keys, time0 - 1)
         case None =>
           currentTime == time0 && globalHistory == history0 && pool.messages == messages0 && StateMap() == states0
         case Some(target) =>
           RevertedFrom(history0, target, states0)
    }

    /** Registers this environment as every agent's bus and starts at time 0 with an empty
        pool, an empty history and no conflict. */
    constructor (people: seq<Agent>)
      modifies set a | a in people
      ensures Valid()
      ensures this.people == people && n == |people|
      ensures fresh(pool) && pool.messages == [] && pool.historySnapshots == map[]
      ensures currentTime == 0 && globalHistory == map[] && !globalConflictRaised && conflictDetails == None
      ensures ticks == 0
      ensures forall a | a in people :: a.localState == old(a.localState) && a.partialAnswers == old(a.partialAnswers)
                                        && a.interventionCount == old(a.interventionCount)
    {
      this.people := people;
      agents := set a | a in people;
      n := |people|;
      pool := new MessagePool();
      currentTime := 0;
      globalHistory := map[];
      globalConflictRaised := false;
      conflictDetails := None;
      ticks := 0;
      new;
      for k := 0 to |people|
        modifies set a | a in people
        invariant forall j :: 0 <= j < k ==> people[j].messageBus == this
        invariant forall a | a in people :: a.localState == old(a.localState) && a.partialAnswers == old(a.partialAnswers)
                                            && a.interventionCount == old(a.interventionCount)
      {
        people[k].messageBus := this;
      }
    }

    /** Hands `envelope` to agent `k` alone: the agent's variables become those of its
        reaction and nothing else in the state changes; the sends it wants are returned. */
    method Receive(k: nat, envelope: Envelope) returns (calls: seq<BusCall>, err: Option<PyException>)
      requires Valid() && k < |people|
      modifies agents`localState, agents`partialAnswers, agents`interventionCount
      ensures Valid()
      ensures var r := React(people[k].role, people[k].name, true, old(State()).vars[people[k]], envelope);
              && calls == r.calls && err == r.err
              && State() == old(State()).(vars := old(State()).vars[people[k] := r.vars])
    {
      var agent := people[k];
      calls, err := agent.ReceiveMessage(envelope);
    }

    /** Sends `calls[j]` one level deeper than `depth`: if `target` is the outcome of the
        calls from `j` on, it is also the outcome of those after `j` from the new state, or the
        send raised and its outcome is `target`. */
    method Step(calls: seq<BusCall>, j: nat, depth: nat, ghost target: Outcome) returns (err: Option<PyException>)
      requires Valid() && j < |calls| && depth > 0
      requires Covers(people, State()) && PerformCalls(people, State(), calls[j..], depth) == target
      modifies this`ticks, pool`messages, agents`localState, agents`partialAnswers, agents`interventionCount
      ensures Valid()
      ensures err.None? ==> PerformCalls(people, State(), calls[j + 1..], depth) == target
      ensures err.Some? ==> Outcome(State(), err) == target
      decreases depth, 0
    {
      ghost var ws := State();
      var c := calls[j];
      err := SendMessage(c.sender, c.receiver, c.msgType, c.content, depth - 1);
      ghost var o1 := Outcome(State(), err);
      PerformStep(people, ws, calls, j, depth, o1);
    }

    /** Performs `calls` in order, each one level deeper than `depth`; at depth 0 a pending
        send fails with DeliveryDepthExceeded, and an exception stops the remaining sends. */
    method Perform(calls: seq<BusCall>, depth: nat) returns (err: Option<PyException>)
      requires Valid()
      modifies this`ticks, pool`messages, agents`localState, agents`partialAnswers, agents`interventionCount
      ensures Valid()
      ensures Outcome(State(), err) == PerformCalls(people, old(State()), calls, depth)
      decreases depth, 1
    {
      err := None;
      if calls == [] {
        return;
      }
      if depth == 0 {
        err := Some(DeliveryDepthExceeded);
        return;
      }
      ghost var target := PerformCalls(people, State(), calls, depth);
      var j := 0;
      while j < |calls| && err == None
        invariant Valid() && 0 <= j <= |calls|
        invariant err.None? ==> PerformCalls(people, State(), calls[j..], depth) == target
        invariant err.Some? ==> Outcome(State(), err) == target
        decreases |calls| - j
      {
        err := Step(calls, j, depth, target);
        j := j + 1;
      }
    }

    /** Hands `envelope` to agent `k` and then performs, in order, the sends its reaction
        makes, one level deeper; an exception from the agent stops before any send. */
    method Dispatch(k: nat, envelope: Envelope, depth: nat) returns (err: Option<PyException>)
      requires Valid() && k < |people|
      modifies this`ticks, pool`messages, agents`localState, agents`partialAnswers, agents`interventionCount
      ensures Valid()
      ensures Outcome(State(), err) == DispatchSpec(people, old(State()), k, envelope, depth)
      decreases depth, 2
    {
      var calls;
      calls, err := Receive(k, envelope);
      if err.None? {
        err := Perform(calls, depth);
      }
    }

    /** Visits agent `k`, handing it `envelope` when it `Receives` it: if `target` is the
        outcome of the delivery along the route from the agents before `k` on, it is also the
        outcome from the agents after `k`, or the visit raised and its outcome is `target`. */
    method Visit(k: nat, envelope: Envelope, depth: nat, ghost target: Outcome) returns (err: Option<PyException>)
      requires Valid() && k < |people| && Covers(people, State())
      requires DeliverSpec(people, State(), RouteFrom(people, envelope, k), envelope, depth) == target
      modifies this`ticks, pool`messages, agents`localState, agents`partialAnswers, agents`interventionCount
      ensures Valid()
      ensures err.None? ==> DeliverSpec(people, State(), RouteFrom(people, envelope, k + 1), envelope, depth) == target
      ensures err.Some? ==> Outcome(State(), err) == target
      decreases depth, 3
    {
      ghost var ws := State();
      DeliverStep(people, ws, k, envelope, depth);
      err := None;
      if Receives(people[k].name, envelope.sender, envelope.receiver) {
        err := Dispatch(k, envelope, depth);
      }
    }

    /** Hands `envelope` to every agent that `Receives` it, in list order, which are exactly
        the agents on its route. An exception stops the delivery at the agent that raised it. */
    method Deliver(envelope: Envelope, depth: nat) returns (err: Option<PyException>)
      requires Valid()
      modifies this`ticks, pool`messages, agents`localState, agents`partialAnswers, agents`interventionCount
      ensures Valid()
      ensures Outcome(State(), err)
           == DeliverSpec(people, old(State()), Route(NamesOf(people), envelope.sender, envelope.receiver), envelope, depth)
      decreases depth, 4
    {
      err := None;
      ghost var target := DeliverSpec(people, State(), RouteFrom(people, envelope, 0), envelope, depth);
      var k := 0;
      while k < |people| && err == None
        invariant 0 <= k <= |people| && Valid()
        invariant err.None? ==> DeliverSpec(people, State(), RouteFrom(people, envelope, k), envelope, depth) == target
        invariant err.Some? ==> Outcome(State(), err) == target
        decreases |people| - k
      {
        err := Visit(k, envelope, depth, target);
        k := k + 1;
      }
    }

    /** `broadcast_message`: delivers to every agent whose name differs from `sender`, with
        receiver "ALL"; it records nothing in the pool. */
    method BroadcastMessage(sender: string, msgType: string, content: Payload, depth: nat) returns (err: Option<PyException>)
      requires Valid()
      modifies this`ticks, pool`messages, agents`localState, agents`partialAnswers, agents`interventionCount
      ensures Valid()
      ensures Outcome(State(), err)
           == DeliverSpec(people, old(State()), Route(NamesOf(people), sender, Broadcast), Envelope(sender, Broadcast, msgType, content), depth)
      decreases depth, 5
    {
      err := Deliver(Envelope(sender, Broadcast, msgType, content), depth);
    }

    /** `send_message`: records one message (stamped and identified by the clock) whatever the
        receiver, then delivers it; the message type is not recorded. */
    method SendMessage(sender: string, receiver: string, msgType: string, content: Payload, depth: nat)
      returns (err: Option<PyException>)
      requires Valid()
      modifies this`ticks, pool`messages, agents`localState, agents`partialAnswers, agents`interventionCount
      ensures Valid()
      ensures Outcome(State(), err) == SendSpec(people, old(State()), sender, receiver, msgType, content, depth)
      ensures ticks > old(ticks)
      ensures old(pool.messages) + [Stamped(content, sender, receiver, old(ticks))] <= pool.messages
      decreases depth, 6
    {
      ghost var w0 := State();
      var msg := NewMessage(content, Some(sender), To(receiver), None, None, ticks, MintId(ticks));
      ticks := ticks + 1;
      pool.UpdateMessage(msg);
      assert State() == Recorded(w0, sender, receiver, content);
      if receiver == Broadcast {
        err := BroadcastMessage(sender, msgType, content, depth);
      } else {
        err := Deliver(Envelope(sender, receiver, msgType, content), depth);
      }
    }

    /** Stores, at key `currentTime`, the pool's list and each agent's local state. */
    method CheckpointEnvironment()
      requires Valid()
      modifies this`globalHistory
      ensures Valid()
      ensures globalHistory == old(globalHistory)[currentTime := SnapshotAt(currentTime)]
    {
      var states: map<string, LocalState> := map[];
      for k := 0 to |people|
        invariant states == AgentStates(people[..k])
      {
        assert people[..k + 1][..k] == people[..k];
        states := states[people[k].name := people[k].localState];
      }
      assert people[..|people|] == people;
      globalHistory := globalHistory[currentTime := GlobalSnapshot(currentTime, pool.messages, states)];
    }

    /** Gives every agent whose name the snapshot records that recorded state; the other
        agents keep theirs. */
    method RestoreAgents(snapshot: GlobalSnapshot)
      requires Valid()
      modifies agents`localState
      ensures forall a | a in agents ::
                a.localState == if a.name in snapshot.agentsState then snapshot.agentsState[a.name] else old(a.localState)
    {
      for k := 0 to |people|
        invariant forall j :: 0 <= j < k ==>
                    people[j].localState == if people[j].name in snapshot.agentsState
                                            then snapshot.agentsState[people[j].name] else old(people[j].localState)
        invariant forall a | a in agents && a !in people[..k] :: a.localState == old(a.localState)
      {
        if people[k].name in snapshot.agentsState {
          people[k].localState := snapshot.agentsState[people[k].name];
        }
        assert people[..k + 1] == people[..k] + [people[k]];
      }
      assert people[..|people|] == people;
    }

    /** Deletes every global snapshot later than `targetTime`. */
    method PruneHistoryAfter(targetTime: int)
      requires Valid()
      modifies this`globalHistory
      ensures Valid()
      ensures globalHistory == PrunedAfter(old(globalHistory), targetTime)
    {
      var pending := set t | t in globalHistory && t > targetTime;
      while pending != {}
        invariant forall t | t in pending :: t > targetTime
        invariant globalHistory.Keys == (set t | t in old(globalHistory) && t <= targetTime) + pending
        invariant forall t | t in globalHistory :: globalHistory[t] == old(globalHistory)[t]
        decreases pending
      {
        var t :| t in pending;
        globalHistory := map u | u in globalHistory && u != t :: globalHistory[u];
        pending := pending - {t};
      }
    }

    /** Restores the pool and the recorded agents from the snapshot at `targetTime`, moves the
        time back to it and discards every later snapshot; no snapshot there, no change. */
    method RevertEnvironment(targetTime: int)
      requires Valid()
      modifies this`currentTime, this`globalHistory, pool`messages, agents`localState
      ensures Valid()
      ensures targetTime !in old(globalHistory) ==>
                currentTime == old(currentTime) && globalHistory == old(globalHistory) &&
                pool.messages == old(pool.messages) && unchanged(agents)
      ensures targetTime in old(globalHistory) ==> RevertedFrom(old(globalHistory), targetTime, old(StateMap()))
    {
      if targetTime !in globalHistory {
        return;
      }
      var snapshot := globalHistory[targetTime];
      pool.messages := snapshot.messagePool;
      RestoreAgents(snapshot);
      PruneHistoryAfter(targetTime);
      currentTime := targetTime;
    }

    /** Raises the global conflict flag with its details. */
    method RaiseConflict(details: Option<Payload>)
      requires Valid()
      modifies this`globalConflictRaised, this`conflictDetails
      ensures Valid()
      ensures globalConflictRaised && conflictDetails == details
    {
      globalConflictRaised := true;
      conflictDetails := details;
    }

    /** Reverts to the latest snapshot strictly before the current time, if there is one, and
        clears the conflict flag and details in every case. */
    method ResolveConflict()
      requires Valid()
      modifies this`currentTime, this`globalHistory, this`globalConflictRaised, this`conflictDetails
      modifies pool`messages, agents`localState
      ensures Valid()
      ensures ResolvedFrom(old(globalHistory), old(currentTime), old(pool.messages), old(StateMap()))
    {
      var fallbackTime := currentTime - 1;
      while fallbackTime >= 0
        invariant LatestAtOrBelow(old(globalHistory).Keys, old(currentTime) - 1)
               == LatestAtOrBelow(old(globalHistory).Keys, fallbackTime)
        invariant currentTime == old(currentTime) && globalHistory == old(globalHistory)
        invariant pool.messages == old(pool.messages) && unchanged(agents)
        decreases fallbackTime
      {
        if fallbackTime in globalHistory {
          RevertEnvironment(fallbackTime);
          break;
        }
        fallbackTime := fallbackTime - 1;
      }
      globalConflictRaised := false;
      conflictDetails := None;
    }

    /** The part of a step that `run_time_step` and `run_round` share: a snapshot at the
        current time, every agent's (empty) step, and, when a conflict is raised, its resolution
        from the state right after the snapshot. */
    method CheckpointAndStep()
      requires Valid()
      modifies this`currentTime, this`globalHistory, this`globalConflictRaised, this`conflictDetails
      modifies pool`messages, agents`localState
      ensures Valid()
      ensures !globalConflictRaised
      ensures !old(globalConflictRaised) ==>
                currentTime == old(currentTime) && conflictDetails == old(conflictDetails) &&
                globalHistory == old(globalHistory)[currentTime := SnapshotAt(currentTime)] &&
                pool.messages == old(pool.messages) && unchanged(agents)
      ensures old(globalConflictRaised) ==>
                ResolvedFrom(old(globalHistory)[old(currentTime) := old(SnapshotAt(currentTime))],
                             old(currentTime), old(pool.messages), old(StateMap()))
    {
      ghost var states0 := StateMap();
      CheckpointEnvironment();
      for k := 0 to |people|
        modifies {}
      {
        people[k].RunOneStep();
      }
      if globalConflictRaised {
        assert StateMap() == states0;
        ResolveConflict();
      }
    }

    /** One tick: the time advances by one, then a snapshot at the new time, the agents' steps
        and the resolution of a raised conflict follow as in `CheckpointAndStep`. */
    method RunTimeStep()
      requires Valid()
      modifies this`currentTime, this`globalHistory, this`globalConflictRaised, this`conflictDetails
      modifies pool`messages, agents`localState
      ensures Valid()
      ensures !globalConflictRaised
      ensures !old(globalConflictRaised) ==>
                currentTime == old(currentTime) + 1 && conflictDetails == old(conflictDetails) &&
                globalHistory == old(globalHistory)[currentTime := SnapshotAt(currentTime)] &&
                pool.messages == old(pool.messages) && unchanged(agents)
      ensures old(globalConflictRaised) ==>
                ResolvedFrom(old(globalHistory)[old(currentTime) + 1 := old(SnapshotAt(currentTime + 1))],
                             old(currentTime) + 1, old(pool.messages), old(StateMap()))
    {
      currentTime := currentTime + 1;
      CheckpointAndStep();
    }

    /** Runs exactly `maxIterations` time steps (none when it is not positive). Without a raised
        conflict the time advances by that many steps and the history gains, at every new time,
        a snapshot of the pool and the agents, which stay as they were. */
    method RunUntilStable(maxIterations: int)
      requires Valid()
      modifies this`currentTime, this`globalHistory, this`globalConflictRaised, this`conflictDetails
      modifies pool`messages, agents`localState
      ensures Valid()
      ensures maxIterations > 0 ==> !globalConflictRaised
      ensures !old(globalConflictRaised) ==>
                currentTime == old(currentTime) + (if maxIterations > 0 then maxIterations else 0) &&
                globalHistory == WithSnapshots(old(globalHistory), old(currentTime), currentTime,
                                               pool.messages, AgentStates(people)) &&
                pool.messages == old(pool.messages) && unchanged(agents) && globalConflictRaised == old(globalConflictRaised)
    {
      ghost var quiet := !globalConflictRaised;
      ghost var time0, history0 := currentTime, globalHistory;
      ghost var messages0, states0 := pool.messages, AgentStates(people);
      var iterationCount := 0;
      while iterationCount < maxIterations
        invariant Valid()
        invariant 0 <= iterationCount <= (if maxIterations > 0 then maxIterations else 0)
        invariant iterationCount > 0 ==> !globalConflictRaised
        invariant quiet ==> !globalConflictRaised
        invariant quiet ==> currentTime == time0 + iterationCount
        invariant quiet ==> globalHistory == WithSnapshots(history0, time0, currentTime, messages0, states0)
        invariant quiet ==> pool.messages == messages0 && unchanged(agents)
        decreases maxIterations - iterationCount
      {
        ghost var time, previous := currentTime, globalHistory;
        RunTimeStep();
        iterationCount := iterationCount + 1;
        if quiet {
          assert AgentStates(people) == states0;
          assert globalHistory == previous[time + 1 := GlobalSnapshot(time + 1, messages0, states0)];
          WithSnapshotsStep(history0, time0, time, messages0, states0);
        }
      }
    }

    /** The default run: fifty time steps. */
    method Start()
      requires Valid()
      modifies this`currentTime, this`globalHistory, this`globalConflictRaised, this`conflictDetails
      modifies pool`messages, agents`localState
      ensures Valid()
      ensures !globalConflictRaised
      ensures !old(globalConflictRaised) ==> currentTime == old(currentTime) + 50 && pool.messages == old(pool.messages)
    {
      RunUntilStable(50);
    }
  }
}
