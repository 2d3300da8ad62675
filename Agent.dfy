/** The participants: the base agent's local state, checkpoint and local backtrack, and the
    deterministic pipeline roles (decomposer, retriever, verifier, assembler, supervisor,
    controller). An agent reacts to a delivered envelope by updating its own fields and
    returning the bus calls its `send_message` makes, in order; the bus performs them. */
module Agents {
  import opened Wrappers
  import opened PyText
  import opened Messages

  /** The per-agent state: verified facts, a history log, and a stack of earlier states. */
  datatype LocalState = LocalState(verifiedFacts: seq<string>, history: seq<string>, backtrackStack: seq<LocalState>)
  {
    /** The state after a checkpoint: a copy of the whole state pushed onto its own stack. */
    function Pushed(): (s: LocalState)
      ensures s.verifiedFacts == verifiedFacts && s.history == history
      ensures |s.backtrackStack| == |backtrackStack| + 1
      ensures s.backtrackStack[..|backtrackStack|] == backtrackStack && s.backtrackStack[|backtrackStack|] == this
    {
      this.(backtrackStack := backtrackStack + [this])
    }

    /** The state after a local backtrack: the top of the stack, or the state itself when the stack is empty. */
    function Popped(): (s: LocalState)
      ensures backtrackStack == [] ==> s == this
      ensures backtrackStack != [] ==> s == backtrackStack[|backtrackStack| - 1]
    {
      if backtrackStack == [] then this else backtrackStack[|backtrackStack| - 1]
    }
  }

  const InitialState := LocalState([], [], [])

  /** A backtrack right after a checkpoint gives back exactly the state before the checkpoint. */
  lemma PopAfterPush(s: LocalState)
    ensures s.Pushed().Popped() == s
  {
  }

  /** The agent flavours. `BaseRole` ignores every message. */
  datatype Role = BaseRole | Decomposer | Retriever | Verifier | Assembler | Supervisor | Controller

  const DecomposerName := "QuestionDecomposerAgent"
  const RetrieverName := "RetrieverAgent"
  const VerifierName := "VerifierAgent"
  const AssemblerName := "AnswerAssemblerAgent"
  const SupervisorName := "SupervisorAgent"
  const ControllerName := "ControllerAgent"

  /** What the bus hands to `receive_message`. */
  datatype Envelope = Envelope(sender: string, receiver: string, msgType: string, content: Payload)

  /** One call of the bus's `send_message` made by an agent. */
  datatype BusCall = BusCall(sender: string, receiver: string, msgType: string, content: Payload)

  /** The calls an agent's `send_message` makes: none without a bus, otherwise exactly one. */
  function Sends(hasBus: bool, sender: string, receiver: string, msgType: string, content: Payload): (calls: seq<BusCall>)
  {
    if hasBus then [BusCall(sender, receiver, msgType, content)] else []
  }

  /** The fields of an agent that a delivered envelope can change. */
  datatype AgentVars = AgentVars(localState: LocalState, partialAnswers: seq<string>, interventionCount: int)

  /** An agent's reaction to one envelope: its fields afterwards, the bus calls it makes, in
      order, and the exception it raises, if any. */
  datatype Reaction = Reaction(vars: AgentVars, calls: seq<BusCall>, err: Option<PyException>)

  /** `d.get(key)` on a dictionary payload: the first entry with that key. */
  function Lookup(entries: seq<(string, Value)>, key: string): (r: Option<Value>)
    ensures r.Some? <==> exists k :: 0 <= k < |entries| && entries[k].0 == key
    ensures r.Some? ==> exists k :: 0 <= k < |entries| && entries[k] == (key, r.value)
  {
    if entries == [] then None
    else if entries[0].0 == key then Some(entries[0].1)
    else
      var r := Lookup(entries[1..], key);
      assert forall k :: 1 <= k < |entries| ==> entries[k] == entries[1..][k - 1];
      r
  }

  /** Python truthiness of a looked-up value: present and non-empty. */
  predicate Truthy(v: Option<Value>)
  {
    match v
    case None => false
    case Some(Str(s)) => s != ""
    case Some(StrList(xs)) => xs != []
  }

  /** `x` ends with `suffix`. */
  predicate EndsWith(x: string, suffix: string)
  {
    |suffix| <= |x| && x[|x| - |suffix|..] == suffix
  }

  /** The three fixed sub-questions of a question. */
  function DecomposeQuestion(question: string): (subs: seq<string>)
    ensures |subs| == 3
    ensures forall k :: 0 <= k < 3 ==> EndsWith(subs[k], question)
    ensures subs[0] != subs[1] && subs[1] != subs[2] && subs[0] != subs[2]
  {
    var subs := ["Extract key entities from: " + question,
                 "Retrieve relevant documents or knowledge for: " + question,
                 "Verify potential contradictions in: " + question];
    assert |subs[0]| - |question| == 27 && |subs[1]| - |question| == 46 && |subs[2]| - |question| == 36;
    subs
  }

  /** The single piece of evidence retrieved for a sub-question. */
  function RetrieveEvidence(subQuestion: string): (evidence: seq<string>)
    ensures |evidence| == 1 && EndsWith(evidence[0], subQuestion)
  {
    ["Sample evidence for: " + subQuestion]
  }

  /** Some value occurs twice. */
  predicate HasDuplicate(s: seq<string>)
  {
    exists i, j :: 0 <= i < j < |s| && s[i] == s[j]
  }

  function Elements(s: seq<string>): set<string>
  {
    set x | x in s
  }

  /** A list has fewer distinct elements than entries exactly when some entry repeats. */
  lemma {:induction false} DistinctCount(s: seq<string>)
    ensures |Elements(s)| <= |s|
    ensures |Elements(s)| < |s| <==> HasDuplicate(s)
  {
    if s != [] {
      var t := s[1..];
      DistinctCount(t);
      assert Elements(s) == {s[0]} + Elements(t) by {
        assert forall x :: x in s <==> x == s[0] || x in t;
      }
      if s[0] in t {
        var j :| 0 <= j < |t| && t[j] == s[0];
        assert s[0] == s[j + 1];
        assert Elements(s) == Elements(t);
      } else {
        assert s[0] !in Elements(t);
        assert |Elements(s)| == 1 + |Elements(t)|;
        if HasDuplicate(s) {
          var i, j :| 0 <= i < j < |s| && s[i] == s[j];
          assert s[j] == t[j - 1];
          assert i != 0;
          assert t[i - 1] == t[j - 1];
        }
        if HasDuplicate(t) {
          var i, j :| 0 <= i < j < |t| && t[i] == t[j];
          assert s[i + 1] == s[j + 1];
        }
      }
    }
  }

  const ConflictText := "VerifierAgent detected repeated or contradictory evidence."

  /** The verifier's check: a conflict description when the known facts followed by the new
      evidence repeat some entry, the empty string otherwise. */
  function Verify(verifiedFacts: seq<string>, evidence: seq<string>): (detail: string)
    ensures detail != "" <==> HasDuplicate(verifiedFacts + evidence)
    ensures detail == "" || detail == ConflictText
  {
    var combined := verifiedFacts + evidence;
    DistinctCount(combined);
    if |Elements(combined)| < |combined| then ConflictText else ""
  }

  const FinalThreshold := 3
  const ChallengeThreshold := 2

  /** The assembler is ready once it holds at least three partial answers. */
  function ReadyForFinal(partialAnswers: seq<string>): (ready: bool)
    ensures ready <==> |partialAnswers| >= FinalThreshold
  {
    |partialAnswers| >= FinalThreshold
  }

  const AnswerPrefix := "Integrated Answer: "

  /** The final answer: the fixed prefix followed by the partial answers joined by "; ". */
  function AssembleAnswer(partialAnswers: seq<string>): (answer: string)
    ensures |answer| >= |AnswerPrefix| && answer[..|AnswerPrefix|] == AnswerPrefix
    ensures answer[|AnswerPrefix|..] == Join("; ", partialAnswers)
  {
    AnswerPrefix + Join("; ", partialAnswers)
  }

  /** Each further partial answer is appended after one "; " separator. */
  lemma AssembleAnswerSnoc(partialAnswers: seq<string>, next: string)
    requires partialAnswers != []
    ensures AssembleAnswer(partialAnswers + [next]) == AssembleAnswer(partialAnswers) + "; " + next
  {
    JoinSnoc("; ", partialAnswers, next);
  }

  /** `list.extend(v)`: a list contributes its items, a string its characters one by one. */
  function ExtensionOf(v: Value): (items: seq<string>)
    ensures v.StrList? ==> items == v.items
    ensures v.Str? ==> |items| == |v.s| && forall k :: 0 <= k < |v.s| ==> items[k] == [v.s[k]]
  {
    match v
    case StrList(xs) => xs
    case Str(s) => seq(|s|, k requires 0 <= k < |s| => [s[k]])
  }

  /** Python's `"final_answer" in content`: a substring test on text, a key test on a dictionary. */
  predicate MentionsFinalAnswer(content: Payload)
  {
    match content
    case Text(t) => IsSubstring("final_answer", t)
    case Dict(es) => Lookup(es, "final_answer").Some?
  }

  /** The envelopes an agent of this role ignores: no state change, no send, no exception. */
  predicate Ignores(role: Role, msgType: string, content: Payload)
  {
    match role
    case BaseRole => true
    case Decomposer => msgType != "INFORM" || !content.Text?
    case Retriever => msgType != "ASSERT"
    case Verifier => msgType != "INFORM"
    case Assembler => msgType != "ASSERT"
    case Supervisor => msgType != "CONFLICT" && !(msgType == "INFORM" && content.Text? && MentionsFinalAnswer(content))
    case Controller => msgType != "CONFLICT"
  }

  /** A global backtrack notice is ignored by every role. */
  lemma BacktrackIgnoredByAll(role: Role, content: Payload)
    ensures Ignores(role, "BACKTRACK", content)
  {
  }

  /** The evidence list an INFORM payload carries (`content.get("evidence_list", [])`). */
  function EvidenceField(es: seq<(string, Value)>): Value
  {
    Lookup(es, "evidence_list").GetOr(StrList([]))
  }

  /** What `receive_message` of an agent with this role, name and fields does with `msg`, when
      the agent has a bus (`hasBus`) or not. Each role changes at most its own kind of field, and
      a role that raises sends nothing. */
  function React(role: Role, name: string, hasBus: bool, v: AgentVars, msg: Envelope): (r: Reaction)
    ensures Ignores(role, msg.msgType, msg.content) ==> r == Reaction(v, [], None)
    ensures !hasBus ==> r.calls == []
    ensures forall c | c in r.calls :: c.sender == name
    ensures r.err.Some? ==> r.calls == []
    ensures role != Verifier ==> r.vars.localState == v.localState
    ensures role != Assembler ==> r.vars.partialAnswers == v.partialAnswers
    ensures role != Controller ==> r.vars.interventionCount == v.interventionCount
  {
    var t, c := msg.msgType, msg.content;
    match role
    case BaseRole => Reaction(v, [], None)
    case Decomposer =>
      if t == "INFORM" && c.Text? then
        var subs := DecomposeQuestion(c.text);
        Reaction(v, if hasBus then seq(3, k requires 0 <= k < 3 =>
                                         BusCall(name, RetrieverName, "ASSERT", Dict([("sub_question", Str(subs[k]))])))
                    else [], None)
      else Reaction(v, [], None)
    case Retriever =>
      if t != "ASSERT" then Reaction(v, [], None)
      else if c.Text? then Reaction(v, [], Some(AttributeError))
      else
        var sub := Lookup(c.entries, "sub_question");
        Reaction(v, if Truthy(sub)
                    then Sends(hasBus, name, VerifierName, "INFORM",
                               Dict([("evidence_list", StrList(RetrieveEvidence(ValueText(sub.value)))),
                                     ("sub_question", sub.value)]))
                    else [], None)
    case Verifier =>
      if t != "INFORM" then Reaction(v, [], None)
      else if c.Text? then Reaction(v, [], Some(AttributeError))
      else
        (match EvidenceField(c.entries)
         case Str(_) => Reaction(v.(localState := v.localState.Pushed()), [], Some(TypeError))
         case StrList(evidence) =>
           if HasDuplicate(v.localState.verifiedFacts + evidence) then
             Reaction(v, Sends(hasBus, name, SupervisorName, "CONFLICT", Dict([("conflict_detail", Str(ConflictText))])), None)
           else
             Reaction(v.(localState := v.localState.Pushed().(verifiedFacts := v.localState.verifiedFacts + evidence)),
                      Sends(hasBus, name, AssemblerName, "ASSERT", Dict([("verified_facts", StrList(evidence))])), None))
    case Assembler =>
      if t != "ASSERT" then Reaction(v, [], None)
      else if c.Text? then Reaction(v, [], Some(AttributeError))
      else
        var answers := v.partialAnswers + ExtensionOf(Lookup(c.entries, "verified_facts").GetOr(StrList([])));
        Reaction(v.(partialAnswers := answers),
                 if ReadyForFinal(answers)
                 then Sends(hasBus, name, SupervisorName, "INFORM", Dict([("final_answer", Str(AssembleAnswer(answers)))]))
                 else [], None)
    case Supervisor =>
      if t == "CONFLICT" then
        if c.Text? then Reaction(v, [], Some(AttributeError))
        else Reaction(v, Sends(hasBus, name, "ALL", "BACKTRACK",
                               Dict([("reason", Lookup(c.entries, "conflict_detail").GetOr(Str("")))])), None)
      else if t == "INFORM" && c.Text? && MentionsFinalAnswer(c) then Reaction(v, [], Some(TypeError))
      else Reaction(v, [], None)
    case Controller =>
      if t != "CONFLICT" then Reaction(v, [], None)
      else
        var count := v.interventionCount + 1;
        Reaction(v.(interventionCount := count),
                 if count > ChallengeThreshold
                 then Sends(hasBus, name, VerifierName, "CHALLENGE", Dict([("directive", Str("Re-check evidence thoroughly"))]))
                 else [], None)
  }

  class Agent {
    const name: string
    const role: Role
    /** The bus the agent sends through, or `null` when it has none. */
    var messageBus: object?
    var localState: LocalState
    /** The assembler's collected partial answers (not part of the local state). */
    var partialAnswers: seq<string>
    /** The controller's conflict counter (not part of the local state). */
    var interventionCount: int

    /** The fields a delivered envelope can change. */
    ghost function Vars(): AgentVars
      reads this`localState, this`partialAnswers, this`interventionCount
    {
      AgentVars(localState, partialAnswers, interventionCount)
    }

    constructor (name: string, role: Role, messageBus: object?)
      ensures this.name == name && this.role == role && this.messageBus == messageBus
      ensures localState == InitialState && partialAnswers == [] && interventionCount == 0
    {
      this.name := name;
      this.role := role;
      this.messageBus := messageBus;
      localState := InitialState;
      partialAnswers := [];
      interventionCount := 0;
    }

    /** Pushes a copy of the whole local state, taken before the push, onto the backtrack stack. */
    method CheckpointState()
      modifies this`localState
      ensures localState == old(localState).Pushed()
    {
      var snapshot := localState;
      localState := localState.(backtrackStack := localState.backtrackStack + [snapshot]);
    }

    /** Pops the most recent checkpoint and makes it the whole local state; no checkpoint, no change. */
    method LocalBacktrack()
      modifies this`localState
      ensures localState == old(localState).Popped()
    {
      if localState.backtrackStack != [] {
        var stack := localState.backtrackStack;
        var lastSnapshot := stack[|stack| - 1];
        localState := localState.(backtrackStack := stack[..|stack| - 1]);
        localState := lastSnapshot;
      }
    }

    /** The bus calls `send_message` makes: none without a bus, otherwise exactly one carrying
        this agent's name as sender and the given receiver, type and content. */
    function SendMessage(msgType: string, receiver: string, content: Payload): (calls: seq<BusCall>)
      reads this`messageBus
      ensures |calls| == if messageBus == null then 0 else 1
      ensures forall c | c in calls :: c == BusCall(name, receiver, msgType, content)
    {
      Sends(messageBus != null, name, receiver, msgType, content)
    }

    /** The autonomous step of every modelled role: nothing. */
    method RunOneStep()
    {
    }

    /** The decomposer: an INFORM with a text question sends its three sub-questions, in order,
        as ASSERTs to the retriever. */
    method DecomposerReceive(msg: Envelope) returns (calls: seq<BusCall>)
      ensures msg.msgType == "INFORM" && msg.content.Text? && messageBus != null ==>
                |calls| == 3 &&
                forall k :: 0 <= k < 3 ==>
                  calls[k] == BusCall(name, RetrieverName, "ASSERT",
                                      Dict([("sub_question", Str(DecomposeQuestion(msg.content.text)[k]))]))
      ensures !(msg.msgType == "INFORM" && msg.content.Text?) || messageBus == null ==> calls == []
    {
      calls := [];
      if msg.msgType == "INFORM" && msg.content.Text? {
        var subQuestions := DecomposeQuestion(msg.content.text);
        for k := 0 to |subQuestions|
          invariant |calls| == if messageBus == null then 0 else k
          invariant forall j :: 0 <= j < |calls| ==>
                      calls[j] == BusCall(name, RetrieverName, "ASSERT", Dict([("sub_question", Str(subQuestions[j]))]))
        {
          calls := calls + SendMessage("ASSERT", RetrieverName, Dict([("sub_question", Str(subQuestions[k]))]));
        }
      }
    }

    /** The retriever: an ASSERT carrying a non-empty sub-question sends its evidence to the
        verifier; a text payload has no `.get` and raises AttributeError. */
    method RetrieverReceive(msg: Envelope) returns (calls: seq<BusCall>, err: Option<PyException>)
      ensures msg.msgType != "ASSERT" ==> calls == [] && err == None
      ensures msg.msgType == "ASSERT" && msg.content.Text? ==> calls == [] && err == Some(AttributeError)
      ensures msg.msgType == "ASSERT" && msg.content.Dict? ==>
                err == None &&
                var sub := Lookup(msg.content.entries, "sub_question");
                calls == if Truthy(sub)
                         then SendMessage("INFORM", VerifierName,
                                          Dict([("evidence_list", StrList(RetrieveEvidence(ValueText(sub.value)))),
                                                ("sub_question", sub.value)]))
                         else []
    {
      calls, err := [], None;
      if msg.msgType == "ASSERT" {
        match msg.content
        case Text(_) =>
          err := Some(AttributeError);
        case Dict(es) =>
          var subQ := Lookup(es, "sub_question");
          if Truthy(subQ) {
            var evidenceList := RetrieveEvidence(ValueText(subQ.value));
            calls := SendMessage("INFORM", VerifierName,
                                 Dict([("evidence_list", StrList(evidenceList)), ("sub_question", subQ.value)]));
          }
      }
    }

    /** The verifier: on an INFORM it checkpoints, checks the evidence against its facts, and
        either backtracks and reports a CONFLICT to the supervisor or commits the evidence and
        ASSERTs it to the assembler. */
    method VerifierReceive(msg: Envelope) returns (calls: seq<BusCall>, err: Option<PyException>)
      modifies this`localState
      ensures msg.msgType != "INFORM" ==> calls == [] && err == None && localState == old(localState)
      ensures msg.msgType == "INFORM" && msg.content.Text? ==>
                calls == [] && err == Some(AttributeError) && localState == old(localState)
      ensures msg.msgType == "INFORM" && msg.content.Dict? && EvidenceField(msg.content.entries).Str? ==>
                calls == [] && err == Some(TypeError) && localState == old(localState).Pushed()
      ensures msg.msgType == "INFORM" && msg.content.Dict? && EvidenceField(msg.content.entries).StrList? ==>
                var evidence := EvidenceField(msg.content.entries).items;
                err == None &&
                if HasDuplicate(old(localState).verifiedFacts + evidence) then
                  localState == old(localState) &&
                  calls == SendMessage("CONFLICT", SupervisorName, Dict([("conflict_detail", Str(ConflictText))]))
                else
                  localState == old(localState).Pushed().(verifiedFacts := old(localState).verifiedFacts + evidence) &&
                  calls == SendMessage("ASSERT", AssemblerName, Dict([("verified_facts", StrList(evidence))]))
    {
      calls, err := [], None;
      if msg.msgType == "INFORM" {
        match msg.content
        case Text(_) =>
          err := Some(AttributeError);
        case Dict(es) =>
          var field := EvidenceField(es);
          CheckpointState();
          match field
          case Str(_) =>
            err := Some(TypeError);
          case StrList(evidenceList) =>
            var conflictDetail := Verify(localState.verifiedFacts, evidenceList);
            if conflictDetail != "" {
              LocalBacktrack();
              calls := SendMessage("CONFLICT", SupervisorName, Dict([("conflict_detail", Str(conflictDetail))]));
            } else {
              ghost var before := localState;
              for k := 0 to |evidenceList|
                invariant localState == before.(verifiedFacts := before.verifiedFacts + evidenceList[..k])
              {
                assert evidenceList[..k + 1] == evidenceList[..k] + [evidenceList[k]];
                localState := localState.(verifiedFacts := localState.verifiedFacts + [evidenceList[k]]);
              }
              assert evidenceList[..|evidenceList|] == evidenceList;
              calls := SendMessage("ASSERT", AssemblerName, Dict([("verified_facts", StrList(evidenceList))]));
            }
      }
    }

    /** The assembler: an ASSERT extends the partial answers; from three partial answers on,
        it sends the assembled answer to the supervisor. */
    method AssemblerReceive(msg: Envelope) returns (calls: seq<BusCall>, err: Option<PyException>)
      modifies this`partialAnswers
      ensures msg.msgType != "ASSERT" ==> calls == [] && err == None && partialAnswers == old(partialAnswers)
      ensures msg.msgType == "ASSERT" && msg.content.Text? ==>
                calls == [] && err == Some(AttributeError) && partialAnswers == old(partialAnswers)
      ensures msg.msgType == "ASSERT" && msg.content.Dict? ==>
                err == None &&
                partialAnswers == old(partialAnswers)
                                  + ExtensionOf(Lookup(msg.content.entries, "verified_facts").GetOr(StrList([]))) &&
                calls == if |partialAnswers| >= FinalThreshold
                         then SendMessage("INFORM", SupervisorName, Dict([("final_answer", Str(AssembleAnswer(partialAnswers)))]))
                         else []
    {
      calls, err := [], None;
      if msg.msgType == "ASSERT" {
        match msg.content
        case Text(_) =>
          err := Some(AttributeError);
        case Dict(es) =>
          var newFacts := Lookup(es, "verified_facts").GetOr(StrList([]));
          partialAnswers := partialAnswers + ExtensionOf(newFacts);
          if ReadyForFinal(partialAnswers) {
            var finalAnswer := AssembleAnswer(partialAnswers);
            calls := SendMessage("INFORM", SupervisorName, Dict([("final_answer", Str(finalAnswer))]));
          }
      }
    }

    /** The supervisor: a CONFLICT is broadcast as a BACKTRACK carrying its reason; a final
        answer is only shown. */
    method SupervisorReceive(msg: Envelope) returns (calls: seq<BusCall>, err: Option<PyException>)
      ensures msg.msgType == "CONFLICT" && msg.content.Text? ==> calls == [] && err == Some(AttributeError)
      ensures msg.msgType == "CONFLICT" && msg.content.Dict? ==>
                err == None &&
                calls == SendMessage("BACKTRACK", "ALL",
                                     Dict([("reason", Lookup(msg.content.entries, "conflict_detail").GetOr(Str("")))]))
      ensures msg.msgType == "INFORM" && msg.content.Text? && MentionsFinalAnswer(msg.content) ==>
                calls == [] && err == Some(TypeError)
      ensures msg.msgType != "CONFLICT" && !(msg.msgType == "INFORM" && msg.content.Text? && MentionsFinalAnswer(msg.content)) ==>
                calls == [] && err == None
    {
      calls, err := [], None;
      var msgType := msg.msgType;
      var content := msg.content;
      if msgType == "CONFLICT" {
        match content
        case Text(_) =>
          err := Some(AttributeError);
        case Dict(es) =>
          var reason := Lookup(es, "conflict_detail").GetOr(Str(""));
          calls := SendMessage("BACKTRACK", "ALL", Dict([("reason", reason)]));
      } else if msgType == "INFORM" && MentionsFinalAnswer(content) {
        if content.Text? {
          // subscripting a string with the key "final_answer"
          err := Some(TypeError);
        }
      }
    }

    /** The controller: each CONFLICT raises the counter by one; above two it sends a CHALLENGE
        to the verifier. */
    method ControllerReceive(msg: Envelope) returns (calls: seq<BusCall>)
      modifies this`interventionCount
      ensures msg.msgType != "CONFLICT" ==> calls == [] && interventionCount == old(interventionCount)
      ensures msg.msgType == "CONFLICT" ==>
                interventionCount == old(interventionCount) + 1 &&
                calls == if interventionCount > ChallengeThreshold
                         then SendMessage("CHALLENGE", VerifierName, Dict([("directive", Str("Re-check evidence thoroughly"))]))
                         else []
    {
      calls := [];
      if msg.msgType == "CONFLICT" {
        interventionCount := interventionCount + 1;
        if interventionCount > ChallengeThreshold {
          calls := SendMessage("CHALLENGE", VerifierName, Dict([("directive", Str("Re-check evidence thoroughly"))]));
        }
      }
    }

    /** `receive_message`, dispatched on the role. */
    method ReceiveMessage(msg: Envelope) returns (calls: seq<BusCall>, err: Option<PyException>)
      modifies this`localState, this`partialAnswers, this`interventionCount
      ensures Reaction(Vars(), calls, err) == React(role, name, messageBus != null, old(Vars()), msg)
    {
      match role
      case BaseRole =>
        calls, err := [], None;
      case Decomposer =>
        calls := DecomposerReceive(msg);
        err := None;
      case Retriever =>
        calls, err := RetrieverReceive(msg);
      case Verifier =>
        calls, err := VerifierReceive(msg);
      case Assembler =>
        calls, err := AssemblerReceive(msg);
      case Supervisor =>
        calls, err := SupervisorReceive(msg);
      case Controller =>
        calls := ControllerReceive(msg);
        err := None;
    }
  }
}
