/** The question-answering pipeline of the default agents, followed message by message through
    the delivery specification: a question sent to the decomposer yields three sub-questions,
    each retrieved, verified and assembled, and the third partial answer makes the assembler
    send the final answer to the supervisor. */
module Pipeline {
  import opened Wrappers
  import opened Messages
  import opened Pool
  import opened Agents
  import opened Env

  /** The five agents of the pipeline under their default names, in this order. */
  predicate DefaultPipeline(people: seq<Agent>)
  {
    && |people| == 5
    && people[0].name == DecomposerName && people[0].role == Decomposer
    && people[1].name == RetrieverName && people[1].role == Retriever
    && people[2].name == VerifierName && people[2].role == Verifier
    && people[3].name == AssemblerName && people[3].role == Assembler
    && people[4].name == SupervisorName && people[4].role == Supervisor
  }

  /** The five agents are five different objects, since their names differ. */
  lemma PipelineDistinct(people: seq<Agent>)
    requires DefaultPipeline(people)
    ensures forall i, j :: 0 <= i < j < 5 ==> people[i] != people[j]
  {
    forall i, j | 0 <= i < j < 5 ensures people[i] != people[j] {
      assert |people[i].name| != |people[j].name|;
    }
  }

  /** The payloads the agents of the pipeline send one another. */
  function SubQuestionContent(sub: string): Payload
  {
    Dict([("sub_question", Str(sub))])
  }

  function EvidenceContent(sub: string): Payload
  {
    Dict([("evidence_list", StrList(RetrieveEvidence(sub))), ("sub_question", Str(sub))])
  }

  function VerifiedContent(facts: seq<string>): Payload
  {
    Dict([("verified_facts", StrList(facts))])
  }

  function FinalContent(answer: string): Payload
  {
    Dict([("final_answer", Str(answer))])
  }

  /** The evidence the retriever returns for each of the question's sub-questions. */
  function Evidence(question: string): (ev: seq<string>)
    ensures |ev| == 3
    ensures forall i :: 0 <= i < 3 ==> ev[i] == RetrieveEvidence(DecomposeQuestion(question)[i])[0]
  {
    var subs := DecomposeQuestion(question);
    [RetrieveEvidence(subs[0])[0], RetrieveEvidence(subs[1])[0], RetrieveEvidence(subs[2])[0]]
  }

  /** Distinct sub-questions give distinct evidence, so the verifier never sees a repeat. */
  lemma EvidenceDistinct(question: string)
    ensures var ev := Evidence(question); ev[0] != ev[1] && ev[1] != ev[2] && ev[0] != ev[2]
  {
    var subs := DecomposeQuestion(question);
    var p := "Sample evidence for: ";
    forall i, j | 0 <= i < 3 && 0 <= j < 3 && i != j
      ensures Evidence(question)[i] != Evidence(question)[j]
    {
      assert (p + subs[i])[|p|..] == subs[i];
      assert (p + subs[j])[|p|..] == subs[j];
    }
  }

  /** The rounds the decomposer starts: one call per sub-question, to the retriever. */
  function SubCalls(subs: seq<string>): (calls: seq<BusCall>)
    requires |subs| == 3
    ensures |calls| == 3
    ensures forall k :: 0 <= k < 3 ==> calls[k] == BusCall(DecomposerName, RetrieverName, "ASSERT", SubQuestionContent(subs[k]))
  {
    [BusCall(DecomposerName, RetrieverName, "ASSERT", SubQuestionContent(subs[0])),
     BusCall(DecomposerName, RetrieverName, "ASSERT", SubQuestionContent(subs[1])),
     BusCall(DecomposerName, RetrieverName, "ASSERT", SubQuestionContent(subs[2]))]
  }

  /** The messages the verified facts lead to from clock value `t` on: the facts themselves
      and, when `final`, the assembled answer as well. */
  function AssembleTrace(facts: seq<string>, t: nat, final: bool, answer: string): (ms: seq<Message>)
    ensures |ms| == if final then 2 else 1
  {
    [Stamped(VerifiedContent(facts), VerifierName, AssemblerName, t)]
    + if final then [Stamped(FinalContent(answer), AssemblerName, SupervisorName, t + 1)] else []
  }

  /** The messages one round records from clock value `t` on: the sub-question, its evidence
      and what the verified facts lead to. */
  function RoundTrace(sub: string, t: nat, final: bool, answer: string): (ms: seq<Message>)
    ensures |ms| == if final then 4 else 3
  {
    [Stamped(SubQuestionContent(sub), DecomposerName, RetrieverName, t)]
    + ([Stamped(EvidenceContent(sub), RetrieverName, VerifierName, t + 1)]
       + AssembleTrace(RetrieveEvidence(sub), t + 2, final, answer))
  }

  /** The whole pool a question leaves behind, from clock value `t` on: eleven messages. */
  function PipelineTrace(user: string, question: string, t: nat): (ms: seq<Message>)
    ensures |ms| == 11
  {
    var subs := DecomposeQuestion(question);
    var answer := AssembleAnswer(Evidence(question));
    [Stamped(Text(question), user, DecomposerName, t)]
    + RoundTrace(subs[0], t + 1, false, answer)
    + RoundTrace(subs[1], t + 4, false, answer)
    + RoundTrace(subs[2], t + 7, true, answer)
  }

  /** A directed message to a name nobody has goes nowhere. */
  lemma {:induction false} RouteToNone(names: seq<string>, sender: string, receiver: string)
    requires receiver != Broadcast && forall i :: 0 <= i < |names| ==> names[i] != receiver
    ensures Route(names, sender, receiver) == []
  {
    if names != [] {
      RouteToNone(names[..|names| - 1], sender, receiver);
    }
  }

  /** With pairwise distinct names, a directed message goes to the one agent of that name. */
  lemma {:induction false} RouteToOne(names: seq<string>, k: nat, sender: string)
    requires k < |names| && names[k] != Broadcast
    requires forall i :: 0 <= i < |names| && i != k ==> names[i] != names[k]
    ensures Route(names, sender, names[k]) == [k]
  {
    var init := names[..|names| - 1];
    if k == |names| - 1 {
      RouteToNone(init, sender, names[k]);
    } else {
      assert init[k] == names[k];
      RouteToOne(init, k, sender);
    }
  }

  /** Delivery along a route of one position is that agent's dispatch. */
  lemma DeliverToOne(people: seq<Agent>, w: World, k: nat, envelope: Envelope, depth: nat)
    requires Covers(people, w) && k < |people|
    ensures DeliverSpec(people, w, [k], envelope, depth) == DispatchSpec(people, w, k, envelope, depth)
  {
    assert [k][1..] == [];
  }

  /** In the pipeline a directed message reaches only the agent of that name. */
  lemma PipelineRoute(people: seq<Agent>, sender: string, k: nat)
    requires DefaultPipeline(people) && k < 5
    ensures Route(NamesOf(people), sender, people[k].name) == [k]
  {
    RouteToOne(NamesOf(people), k, sender);
  }

  /** In the pipeline a message to the agent at position `k` is recorded and handed to it alone. */
  lemma SendToOne(people: seq<Agent>, w: World, sender: string, k: nat, msgType: string, content: Payload,
                  depth: nat)
    requires DefaultPipeline(people) && Covers(people, w) && k < 5
    ensures SendSpec(people, w, sender, people[k].name, msgType, content, depth)
         == DispatchSpec(people, Recorded(w, sender, people[k].name, content), k,
                         Envelope(sender, people[k].name, msgType, content), depth)
  {
    PipelineRoute(people, sender, k);
    DeliverToOne(people, Recorded(w, sender, people[k].name, content), k, Envelope(sender, people[k].name, msgType, content), depth);
  }

  /** A single pending call, one level deeper. */
  lemma PerformOne(people: seq<Agent>, w: World, c: BusCall, depth: nat)
    requires Covers(people, w) && depth > 0
    ensures PerformCalls(people, w, [c], depth) == SendSpec(people, w, c.sender, c.receiver, c.msgType, c.content, depth - 1)
  {
    assert [c][1..] == [];
  }

  /** The assembled answer reaches the supervisor, which reacts to a dictionary payload with
      nothing: the message is only recorded. */
  lemma SupervisorLeg(people: seq<Agent>, w: World, answer: string, depth: nat)
    requires DefaultPipeline(people) && Covers(people, w)
    ensures SendSpec(people, w, AssemblerName, SupervisorName, "INFORM", FinalContent(answer), depth)
         == Outcome(Recorded(w, AssemblerName, SupervisorName, FinalContent(answer)), None)
  {
    SendIgnored(people, w, AssemblerName, SupervisorName, "INFORM", FinalContent(answer), depth);
  }

  /** The assembler's reaction to verified facts: it adds them to its partial answers and,
      once the answer is ready, calls the supervisor with it. */
  lemma AssemblerReacts(v: AgentVars, facts: seq<string>)
    ensures var answers := v.partialAnswers + facts;
            React(Assembler, AssemblerName, true, v, Envelope(VerifierName, AssemblerName, "ASSERT", VerifiedContent(facts)))
            == Reaction(v.(partialAnswers := answers),
                        if ReadyForFinal(answers)
                        then [BusCall(AssemblerName, SupervisorName, "INFORM", FinalContent(AssembleAnswer(answers)))]
                        else [], None)
  {
  }

  /** Verified facts reach the assembler, which adds them to its partial answers and, from the
      third on, sends the assembled answer to the supervisor one level deeper. */
  lemma AssemblerLeg(people: seq<Agent>, w: World, facts: seq<string>, depth: nat)
    requires DefaultPipeline(people) && Covers(people, w)
    requires ReadyForFinal(w.vars[people[3]].partialAnswers + facts) ==> depth > 0
    ensures var v := w.vars[people[3]];
            var answers := v.partialAnswers + facts;
            var w1 := Recorded(w, VerifierName, AssemblerName, VerifiedContent(facts));
            var w2 := w1.(vars := w1.vars[people[3] := v.(partialAnswers := answers)]);
            SendSpec(people, w, VerifierName, AssemblerName, "ASSERT", VerifiedContent(facts), depth)
            == if ReadyForFinal(answers)
               then Outcome(Recorded(w2, AssemblerName, SupervisorName, FinalContent(AssembleAnswer(answers))), None)
               else Outcome(w2, None)
  {
    var v := w.vars[people[3]];
    var answers := v.partialAnswers + facts;
    var w1 := Recorded(w, VerifierName, AssemblerName, VerifiedContent(facts));
    var w2 := w1.(vars := w1.vars[people[3] := v.(partialAnswers := answers)]);
    var envelope := Envelope(VerifierName, AssemblerName, "ASSERT", VerifiedContent(facts));
    SendToOne(people, w, VerifierName, 3, "ASSERT", VerifiedContent(facts), depth);
    AssemblerReacts(v, facts);
    var r := React(Assembler, AssemblerName, true, v, envelope);
    assert DispatchSpec(people, w1, 3, envelope, depth) == PerformCalls(people, w2, r.calls, depth);
    if ReadyForFinal(answers) {
      var c := BusCall(AssemblerName, SupervisorName, "INFORM", FinalContent(AssembleAnswer(answers)));
      PerformOne(people, w2, c, depth);
      SupervisorLeg(people, w2, AssembleAnswer(answers), depth - 1);
    }
  }

  /** The verifier's new local state: checkpointed, then holding the new evidence as well. */
  function Verified(s: LocalState, evidence: seq<string>): LocalState
  {
    s.Pushed().(verifiedFacts := s.verifiedFacts + evidence)
  }

  /** Evidence without a repeat reaches the verifier, which checkpoints, keeps it among its
      facts and passes it on to the assembler one level deeper. */
  lemma VerifierLeg(people: seq<Agent>, w: World, sub: string, depth: nat)
    requires DefaultPipeline(people) && Covers(people, w) && depth > 0
    requires !HasDuplicate(w.vars[people[2]].localState.verifiedFacts + RetrieveEvidence(sub))
    ensures var v := w.vars[people[2]];
            var w1 := Recorded(w, RetrieverName, VerifierName, EvidenceContent(sub));
            var w2 := w1.(vars := w1.vars[people[2] := v.(localState := Verified(v.localState, RetrieveEvidence(sub)))]);
            SendSpec(people, w, RetrieverName, VerifierName, "INFORM", EvidenceContent(sub), depth)
            == SendSpec(people, w2, VerifierName, AssemblerName, "ASSERT", VerifiedContent(RetrieveEvidence(sub)), depth - 1)
  {
    var v := w.vars[people[2]];
    var ev := RetrieveEvidence(sub);
    var w1 := Recorded(w, RetrieverName, VerifierName, EvidenceContent(sub));
    var w2 := w1.(vars := w1.vars[people[2] := v.(localState := Verified(v.localState, ev))]);
    SendToOne(people, w, RetrieverName, 2, "INFORM", EvidenceContent(sub), depth);
    var r := React(Verifier, VerifierName, true, v, Envelope(RetrieverName, VerifierName, "INFORM", EvidenceContent(sub)));
    assert EvidenceField(EvidenceContent(sub).entries) == StrList(ev);
    assert r.vars == v.(localState := Verified(v.localState, ev));
    var c := BusCall(VerifierName, AssemblerName, "ASSERT", VerifiedContent(ev));
    assert r.calls == [c];
    PerformOne(people, w2, c, depth);
  }

  /** A non-empty sub-question reaches the retriever, which sends its evidence to the verifier
      one level deeper and changes nothing of its own. */
  lemma RetrieverLeg(people: seq<Agent>, w: World, sub: string, depth: nat)
    requires DefaultPipeline(people) && Covers(people, w) && depth > 0 && sub != ""
    ensures SendSpec(people, w, DecomposerName, RetrieverName, "ASSERT", SubQuestionContent(sub), depth)
         == SendSpec(people, Recorded(w, DecomposerName, RetrieverName, SubQuestionContent(sub)),
                     RetrieverName, VerifierName, "INFORM", EvidenceContent(sub), depth - 1)
  {
    var w1 := Recorded(w, DecomposerName, RetrieverName, SubQuestionContent(sub));
    SendToOne(people, w, DecomposerName, 1, "ASSERT", SubQuestionContent(sub), depth);
    var v := w1.vars[people[1]];
    var r := React(Retriever, RetrieverName, true, v, Envelope(DecomposerName, RetrieverName, "ASSERT", SubQuestionContent(sub)));
    var c := BusCall(RetrieverName, VerifierName, "INFORM", EvidenceContent(sub));
    assert r == Reaction(v, [c], None);
    assert w1.(vars := w1.vars[people[1] := v]) == w1;
    PerformOne(people, w1, c, depth);
  }

  /** The question reaches the decomposer, which changes nothing of its own and starts one
      round per sub-question. */
  lemma DecomposerLeg(people: seq<Agent>, w: World, user: string, question: string, depth: nat)
    requires DefaultPipeline(people) && Covers(people, w)
    ensures SendSpec(people, w, user, DecomposerName, "INFORM", Text(question), depth)
         == PerformCalls(people, Recorded(w, user, DecomposerName, Text(question)), SubCalls(DecomposeQuestion(question)), depth)
  {
    var w1 := Recorded(w, user, DecomposerName, Text(question));
    SendToOne(people, w, user, 0, "INFORM", Text(question), depth);
    var v := w1.vars[people[0]];
    var r := React(Decomposer, DecomposerName, true, v, Envelope(user, DecomposerName, "INFORM", Text(question)));
    assert r.calls == SubCalls(DecomposeQuestion(question));
    assert r == Reaction(v, SubCalls(DecomposeQuestion(question)), None);
    assert w1.(vars := w1.vars[people[0] := v]) == w1;
  }

  /** The assembler step as a world: the facts are recorded and added to the assembler's
      partial answers, and the answer, once ready, is recorded on its way to the supervisor;
      nothing else changes. */
  lemma AssembleStep(people: seq<Agent>, w: World, facts: seq<string>, depth: nat) returns (w2: World)
    requires DefaultPipeline(people) && Covers(people, w)
    requires ReadyForFinal(w.vars[people[3]].partialAnswers + facts) ==> depth > 0
    ensures Covers(people, w2)
    ensures var a := w.vars[people[3]];
            var answers := a.partialAnswers + facts;
            var trace := AssembleTrace(facts, w.ticks, ReadyForFinal(answers), AssembleAnswer(answers));
            && SendSpec(people, w, VerifierName, AssemblerName, "ASSERT", VerifiedContent(facts), depth) == Outcome(w2, None)
            && w2.pool == w.pool + trace
            && w2.ticks == w.ticks + |trace|
            && w2.vars == w.vars[people[3] := a.(partialAnswers := answers)]
  {
    var a := w.vars[people[3]];
    var answers := a.partialAnswers + facts;
    AssemblerLeg(people, w, facts, depth);
    var w1 := Recorded(w, VerifierName, AssemblerName, VerifiedContent(facts));
    var w6 := w1.(vars := w1.vars[people[3] := a.(partialAnswers := answers)]);
    w2 := if ReadyForFinal(answers) then Recorded(w6, AssemblerName, SupervisorName, FinalContent(AssembleAnswer(answers))) else w6;
  }

  /** The verifier step as a world: evidence without a repeat is recorded, the verifier
      checkpoints and keeps it among its facts, and the assembler step follows one level deeper. */
  lemma VerifyStep(people: seq<Agent>, w: World, sub: string, depth: nat) returns (w2: World)
    requires DefaultPipeline(people) && Covers(people, w) && depth >= 1
    requires !HasDuplicate(w.vars[people[2]].localState.verifiedFacts + RetrieveEvidence(sub))
    requires ReadyForFinal(w.vars[people[3]].partialAnswers + RetrieveEvidence(sub)) ==> depth >= 2
    ensures Covers(people, w2)
    ensures var ev := RetrieveEvidence(sub);
            var v := w.vars[people[2]];
            var a := w.vars[people[3]];
            var answers := a.partialAnswers + ev;
            var trace := [Stamped(EvidenceContent(sub), RetrieverName, VerifierName, w.ticks)]
                         + AssembleTrace(ev, w.ticks + 1, ReadyForFinal(answers), AssembleAnswer(answers));
            && SendSpec(people, w, RetrieverName, VerifierName, "INFORM", EvidenceContent(sub), depth) == Outcome(w2, None)
            && w2.pool == w.pool + trace
            && w2.ticks == w.ticks + |trace|
            && w2.vars == w.vars[people[2] := v.(localState := Verified(v.localState, ev))]
                                [people[3] := a.(partialAnswers := answers)]
  {
    var ev := RetrieveEvidence(sub);
    var v := w.vars[people[2]];
    PipelineDistinct(people);
    VerifierLeg(people, w, sub, depth);
    var w1 := Recorded(w, RetrieverName, VerifierName, EvidenceContent(sub));
    var w3 := w1.(vars := w1.vars[people[2] := v.(localState := Verified(v.localState, ev))]);
    assert w3.vars[people[3]] == w.vars[people[3]];
    w2 := AssembleStep(people, w3, ev, depth - 1);
    AppendAssoc3(w.pool, [Stamped(EvidenceContent(sub), RetrieverName, VerifierName, w.ticks)],
                 AssembleTrace(ev, w.ticks + 1, ReadyForFinal(w.vars[people[3]].partialAnswers + ev),
                               AssembleAnswer(w.vars[people[3]].partialAnswers + ev)));
  }

  /** One round: a sub-question that gives new evidence runs through retriever, verifier and
      assembler (and the supervisor, once the answer is ready) without an exception. It leaves
      the world `w2`: the round's trace appended to the pool, one clock value per message, the
      verifier checkpointed and holding the evidence among its facts, the assembler holding it
      among its partial answers, and every other agent unchanged. */
  lemma Round(people: seq<Agent>, w: World, sub: string, depth: nat) returns (w2: World)
    requires DefaultPipeline(people) && Covers(people, w) && depth >= 2 && sub != ""
    requires !HasDuplicate(w.vars[people[2]].localState.verifiedFacts + RetrieveEvidence(sub))
    requires ReadyForFinal(w.vars[people[3]].partialAnswers + RetrieveEvidence(sub)) ==> depth >= 3
    ensures Covers(people, w2)
    ensures var ev := RetrieveEvidence(sub);
            var v := w.vars[people[2]];
            var a := w.vars[people[3]];
            var answers := a.partialAnswers + ev;
            var trace := RoundTrace(sub, w.ticks, ReadyForFinal(answers), AssembleAnswer(answers));
            && SendSpec(people, w, DecomposerName, RetrieverName, "ASSERT", SubQuestionContent(sub), depth) == Outcome(w2, None)
            && w2.pool == w.pool + trace
            && w2.ticks == w.ticks + |trace|
            && w2.vars == w.vars[people[2] := v.(localState := Verified(v.localState, ev))]
                                [people[3] := a.(partialAnswers := answers)]
  {
    var ev := RetrieveEvidence(sub);
    var answers := w.vars[people[3]].partialAnswers + ev;
    RetrieverLeg(people, w, sub, depth);
    var w1 := Recorded(w, DecomposerName, RetrieverName, SubQuestionContent(sub));
    w2 := VerifyStep(people, w1, sub, depth - 1);
    AppendAssoc3(w.pool, [Stamped(SubQuestionContent(sub), DecomposerName, RetrieverName, w.ticks)],
                 [Stamped(EvidenceContent(sub), RetrieverName, VerifierName, w.ticks + 1)]
                 + AssembleTrace(ev, w.ticks + 2, ReadyForFinal(answers), AssembleAnswer(answers)));
  }

  /** Extending a prefix of three distinct pieces of evidence by the next one keeps it free
      of repeats, and the third extension is the whole list. */
  lemma PrefixStep(ev: seq<string>, i: nat)
    requires |ev| == 3 && ev[0] != ev[1] && ev[1] != ev[2] && ev[0] != ev[2] && i < 3
    ensures ev[..i] + [ev[i]] == ev[..i + 1]
    ensures !HasDuplicate(ev[..i + 1])
    ensures i == 2 ==> ev[..i + 1] == ev
  {
    assert ev[..i] + [ev[i]] == ev[..i + 1];
  }

  /** Round `i` of the three the decomposer starts for the sub-questions `subs`, whose
      evidence `ev` has no repeat, when the verifier and the assembler hold the evidence of the
      earlier rounds: afterwards they hold this round's as well, the pool gains the round's
      messages (the last round's include the final answer), and the remaining calls are
      performed from the new world. */
  lemma RoundAt(people: seq<Agent>, w: World, subs: seq<string>, ev: seq<string>, i: nat, depth: nat) returns (w2: World)
    requires DefaultPipeline(people) && Covers(people, w) && i < 3 && depth >= 4
    requires |subs| == 3 && |ev| == 3 && ev[0] != ev[1] && ev[1] != ev[2] && ev[0] != ev[2]
    requires forall k :: 0 <= k < 3 ==> subs[k] != "" && RetrieveEvidence(subs[k]) == [ev[k]]
    requires w.vars[people[2]].localState.verifiedFacts == ev[..i]
    requires w.vars[people[3]].partialAnswers == ev[..i]
    ensures Covers(people, w2)
    ensures PerformCalls(people, w, SubCalls(subs)[i..], depth) == PerformCalls(people, w2, SubCalls(subs)[i + 1..], depth)
    ensures w2.vars[people[2]].localState.verifiedFacts == ev[..i + 1]
    ensures w2.vars[people[3]].partialAnswers == ev[..i + 1]
    ensures w2.pool == w.pool + RoundTrace(subs[i], w.ticks, i == 2, AssembleAnswer(ev))
    ensures w2.ticks == w.ticks + if i == 2 then 4 else 3
  {
    var calls := SubCalls(subs);
    var sub := subs[i];
    assert sub != "" && RetrieveEvidence(sub) == [ev[i]];
    PrefixStep(ev, i);
    PipelineDistinct(people);
    w2 := Round(people, w, sub, depth - 1);
    PerformStep(people, w, calls, i, depth, Outcome(w2, None));
  }

  /** The three rounds for the sub-questions `subs`, whose evidence `ev` has no repeat, from a
      verifier without facts and an assembler without partial answers: all calls succeed, the
      pool gains the three rounds' messages, ten in all, and both agents end up holding `ev`. */
  lemma ThreeRounds(people: seq<Agent>, w: World, subs: seq<string>, ev: seq<string>, depth: nat) returns (w3: World)
    requires DefaultPipeline(people) && Covers(people, w) && depth >= 4
    requires |subs| == 3 && |ev| == 3 && ev[0] != ev[1] && ev[1] != ev[2] && ev[0] != ev[2]
    requires forall k :: 0 <= k < 3 ==> subs[k] != "" && RetrieveEvidence(subs[k]) == [ev[k]]
    requires w.vars[people[2]].localState.verifiedFacts == [] && w.vars[people[3]].partialAnswers == []
    ensures PerformCalls(people, w, SubCalls(subs), depth) == Outcome(w3, None)
    ensures w3.pool == w.pool + RoundTrace(subs[0], w.ticks, false, AssembleAnswer(ev))
                              + RoundTrace(subs[1], w.ticks + 3, false, AssembleAnswer(ev))
                              + RoundTrace(subs[2], w.ticks + 6, true, AssembleAnswer(ev))
    ensures w3.ticks == w.ticks + 10
    ensures w3.vars[people[2]].localState.verifiedFacts == ev && w3.vars[people[3]].partialAnswers == ev
  {
    var calls := SubCalls(subs);
    assert ev[..0] == [] && ev[..3] == ev && calls[0..] == calls && calls[3..] == [];
    var w1 := RoundAt(people, w, subs, ev, 0, depth);
    var w2 := RoundAt(people, w1, subs, ev, 1, depth);
    w3 := RoundAt(people, w2, subs, ev, 2, depth);
  }

  /** The decomposition of any question meets what the rounds need: three non-empty
      sub-questions whose evidence has no repeat. */
  lemma QuestionFacts(question: string)
    ensures var subs := DecomposeQuestion(question); var ev := Evidence(question);
            && |subs| == 3 && |ev| == 3 && ev[0] != ev[1] && ev[1] != ev[2] && ev[0] != ev[2]
            && forall k :: 0 <= k < 3 ==> subs[k] != "" && RetrieveEvidence(subs[k]) == [ev[k]]
  {
    var subs := DecomposeQuestion(question);
    EvidenceDistinct(question);
    forall k | 0 <= k < 3 ensures subs[k] != "" {
      assert EndsWith(subs[k], question);
    }
  }

  /** The trace is the question's message followed by the three rounds' messages. */
  lemma TraceSplit(user: string, question: string, t: nat)
    ensures var subs := DecomposeQuestion(question); var answer := AssembleAnswer(Evidence(question));
            PipelineTrace(user, question, t)
            == [Stamped(Text(question), user, DecomposerName, t)]
               + (RoundTrace(subs[0], t + 1, false, answer) + RoundTrace(subs[1], t + 1 + 3, false, answer)
                  + RoundTrace(subs[2], t + 1 + 6, true, answer))
  {
    var subs := DecomposeQuestion(question);
    var answer := AssembleAnswer(Evidence(question));
    AppendAssoc([Stamped(Text(question), user, DecomposerName, t)], RoundTrace(subs[0], t + 1, false, answer),
                RoundTrace(subs[1], t + 4, false, answer), RoundTrace(subs[2], t + 7, true, answer));
  }

  lemma AppendAssoc<T>(a: seq<T>, b: seq<T>, c: seq<T>, d: seq<T>)
    ensures a + b + c + d == a + (b + c + d)
  {
  }

  lemma AppendAssoc3<T>(a: seq<T>, b: seq<T>, c: seq<T>)
    ensures a + b + c == a + (b + c)
  {
  }

  /** A question from `user` to the decomposer of the default pipeline, with a verifier that
      holds no facts and an assembler that holds no partial answers, ends without an exception
      at any depth from 4 on, in the world `w3`: the pool gains exactly the eleven messages of
      the trace (the question, three rounds of three, and the final answer to the supervisor),
      the clock advances by eleven, and the verifier and the assembler each hold the three
      pieces of evidence. At depth 4 the final answer is delivered at depth 0, the last level
      allowed. */
  lemma PipelineRun(people: seq<Agent>, w: World, user: string, question: string, depth: nat) returns (w3: World)
    requires DefaultPipeline(people) && Covers(people, w) && depth >= 4
    requires w.vars[people[2]].localState.verifiedFacts == [] && w.vars[people[3]].partialAnswers == []
    ensures SendSpec(people, w, user, DecomposerName, "INFORM", Text(question), depth) == Outcome(w3, None)
    ensures w3.pool == w.pool + PipelineTrace(user, question, w.ticks)
    ensures w3.ticks == w.ticks + 11
    ensures w3.vars[people[2]].localState.verifiedFacts == Evidence(question)
    ensures w3.vars[people[3]].partialAnswers == Evidence(question)
  {
    var subs := DecomposeQuestion(question);
    var ev := Evidence(question);
    QuestionFacts(question);
    DecomposerLeg(people, w, user, question, depth);
    var m := Stamped(Text(question), user, DecomposerName, w.ticks);
    var w0 := Recorded(w, user, DecomposerName, Text(question));
    w3 := ThreeRounds(people, w0, subs, ev, depth);
    var r0 := RoundTrace(subs[0], w0.ticks, false, AssembleAnswer(ev));
    var r1 := RoundTrace(subs[1], w0.ticks + 3, false, AssembleAnswer(ev));
    var r2 := RoundTrace(subs[2], w0.ticks + 6, true, AssembleAnswer(ev));
    AppendAssoc(w0.pool, r0, r1, r2);
    AppendAssoc3(w.pool, [m], r0 + r1 + r2);
    TraceSplit(user, question, w.ticks);
  }
}
