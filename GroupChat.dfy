/** The round-based discussion layer over an environment: a pairwise trust graph with a clamped
    update rule, per-round summaries of the pool, and rounds that checkpoint without advancing
    the time. */
module GroupChat {
  import opened Wrappers
  import opened PyText
  import opened Messages
  import opened Pool
  import opened Agents
  import opened Env

  const DefaultTrust: real := 0.5
  const LearningRate: real := 0.1

  /** The rating's shift: 0.1 per rating point, centred on a rating of 4.5. */
  function Shift(rating: real): real
  {
    0.1 * rating - 0.45
  }

  /** `max(0.0, min(1.0, x))`. */
  function Clamp(x: real): (r: real)
    ensures 0.0 <= r <= 1.0
    ensures 0.0 <= x <= 1.0 ==> r == x
    ensures x < 0.0 ==> r == 0.0
    ensures x > 1.0 ==> r == 1.0
  {
    if x < 0.0 then 0.0 else if x > 1.0 then 1.0 else x
  }

  /** The updated score: the old score moved by a tenth of the rating's shift, kept in [0, 1]. */
  function NewScore(oldScore: real, rating: real): (r: real)
    ensures 0.0 <= r <= 1.0
  {
    Clamp(oldScore + LearningRate * Shift(rating))
  }

  /** A higher rating never gives a lower score. */
  lemma NewScoreMonotone(oldScore: real, rating1: real, rating2: real)
    requires rating1 <= rating2
    ensures NewScore(oldScore, rating1) <= NewScore(oldScore, rating2)
  {
  }

  /** A rating of 4.5 leaves a score in [0, 1] where it was. */
  lemma NeutralRating(oldScore: real)
    requires 0.0 <= oldScore <= 1.0
    ensures NewScore(oldScore, 4.5) == oldScore
  {
  }

  /** Ratings above 4.5 raise and ratings below 4.5 lower an unclamped score, by exactly
      one hundredth of the distance to 4.5. */
  lemma NewScoreDirection(oldScore: real, rating: real)
    requires 0.0 <= oldScore + LearningRate * Shift(rating) <= 1.0
    ensures NewScore(oldScore, rating) - oldScore == (rating - 4.5) / 100.0
    ensures rating > 4.5 ==> NewScore(oldScore, rating) > oldScore
    ensures rating < 4.5 ==> NewScore(oldScore, rating) < oldScore
  {
  }

  /** Every score of the graph lies in [0, 1]. */
  predicate ScoresInRange(graph: map<string, map<string, real>>)
  {
    forall a, b | a in graph && b in graph[a] :: 0.0 <= graph[a][b] <= 1.0
  }

  /** The initial graph over a set of names: one row per name, holding every other name at 0.5
      and no entry for the name itself. */
  predicate InitialTrust(graph: map<string, map<string, real>>, names: set<string>)
  {
    && graph.Keys == names
    && (forall a | a in graph :: graph[a].Keys == names - {a})
    && (forall a, b | a in graph && b in graph[a] :: graph[a][b] == DefaultTrust)
  }

  /** The initial graph is within range. */
  lemma InitialTrustInRange(graph: map<string, map<string, real>>, names: set<string>)
    requires InitialTrust(graph, names)
    ensures ScoresInRange(graph)
  {
  }

  /** One summary line: `str(send_from) + ": " + str(content)`. */
  function SummaryLine(m: Message): string
  {
    SenderText(m.sendFrom) + ": " + PayloadText(m.content)
  }

  function SummaryLines(ms: seq<Message>): (lines: seq<string>)
    ensures |lines| == |ms|
    ensures forall k :: 0 <= k < |ms| ==> lines[k] == SummaryLine(ms[k])
  {
    seq(|ms|, k requires 0 <= k < |ms| => SummaryLine(ms[k]))
  }

  /** The first line of a round's summary. */
  function RoundHeader(roundIndex: int): string
  {
    "Round " + IntToString(roundIndex) + " Summary:\n"
  }

  /** The summary of a round over the pool's list: the header, then one line per message in
      order, separated by newlines. */
  function SummaryText(roundIndex: int, ms: seq<Message>): (r: string)
    ensures RoundHeader(roundIndex) <= r
    ensures ms == [] ==> r == RoundHeader(roundIndex)
  {
    RoundHeader(roundIndex) + Join("\n", SummaryLines(ms))
  }

  /** The summaries of rounds 0 to `n - 1` over one list. */
  function Summaries(n: nat, ms: seq<Message>): (r: seq<string>)
    ensures |r| == n && forall i :: 0 <= i < n ==> r[i] == SummaryText(i, ms)
  {
    seq(n, i => SummaryText(i, ms))
  }

  /** One more round: the summaries of rounds 0..n are those of rounds 0..n-1 and round n's. */
  lemma SummariesSnoc(n: nat, ms: seq<Message>)
    ensures Summaries(n + 1, ms) == Summaries(n, ms) + [SummaryText(n, ms)]
  {
  }

  /** The header property of the entries after `history0` survives appending a summary of the next round. */
  lemma HeadersSnoc(history0: seq<string>, before: seq<string>, n: nat, summary: string)
    requires |before| == |history0| + n
    requires forall j :: 0 <= j < n ==> RoundHeader(j) <= before[|history0| + j]
    requires RoundHeader(n) <= summary
    ensures forall j :: 0 <= j <= n ==> RoundHeader(j) <= (before + [summary])[|history0| + j]
  {
  }

  /** A message appended to a non-empty pool adds one newline and its line at the end of the summary. */
  lemma SummaryTextSnoc(roundIndex: int, ms: seq<Message>, m: Message)
    requires ms != []
    ensures SummaryText(roundIndex, ms + [m]) == SummaryText(roundIndex, ms) + "\n" + SummaryLine(m)
  {
    assert SummaryLines(ms + [m]) == SummaryLines(ms) + [SummaryLine(m)];
    JoinSnoc("\n", SummaryLines(ms), SummaryLine(m));
  }

  /** The summary of a single message is the header followed by that message's line. */
  lemma SummaryTextSingle(roundIndex: int, m: Message)
    ensures SummaryText(roundIndex, [m]) == RoundHeader(roundIndex) + SummaryLine(m)
  {
    assert SummaryLines([m]) == [SummaryLine(m)];
  }

  class GroupChatEnvironment {
    const env: Environment
    var trustGraph: map<string, map<string, real>>
    var discussionHistory: seq<string>

    ghost predicate Valid()
      reads env`currentTime, env`globalHistory, env.agents`messageBus
    {
      env.Valid()
    }

    /** The agents' names as a set. */
    function NameSet(): set<string>
    {
      set x | x in NamesOf(env.people)
    }

    /** Sets up the environment over `people`, a trust graph at 0.5 for every ordered pair of
        distinct names, and an empty discussion history. */
    constructor (people: seq<Agent>)
      modifies set a | a in people
      ensures Valid()
      ensures env.people == people && fresh(env) && fresh(env.pool)
      ensures env.currentTime == 0 && env.globalHistory == map[] && !env.globalConflictRaised
      ensures env.ticks == 0 && env.conflictDetails == None
      ensures forall a | a in people :: a.localState == old(a.localState) && a.partialAnswers == old(a.partialAnswers)
                                        && a.interventionCount == old(a.interventionCount)
      ensures env.pool.messages == [] && env.pool.historySnapshots == map[]
      ensures InitialTrust(trustGraph, NameSet())
      ensures discussionHistory == []
    {
      env := new Environment(people);
      new;
      trustGraph := InitializeTrustGraph();
      discussionHistory := [];
    }

    /** Builds the initial trust graph: a row per agent, 0.5 for every other name. */
    method InitializeTrustGraph() returns (graph: map<string, map<string, real>>)
      ensures InitialTrust(graph, NameSet())
    {
      var names := NamesOf(env.people);
      graph := map[];
      for i := 0 to |names|
        invariant graph.Keys == set x | x in names[..i]
        invariant forall a | a in graph :: graph[a].Keys == NameSet() - {a}
        invariant forall a, b | a in graph && b in graph[a] :: graph[a][b] == DefaultTrust
      {
        var agentName := names[i];
        var row: map<string, real> := map[];
        for j := 0 to |names|
          invariant row.Keys == (set x | x in names[..j]) - {agentName}
          invariant forall b | b in row :: row[b] == DefaultTrust
        {
          if names[j] != agentName {
            row := row[names[j] := DefaultTrust];
          }
          assert names[..j + 1] == names[..j] + [names[j]];
        }
        assert names[..|names|] == names;
        graph := graph[agentName := row];
        assert names[..i + 1] == names[..i] + [names[i]];
      }
      assert names[..|names|] == names;
    }

    /** Moves the evaluator's score of the evaluatee by the rating; a missing evaluatee counts
        as 0.5, a missing evaluator raises KeyError. Only that one entry changes. */
    method UpdateTrustScore(evaluator: string, evaluatee: string, rating: real) returns (err: Option<PyException>)
      modifies this`trustGraph
      ensures evaluator !in old(trustGraph) ==> err == Some(KeyError) && trustGraph == old(trustGraph)
      ensures evaluator in old(trustGraph) ==>
                err == None &&
                var row := old(trustGraph)[evaluator];
                var oldScore := if evaluatee in row then row[evaluatee] else DefaultTrust;
                trustGraph == old(trustGraph)[evaluator := row[evaluatee := NewScore(oldScore, rating)]]
      ensures ScoresInRange(old(trustGraph)) ==> ScoresInRange(trustGraph)
    {
      if evaluator !in trustGraph {
        return Some(KeyError);
      }
      var row := trustGraph[evaluator];
      var oldScore := if evaluatee in row then row[evaluatee] else DefaultTrust;
      var shift := Shift(rating);
      var newScore := oldScore + LearningRate * shift;
      newScore := Clamp(newScore);
      trustGraph := trustGraph[evaluator := row[evaluatee := newScore]];
      err := None;
    }

    /** The summary of round `roundIndex` over the pool's current list. */
    function SummaryOfRound(roundIndex: int): string
      reads env.pool`messages
    {
      SummaryText(roundIndex, env.pool.messages)
    }

    /** One round: a checkpoint at the current time (which does not advance), the agents'
        (empty) steps, conflict resolution if a conflict is raised, and one summary appended. */
    method RunRound(roundIndex: int)
      requires Valid()
      modifies this`discussionHistory, env`currentTime, env`globalHistory, env`globalConflictRaised
      modifies env`conflictDetails, env.pool`messages, env.agents`localState
      ensures Valid()
      ensures !env.globalConflictRaised
      ensures discussionHistory == old(discussionHistory) + [SummaryOfRound(roundIndex)]
      ensures !old(env.globalConflictRaised) ==>
                env.currentTime == old(env.currentTime) &&
                env.globalHistory == old(env.globalHistory)[env.currentTime := env.SnapshotAt(env.currentTime)] &&
                env.pool.messages == old(env.pool.messages) && unchanged(env.agents) &&
                env.globalConflictRaised == old(env.globalConflictRaised)
      ensures old(env.globalConflictRaised) ==>
                env.ResolvedFrom(old(env.globalHistory)[old(env.currentTime) := old(env.SnapshotAt(env.currentTime))],
                                 old(env.currentTime), old(env.pool.messages), old(env.StateMap()))
    {
      env.CheckpointAndStep();
      var summary := SummaryOfRound(roundIndex);
      discussionHistory := discussionHistory + [summary];
    }

    /** Runs rounds 0 to `nRounds - 1` in order, one summary each. Without a raised conflict the
        pool stays as it is, so every summary is over the same list. */
    method StartDiscussion(nRounds: int)
      requires Valid()
      modifies this`discussionHistory, env`currentTime, env`globalHistory, env`globalConflictRaised
      modifies env`conflictDetails, env.pool`messages, env.agents`localState
      ensures Valid()
      ensures |discussionHistory| == |old(discussionHistory)| + (if nRounds > 0 then nRounds else 0)
      ensures nRounds > 0 || !old(env.globalConflictRaised) ==> !env.globalConflictRaised
      ensures old(discussionHistory) <= discussionHistory
      ensures forall i :: 0 <= i < |discussionHistory| - |old(discussionHistory)| ==>
                RoundHeader(i) <= discussionHistory[|old(discussionHistory)| + i]
      ensures !old(env.globalConflictRaised) ==>
                discussionHistory == old(discussionHistory)
                  + Summaries(if nRounds > 0 then nRounds else 0, env.pool.messages) &&
                env.currentTime == old(env.currentTime) && env.pool.messages == old(env.pool.messages)
    {
      ghost var quiet := !env.globalConflictRaised;
      ghost var history0, time0, messages0 := discussionHistory, env.currentTime, env.pool.messages;
      var count := if nRounds > 0 then nRounds else 0;
      for i := 0 to count
        invariant Valid()
        invariant |discussionHistory| == |history0| + i
        invariant i > 0 || quiet ==> !env.globalConflictRaised
        invariant history0 <= discussionHistory
        invariant forall j :: 0 <= j < i ==> RoundHeader(j) <= discussionHistory[|history0| + j]
        invariant quiet ==>
                    discussionHistory == history0 + Summaries(i, messages0) &&
                    env.currentTime == time0 && env.pool.messages == messages0
      {
        ghost var before := discussionHistory;
        RunRound(i);
        HeadersSnoc(history0, before, i, SummaryOfRound(i));
        if quiet {
          SummariesSnoc(i, messages0);
        }
      }
    }

    /** Three discussion rounds followed by twenty time steps. */
    method Start()
      requires Valid()
      modifies this`discussionHistory, env`currentTime, env`globalHistory, env`globalConflictRaised
      modifies env`conflictDetails, env.pool`messages, env.agents`localState
      ensures Valid()
      ensures |discussionHistory| == |old(discussionHistory)| + 3
      ensures !env.globalConflictRaised
      ensures !old(env.globalConflictRaised) ==>
                env.currentTime == old(env.currentTime) + 20 && env.pool.messages == old(env.pool.messages)
    {
      StartDiscussion(3);
      env.RunUntilStable(20);
    }
  }
}
