/**
 * The round state machine: the seven phase handlers that update one game
 * state in place, the transcript summaries they show the players, the routing
 * after each terminal check, and the loop that runs a game to its end.
 *
 * Every handler is specified against a function of the state it starts from,
 * of the language model's call position and of the random source's cursor;
 * the lemmas below state what those functions mean for the game.
 */
module Graph {
  import opened Util
  import opened Schemas
  import opened Random
  import opened Engine
  import opened Agent

  type Agents = map<int, TraitorsAgent>

  /** The `phase` entry of the public discussion's messages. */
  const DiscussionPhase := "discussion"

  /** The `phase` entry of the traitors' private messages. */
  const TraitorChatPhase := "traitor_chat"

  // ---------------------------------------------------------------- summaries

  /** `f"P{m.speaker_id}: {m.content}"`. */
  function Line(m: PublicMessage): string
  {
    PlayerName(m.speakerId) + ": " + m.content
  }

  /** `" ".join(lines)`. */
  function JoinLines(ms: seq<PublicMessage>): string
  {
    if ms == [] then ""
    else if |ms| == 1 then Line(ms[0])
    else JoinLines(ms[..|ms| - 1]) + " " + Line(ms[|ms| - 1])
  }

  /** How many of the latest messages a summary shows. */
  const Window := 6

  /**
   * A transcript summary: a placeholder for an empty transcript, otherwise
   * the last `maxChars` characters of the last six messages' lines.
   */
  function Summary(ms: seq<PublicMessage>, placeholder: string, maxChars: nat): (r: string)
    ensures ms == [] ==> r == placeholder
    ensures ms != [] ==> 0 < maxChars ==> |r| <= maxChars
    ensures ms != [] ==>
      var joined := JoinLines(PyLast(ms, Window)); |r| <= |joined| && r == joined[|joined| - |r|..]
    ensures ms != [] && |JoinLines(PyLast(ms, Window))| <= maxChars ==> r == JoinLines(PyLast(ms, Window))
  {
    if ms == [] then placeholder else PyLast(JoinLines(PyLast(ms, Window)), maxChars)
  }

  /** A summary is a function of the last six messages only. */
  lemma SummaryOfRecent(older: seq<PublicMessage>, recent: seq<PublicMessage>, placeholder: string, maxChars: nat)
    requires |recent| >= Window
    ensures Summary(older + recent, placeholder, maxChars) == Summary(recent, placeholder, maxChars)
  {
    var all := older + recent;
    assert PyLast(all, Window) == PyLast(recent, Window) by {
      assert all[|all| - Window..] == recent[|recent| - Window..];
    }
  }

  /** `_public_summary`, with its default of 600 characters. */
  function PublicSummary(ms: seq<PublicMessage>): string
  {
    Summary(ms, "No public messages yet.", 600)
  }

  /** `_traitor_summary`, with its default of 400 characters. */
  function TraitorSummary(ms: seq<PublicMessage>): string
  {
    Summary(ms, "No private traitor messages yet.", 400)
  }

  // ---------------------------------------------------------------- views

  /** What every view built in one phase shares, the alive players' names among it. */
  datatype Table = Table(round: int, aliveIds: seq<int>, aliveNames: seq<string>, publicSummary: string,
                         traitorIds: seq<int>, traitorSummary: string, rng: Rng)

  /** The names of the listed players, in order. */
  function NamesOf(ids: seq<int>): seq<string>
  {
    seq(|ids|, i requires 0 <= i < |ids| => PlayerName(ids[i]))
  }

  /** One player's view in a phase. */
  function ViewFor(t: Table, private: AgentPrivate, allowed: Option<seq<int>>): View
  {
    View(t.round, t.aliveIds, t.aliveNames, t.publicSummary, private.memorySummary, private.suspicionScores,
         t.traitorIds, t.traitorSummary, if allowed.Some? then allowed.value else [], t.rng)
  }

  /** A view of a phase is the `build_view` call over the name map the phase builds for its alive players. */
  lemma ViewForBuilds(t: Table, private: AgentPrivate, allowed: Option<seq<int>>)
    requires t.aliveNames == NamesOf(t.aliveIds)
    ensures forall i :: 0 <= i < |t.aliveIds| ==> t.aliveIds[i] in PlayerNames(t.aliveIds)
    ensures ViewFor(t, private, allowed)
         == BuildView(t.round, t.aliveIds, PlayerNames(t.aliveIds), t.publicSummary, private,
                      t.traitorIds, t.traitorSummary, allowed, t.rng)
  {
    forall i | 0 <= i < |t.aliveIds| ensures t.aliveIds[i] in PlayerNames(t.aliveIds) {
      assert t.aliveIds[i] in Elems(t.aliveIds);
    }
  }

  /** The table of the public phases: every traitor id is listed, and there is no traitor summary. */
  function PublicTable(s: GameState): Table
    reads s
  {
    var ids := Sorted(s.alive);
    Table(s.roundIdx, ids, NamesOf(ids), PublicSummary(s.publicTranscript), Sorted(s.traitors), "", s.rng)
  }

  /** The table of the traitor phases: only the alive traitors, and the private transcript's summary. */
  function TraitorTable(s: GameState): Table
    reads s
  {
    var ids := Sorted(s.alive);
    Table(s.roundIdx, ids, NamesOf(ids), PublicSummary(s.publicTranscript), Sorted(s.traitors * s.alive),
          TraitorSummary(s.traitorTranscript), s.rng)
  }

  /**
   * What the handlers look up for every alive player: its agent, which
   * answers to its id and talks to the session's model, and its private record.
   */
  predicate Ready(s: GameState, agents: Agents, llm: Llm)
    reads s
  {
    Seated(agents, s.agentStates, Sorted(s.alive)) && Connected(agents, Sorted(s.alive), llm)
  }

  /** Every listed player has an agent answering to its id, and a private record. */
  predicate Seated(agents: Agents, states: map<int, AgentPrivate>, ids: seq<int>)
  {
    forall i :: 0 <= i < |ids| ==> ids[i] in agents && agents[ids[i]].id == ids[i] && ids[i] in states
  }

  /** Every listed player's agent talks to the session's model. */
  predicate Connected(agents: Agents, ids: seq<int>, llm: Llm)
  {
    forall i :: 0 <= i < |ids| ==> ids[i] in agents && agents[ids[i]].llm == llm
  }

  /** Whether every id of `alive` has an agent answering to it on the session's model, and a private record. */
  predicate Manned(alive: set<int>, states: map<int, AgentPrivate>, agents: Agents, llm: Llm)
  {
    forall p :: p in alive ==> p in agents && agents[p].id == p && agents[p].llm == llm && p in states
  }

  /** Readiness, player by player. */
  lemma ReadyMeans(s: GameState, agents: Agents, llm: Llm)
    ensures Ready(s, agents, llm) <==> Manned(s.alive, s.agentStates, agents, llm)
  {
    ListedMeans(Sorted(s.alive), s.alive, s.agentStates, agents, llm);
  }

  lemma ListedMeans(ids: seq<int>, alive: set<int>, states: map<int, AgentPrivate>, agents: Agents, llm: Llm)
    requires Elems(ids) == alive
    ensures Seated(agents, states, ids) && Connected(agents, ids, llm) <==> Manned(alive, states, agents, llm)
  {
    if Seated(agents, states, ids) && Connected(agents, ids, llm) {
      forall p | p in alive ensures p in agents && agents[p].id == p && agents[p].llm == llm && p in states {
        assert p in Elems(ids);
        var i :| 0 <= i < |ids| && ids[i] == p;
      }
    }
    if Manned(alive, states, agents, llm) {
      forall i | 0 <= i < |ids| ensures ids[i] in agents && agents[ids[i]].id == ids[i] && ids[i] in states {
        var p := ids[i];
        assert p in Elems(ids);
      }
      forall i | 0 <= i < |ids| ensures ids[i] in agents && agents[ids[i]].llm == llm {
        var p := ids[i];
        assert p in Elems(ids);
      }
    }
  }

  /** An alive set that is not a singleton leaves every voter somebody else to name. */
  lemma NotAlone(alive: set<int>)
    requires |alive| != 1
    ensures Sorted(alive) != [] ==> |Elems(Sorted(alive))| >= 2
  {
  }

  /** The fields of a game state the handlers may update. */
  datatype Fields = Fields(roundIdx: int, phase: Phase, alive: set<int>, publicTranscript: seq<PublicMessage>,
                           voteHistory: seq<VoteRecord>, traitorTranscript: seq<PublicMessage>,
                           agentStates: map<int, AgentPrivate>, eliminatedOrder: seq<int>, winner: Option<Winner>)

  function FieldsOf(s: GameState): Fields
    reads s
  {
    Fields(s.roundIdx, s.phase, s.alive, s.publicTranscript, s.voteHistory, s.traitorTranscript,
           s.agentStates, s.eliminatedOrder, s.winner)
  }

  // ---------------------------------------------------------------- discussion

  /**
   * The stored suspicion map after a belief update: one entry per other
   * alive player, the update's score where it gives one and 0.5 elsewhere.
   */
  function Normalize(scores: map<int, real>, aliveIds: seq<int>, self: int): (r: map<int, real>)
    ensures r.Keys == Elems(aliveIds) - {self}
    ensures forall p :: p in r && p !in scores ==> r[p] == 0.5
    ensures forall p :: p in r && p in scores ==> r[p] == scores[p]
    ensures ScoresInRange(scores) ==> ScoresInRange(r)
  {
    map p | p in Elems(aliveIds) && p != self :: if p in scores then scores[p] else 0.5
  }

  /** A speaker's stored suspicions after a belief update: one score in [0, 1] per other alive player. */
  predicate Suspects(private: AgentPrivate, aliveIds: seq<int>, pid: int)
  {
    private.suspicionScores.Keys == Elems(aliveIds) - {pid} && ScoresInRange(private.suspicionScores)
  }

  /** Messages appended, private records after, and the model's call position after. */
  datatype Talk = Talk(messages: seq<PublicMessage>, states: map<int, AgentPrivate>, calls: nat)

  /** The public messages one speaker posts in a round, one per text. */
  function Messages(round: int, pid: int, texts: seq<string>): (ms: seq<PublicMessage>)
    ensures |ms| == |texts|
    ensures forall i :: 0 <= i < |ms| ==> ms[i] == PublicMessage(round, DiscussionPhase, pid, texts[i])
  {
    seq(|texts|, i requires 0 <= i < |texts| => PublicMessage(round, DiscussionPhase, pid, texts[i]))
  }

  lemma MessagesStep(round: int, pid: int, texts: seq<string>, text: string)
    ensures Messages(round, pid, texts + [text]) == Messages(round, pid, texts) + [PublicMessage(round, DiscussionPhase, pid, text)]
  {
    assert Messages(round, pid, texts + [text])[..|texts|] == Messages(round, pid, texts);
  }

  /** The texts of `n` speak calls of one speaker, from model call position `at`. */
  function Replies(a: TraitorsAgent, view: View, at: nat, n: nat): (texts: seq<string>)
    ensures |texts| == n
  {
    seq(n, i requires 0 <= i < n => a.SpeechAt(SpeakRequest, view, at + i))
  }

  lemma RepliesStep(a: TraitorsAgent, view: View, at: nat, n: nat, next: nat)
    requires next == at + n
    ensures Replies(a, view, at, n + 1) == Replies(a, view, at, n) + [a.SpeechAt(SpeakRequest, view, next)]
  {
    assert Replies(a, view, at, n + 1)[..n] == Replies(a, view, at, n);
  }

  /** One player's discussion turn: the belief update unless memory is off, then its messages. */
  function DiscussTurn(a: TraitorsAgent, t: Table, noMemory: bool, turns: nat, pid: int, before: Talk): (after: Talk)
    requires pid in before.states
    ensures after.states.Keys == before.states.Keys
    ensures |after.messages| == |before.messages| + turns && after.messages[..|before.messages|] == before.messages
    ensures forall i :: |before.messages| <= i < |after.messages| ==>
      after.messages[i].speakerId == pid && after.messages[i].round == t.round && after.messages[i].phase == DiscussionPhase
    ensures noMemory ==> after.states == before.states
    ensures !noMemory ==> after.states == before.states[pid := after.states[pid]] && Suspects(after.states[pid], t.aliveIds, pid)
  {
    var view := ViewFor(t, before.states[pid], None);
    if noMemory then
      Talk(before.messages + Messages(t.round, pid, Replies(a, view, before.calls, turns)), before.states, before.calls + turns)
    else
      var b := a.BeliefAt(view, before.calls);
      var private := before.states[pid].(suspicionScores := Normalize(b.update.scores, t.aliveIds, pid),
                                         lastRationale := Some(b.update.notes));
      Talk(before.messages + Messages(t.round, pid, Replies(a, view, b.calls, turns)), before.states[pid := private], b.calls + turns)
  }

  /** The messages `n` speakers post with `turns` messages each, counted speaker by speaker. */
  function MessageCount(n: nat, turns: nat): (m: nat)
    ensures m == n * turns
  {
    if n == 0 then 0 else MessageCount(n - 1, turns) + turns
  }

  /**
   * The discussion phase over the first `n` speakers of `ids`, in order, from
   * the transcript, records and call position `start`. It keeps the transcript
   * it started from and appends `turns` messages per speaker, each a
   * discussion message of the table's round by a listed speaker. With memory
   * on, every speaker's stored suspicions end up keyed by exactly the other
   * alive players, with scores in [0, 1]; with memory off no private record
   * changes.
   */
  function Discuss(agents: Agents, t: Table, noMemory: bool, turns: nat, ids: seq<int>, n: nat, start: Talk): (d: Talk)
    requires n <= |ids| && Seated(agents, start.states, ids)
    ensures d.states.Keys == start.states.Keys
    ensures |d.messages| == |start.messages| + MessageCount(n, turns)
    ensures forall j :: 0 <= j < |start.messages| ==> d.messages[j] == start.messages[j]
    ensures forall j :: |start.messages| <= j < |d.messages| ==>
      d.messages[j].round == t.round && d.messages[j].phase == DiscussionPhase && d.messages[j].speakerId in Elems(ids)
    ensures noMemory ==> d.states == start.states
    ensures !noMemory ==> forall k :: 0 <= k < n ==> Suspects(d.states[ids[k]], t.aliveIds, ids[k])
  {
    if n == 0 then start
    else
      var before := Discuss(agents, t, noMemory, turns, ids, n - 1, start);
      var pid := ids[n - 1];
      var d := DiscussTurn(agents[pid], t, noMemory, turns, pid, before);
      assert pid in Elems(ids);
      assert forall j :: 0 <= j < |before.messages| ==> d.messages[j] == d.messages[..|before.messages|][j];
      d
  }

  /** One speaker's turn of `discussion_node`: the belief update unless memory is off, then the messages. */
  method TakeTurn(s: GameState, agent: TraitorsAgent, t: Table, noMemory: bool, turns: nat, pid: int, llm: Llm)
    requires pid in s.agentStates && agent.llm == llm
    modifies s, llm
    ensures Talk(s.publicTranscript, s.agentStates, llm.calls)
         == DiscussTurn(agent, t, noMemory, turns, pid, old(Talk(s.publicTranscript, s.agentStates, llm.calls)))
    ensures s.roundIdx == old(s.roundIdx) && s.alive == old(s.alive) && s.voteHistory == old(s.voteHistory)
    ensures s.traitorTranscript == old(s.traitorTranscript) && s.eliminatedOrder == old(s.eliminatedOrder)
    ensures s.winner == old(s.winner) && s.phase == old(s.phase)
  {
    var private := s.agentStates[pid];
    var view := ViewFor(t, private, None);
    if !noMemory {
      var update, error := agent.UpdateBeliefs(view);
      s.agentStates := s.agentStates[pid := private.(suspicionScores := Normalize(update.scores, t.aliveIds, pid),
                                                     lastRationale := Some(update.notes))];
    }
    Orate(s, agent, view, t.round, pid, turns, llm);
  }

  /** The speaking loop of a discussion turn: `turns` messages from one speaker, one model call each. */
  method Orate(s: GameState, agent: TraitorsAgent, view: View, round: int, pid: int, turns: nat, llm: Llm)
    requires agent.llm == llm
    modifies s, llm
    ensures s.publicTranscript == old(s.publicTranscript) + Messages(round, pid, Replies(agent, view, old(llm.calls), turns))
    ensures llm.calls == old(llm.calls) + turns
    ensures s.agentStates == old(s.agentStates)
    ensures s.roundIdx == old(s.roundIdx) && s.alive == old(s.alive) && s.voteHistory == old(s.voteHistory)
    ensures s.traitorTranscript == old(s.traitorTranscript) && s.eliminatedOrder == old(s.eliminatedOrder)
    ensures s.winner == old(s.winner) && s.phase == old(s.phase)
  {
    ghost var at := llm.calls;
    ghost var base := s.publicTranscript;
    ghost var said: seq<string> := [];
    for j := 0 to turns
      invariant said == Replies(agent, view, at, j)
      invariant s.publicTranscript == base + Messages(round, pid, said)
      invariant llm.calls == at + j
      invariant s.agentStates == old(s.agentStates)
      invariant s.roundIdx == old(s.roundIdx) && s.alive == old(s.alive) && s.voteHistory == old(s.voteHistory)
      invariant s.traitorTranscript == old(s.traitorTranscript) && s.eliminatedOrder == old(s.eliminatedOrder)
      invariant s.winner == old(s.winner) && s.phase == old(s.phase)
    {
      ghost var next := llm.calls;
      RepliesStep(agent, view, at, j, next);
      var content := agent.Speak(view);
      MessagesStep(round, pid, said, content);
      Associative(base, Messages(round, pid, said), [PublicMessage(round, DiscussionPhase, pid, content)]);
      said := said + [content];
      s.publicTranscript := s.publicTranscript + [PublicMessage(round, DiscussionPhase, pid, content)];
    }
  }

  lemma Associative<T>(a: seq<T>, b: seq<T>, c: seq<T>)
    ensures a + b + c == a + (b + c)
  {
  }

  /** `discussion_node`: every alive player, in ascending id order, takes its turn. */
  method DiscussionNode(s: GameState, agents: Agents, llm: Llm)
    requires Ready(s, agents, llm)
    modifies s, llm
    ensures Talk(s.publicTranscript, s.agentStates, llm.calls)
         == Discuss(agents, old(PublicTable(s)), s.config.NoMemory(), Count(s.config.discussionTurns),
                    old(Sorted(s.alive)), |old(s.alive)|, old(Talk(s.publicTranscript, s.agentStates, llm.calls)))
    ensures s.phase == Discussion
    ensures s.roundIdx == old(s.roundIdx) && s.alive == old(s.alive) && s.voteHistory == old(s.voteHistory)
    ensures s.traitorTranscript == old(s.traitorTranscript) && s.eliminatedOrder == old(s.eliminatedOrder)
    ensures s.winner == old(s.winner)
  {
    var t := PublicTable(s);
    Converse(s, agents, t, s.config.NoMemory(), Count(s.config.discussionTurns), llm);
    s.phase := Discussion;
  }

  /** The turn loop of `discussion_node`. */
  method Converse(s: GameState, agents: Agents, t: Table, noMemory: bool, turns: nat, llm: Llm)
    requires Seated(agents, s.agentStates, t.aliveIds) && Connected(agents, t.aliveIds, llm)
    modifies s, llm
    ensures Talk(s.publicTranscript, s.agentStates, llm.calls)
         == Discuss(agents, t, noMemory, turns, t.aliveIds, |t.aliveIds|, old(Talk(s.publicTranscript, s.agentStates, llm.calls)))
    ensures s.roundIdx == old(s.roundIdx) && s.alive == old(s.alive) && s.voteHistory == old(s.voteHistory)
    ensures s.traitorTranscript == old(s.traitorTranscript) && s.eliminatedOrder == old(s.eliminatedOrder)
    ensures s.winner == old(s.winner) && s.phase == old(s.phase)
  {
    var ids := t.aliveIds;
    ghost var start := Talk(s.publicTranscript, s.agentStates, llm.calls);
    for i := 0 to |ids|
      invariant Talk(s.publicTranscript, s.agentStates, llm.calls) == Discuss(agents, t, noMemory, turns, ids, i, start)
      invariant s.roundIdx == old(s.roundIdx) && s.alive == old(s.alive) && s.voteHistory == old(s.voteHistory)
      invariant s.traitorTranscript == old(s.traitorTranscript) && s.eliminatedOrder == old(s.eliminatedOrder)
      invariant s.winner == old(s.winner) && s.phase == old(s.phase)
    {
      TakeTurn(s, agents[ids[i]], t, noMemory, turns, ids[i], llm);
    }
  }

  // ---------------------------------------------------------------- voting and banishment

  /** Ballots cast so far, with the model's call position and the random cursor after them. */
  datatype Poll = Poll(ballots: seq<Ballot>, calls: nat, cursor: nat)

  /** The ids a ballot may name: the tied ids in a revote, the alive ids otherwise. */
  function Pool(t: Table, tied: Option<seq<int>>): seq<int>
  {
    if tied.Some? then tied.value else t.aliveIds
  }

  /**
   * Whether the handler keeps the target an agent returned: `validate_vote_action`
   * in the voting phase, membership of the tied ids in a revote; never the voter.
   */
  predicate Kept(action: VoteAction, pid: int, alive: set<int>, tied: Option<seq<int>>)
  {
    if tied.Some? then action.targetId in tied.value && action.targetId != pid
    else ValidateVoteAction(action, pid, alive) == Accepted
  }

  /** A vote needs somebody else to name, and a tied list needs no other condition. */
  lemma VoterHasChoice(a: TraitorsAgent, t: Table, tied: Option<seq<int>>, private: AgentPrivate, at: nat)
    requires |Elems(Pool(t, tied))| >= 2
    ensures Without(Pool(t, tied), a.id) != []
    ensures a.CanDecide(VoteRequest, ViewFor(t, private, tied), at)
  {
    LeavesOne(Elems(Pool(t, tied)), a.id);
    var view := ViewFor(t, private, tied);
    if tied.Some? {
      assert tied.value != [] by { assert tied.value[0] in Elems(tied.value); }
    }
    assert Elems(a.VoteCandidates(view)) != {};
  }

  /** The target one voter's ballot names, with the model's call position and the random cursor after it. */
  datatype Cast = Cast(target: int, calls: nat, cursor: nat)

  /**
   * One voter's ballot: the agent's target if the handler keeps it, otherwise
   * a draw among the other ids of the pool.
   */
  function VoteOf(a: TraitorsAgent, t: Table, alive: set<int>, tied: Option<seq<int>>, pid: int,
                  private: AgentPrivate, calls: nat, cursor: nat): (c: Cast)
    requires a.id == pid && |Elems(Pool(t, tied))| >= 2
    ensures Elems(t.aliveIds) == alive ==> c.target in Elems(Pool(t, tied)) - {pid}
  {
    VoterHasChoice(a, t, tied, private, calls);
    var d := a.DecisionAt(VoteRequest, ViewFor(t, private, tied), calls, cursor);
    if Kept(d.action, pid, alive, tied) then Cast(d.action.targetId, d.calls, d.cursor)
    else Cast(Pick(Without(Pool(t, tied), pid), DrawAt(t.rng.stream, d.cursor)), d.calls, d.cursor + 1)
  }

  /** The k-th ballot is cast by the k-th listed voter. */
  predicate InTurn(ballots: seq<Ballot>, ids: seq<int>)
  {
    |ballots| <= |ids| && forall k :: 0 <= k < |ballots| ==> ballots[k].voter == ids[k]
  }

  /** Every ballot names an id of `eligible`, and nobody names themself. */
  predicate NamedAmong(ballots: seq<Ballot>, eligible: set<int>, selfless: bool)
  {
    forall k :: 0 <= k < |ballots| ==> ballots[k].target in eligible && (selfless ==> ballots[k].target != ballots[k].voter)
  }

  /** Appending the next voter's ballot keeps both facts. */
  lemma Appended(before: seq<Ballot>, last: Ballot, ids: seq<int>, eligible: set<int>, selfless: bool)
    requires InTurn(before, ids) && |before| < |ids| && last.voter == ids[|before|]
    ensures InTurn(before + [last], ids)
    ensures NamedAmong(before, eligible, selfless) && last.target in eligible && (selfless ==> last.target != last.voter)
      ==> NamedAmong(before + [last], eligible, selfless)
  {
    var after := before + [last];
    forall k | 0 <= k < |after| ensures after[k] == if k < |before| then before[k] else last {
    }
  }

  /** The ballots of the first `n` voters of `ids`, in order, from call position `calls` and random cursor `cursor`. */
  function CastVotes(agents: Agents, t: Table, alive: set<int>, tied: Option<seq<int>>,
                     states: map<int, AgentPrivate>, ids: seq<int>, n: nat, calls: nat, cursor: nat): (p: Poll)
    requires n <= |ids| && Seated(agents, states, ids)
    requires ids != [] ==> |Elems(Pool(t, tied))| >= 2
    ensures |p.ballots| == n
  {
    if n == 0 then Poll([], calls, cursor)
    else Voted(agents[ids[n - 1]], t, alive, tied, ids[n - 1], states[ids[n - 1]],
               CastVotes(agents, t, alive, tied, states, ids, n - 1, calls, cursor))
  }

  /** The poll after voter `pid` adds a ballot to `before`. */
  function Voted(a: TraitorsAgent, t: Table, alive: set<int>, tied: Option<seq<int>>, pid: int,
                 private: AgentPrivate, before: Poll): (p: Poll)
    requires a.id == pid && |Elems(Pool(t, tied))| >= 2
    ensures |p.ballots| == |before.ballots| + 1 && p.ballots == before.ballots + [p.ballots[|before.ballots|]]
    ensures p.ballots[|before.ballots|].voter == pid
    ensures Elems(t.aliveIds) == alive ==> p.ballots[|before.ballots|].target in Elems(Pool(t, tied)) - {pid}
  {
    var c := VoteOf(a, t, alive, tied, pid, private, before.calls, before.cursor);
    Poll(before.ballots + [Ballot(pid, c.target)], c.calls, c.cursor)
  }

  /**
   * Every voter casts exactly one ballot, in the order of `ids`, and when the
   * table lists the alive players each ballot names another id of the pool.
   */
  lemma {:induction false} CastVotesMeaning(agents: Agents, t: Table, alive: set<int>, tied: Option<seq<int>>,
                                            states: map<int, AgentPrivate>, ids: seq<int>, n: nat, calls: nat, cursor: nat)
    requires n <= |ids| && Seated(agents, states, ids)
    requires ids != [] ==> |Elems(Pool(t, tied))| >= 2
    ensures InTurn(CastVotes(agents, t, alive, tied, states, ids, n, calls, cursor).ballots, ids)
    ensures Elems(t.aliveIds) == alive ==>
      NamedAmong(CastVotes(agents, t, alive, tied, states, ids, n, calls, cursor).ballots, Elems(Pool(t, tied)), true)
  {
    if n > 0 {
      CastVotesMeaning(agents, t, alive, tied, states, ids, n - 1, calls, cursor);
      var before := CastVotes(agents, t, alive, tied, states, ids, n - 1, calls, cursor);
      var p := CastVotes(agents, t, alive, tied, states, ids, n, calls, cursor);
      var pid := ids[n - 1];
      assert p == Voted(agents[pid], t, alive, tied, pid, states[pid], before);
      var last := p.ballots[n - 1];
      assert p.ballots == before.ballots + [last];
      Appended(before.ballots, last, ids, Elems(Pool(t, tied)), true);
    }
  }

  /** One voter's turn of the ballot loop: the agent's vote, and the fallback draw when the handler rejects it. */
  method CastBallot(s: GameState, agent: TraitorsAgent, t: Table, tied: Option<seq<int>>, pid: int, llm: Llm,
                    votes: seq<Ballot>)
    returns (votes': seq<Ballot>)
    requires agent.id == pid && agent.llm == llm && pid in s.agentStates && t.rng == s.rng
    requires |Elems(Pool(t, tied))| >= 2
    modifies llm, s.rng
    ensures Poll(votes', llm.calls, s.rng.cursor)
         == Voted(agent, t, s.alive, tied, pid, s.agentStates[pid], Poll(votes, old(llm.calls), old(s.rng.cursor)))
  {
    var view := ViewFor(t, s.agentStates[pid], tied);
    VoterHasChoice(agent, t, tied, s.agentStates[pid], llm.calls);
    var action, error := agent.Vote(view);
    var target := action.targetId;
    if !Kept(action, pid, s.alive, tied) {
      target := s.rng.Choice(Without(Pool(t, tied), pid));
    }
    votes' := votes + [Ballot(pid, target)];
  }

  /** The ballot loop shared by `voting_node` (no tie) and the revote of `banish_node` (the tied ids). */
  method CollectVotes(s: GameState, agents: Agents, t: Table, tied: Option<seq<int>>, llm: Llm)
    returns (votes: seq<Ballot>)
    requires Seated(agents, s.agentStates, t.aliveIds) && Connected(agents, t.aliveIds, llm) && t.rng == s.rng
    requires t.aliveIds != [] ==> |Elems(Pool(t, tied))| >= 2
    modifies llm, s.rng
    ensures Poll(votes, llm.calls, s.rng.cursor)
         == CastVotes(agents, t, s.alive, tied, s.agentStates, t.aliveIds, |t.aliveIds|, old(llm.calls), old(s.rng.cursor))
  {
    var ids := t.aliveIds;
    ghost var calls := llm.calls;
    ghost var cursor := s.rng.cursor;
    votes := [];
    for i := 0 to |ids|
      invariant Poll(votes, llm.calls, s.rng.cursor) == CastVotes(agents, t, s.alive, tied, s.agentStates, ids, i, calls, cursor)
    {
      var pid := ids[i];
      votes := CastBallot(s, agents[pid], t, tied, pid, llm, votes);
    }
  }

  /** `voting_node`: every alive player votes once, in ascending id order, and the ballots are recorded for the round. */
  method VotingNode(s: GameState, agents: Agents, llm: Llm)
    requires Ready(s, agents, llm) && |s.alive| != 1
    modifies s, llm, s.rng
    ensures var p := CastVotes(agents, old(PublicTable(s)), old(s.alive), None, old(s.agentStates), old(Sorted(s.alive)),
                               |old(s.alive)|, old(llm.calls), old(s.rng.cursor));
      FieldsOf(s) == old(FieldsOf(s)).(voteHistory := old(s.voteHistory) + [VoteRecord(old(s.roundIdx), p.ballots)],
                                       phase := Voting)
      && llm.calls == p.calls && s.rng.cursor == p.cursor
  {
    var t := PublicTable(s);
    NotAlone(s.alive);
    var votes := CollectVotes(s, agents, t, None, llm);
    s.voteHistory := s.voteHistory + [VoteRecord(s.roundIdx, votes)];
    s.phase := Voting;
  }

  /** The ballots of the latest recorded vote; none before any vote. */
  function LastVotes(history: seq<VoteRecord>): seq<Ballot>
  {
    if history == [] then [] else history[|history| - 1].votes
  }

  /** Who a phase removes, if anybody, with the model's call position and the random cursor after it. */
  datatype Removal = Removal(victim: Option<int>, calls: nat, cursor: nat)

  /** The alive set after a removal. */
  function AliveAfter(alive: set<int>, victim: Option<int>): set<int>
  {
    if victim.Some? then alive - {victim.value} else alive
  }

  /** The elimination order after a removal. */
  function OrderAfter(order: seq<int>, victim: Option<int>): seq<int>
  {
    if victim.Some? then order + [victim.value] else order
  }

  /** A banish tally that names nobody but reports a tie has at least two tied ids, all of them alive. */
  lemma TieIsWide(alive: set<int>, votes: seq<Ballot>, draw: nat)
    ensures var o := VoteOutcome(alive, votes, draw);
      o.eliminated.None? && o.tied != {} ==> |o.tied| >= 2 && o.tied <= alive && o.tied == Top(Counts(alive, votes))
  {
    var o := VoteOutcome(alive, votes, draw);
    var top := Top(o.counts);
    forall p | p in top ensures p in alive {
      TopIsPositiveMaximum(o.counts, p);
    }
  }

  /**
   * `banish_node` from the last recorded ballots: the tally, and on a tie
   * the runoff among the tied ids.
   */
  function Banish(agents: Agents, t: Table, alive: set<int>, votes: seq<Ballot>, states: map<int, AgentPrivate>,
                  calls: nat, cursor: nat): (r: Removal)
    requires Elems(t.aliveIds) == alive && Seated(agents, states, t.aliveIds)
    ensures r.victim.Some? <==> alive != {}
    ensures r.victim.Some? ==> r.victim.value in alive
  {
    var first := VoteOutcome(alive, votes, DrawAt(t.rng.stream, cursor));
    TieIsWide(alive, votes, DrawAt(t.rng.stream, cursor));
    Settle(agents, t, alive, first, states, calls, cursor + (if first.random then 1 else 0))
  }

  /**
   * What `banish_node` does after its first tally, from the call position and
   * cursor after it: the tally's pick stands unless it reports a tie, which
   * goes to the runoff.
   */
  function Settle(agents: Agents, t: Table, alive: set<int>, first: Tally, states: map<int, AgentPrivate>,
                  calls: nat, cursor: nat): (r: Removal)
    requires Elems(t.aliveIds) == alive && Seated(agents, states, t.aliveIds)
    requires first.eliminated.None? && first.tied != {} ==> |first.tied| >= 2 && first.tied <= alive
    ensures first.eliminated.Some? || first.tied == {} ==> r == Removal(first.eliminated, calls, cursor)
    ensures first.eliminated.None? && first.tied != {} ==> r.victim.Some? && r.victim.value in first.tied
  {
    if first.eliminated.Some? || first.tied == {} then Removal(first.eliminated, calls, cursor)
    else Runoff(agents, t, alive, Sorted(first.tied), states, calls, cursor)
  }

  /**
   * The tie-break of `banish_node`: a revote of every alive player restricted
   * to the tied ids and a second tally; if that names nobody, a draw among the
   * tied ids.
   */
  function Runoff(agents: Agents, t: Table, alive: set<int>, tied: seq<int>, states: map<int, AgentPrivate>,
                  calls: nat, cursor: nat): (r: Removal)
    requires Elems(t.aliveIds) == alive && Seated(agents, states, t.aliveIds)
    requires |Elems(tied)| >= 2 && Elems(tied) <= alive
    ensures r.victim.Some? && r.victim.value in Elems(tied)
  {
    var p := CastVotes(agents, t, alive, Some(tied), states, t.aliveIds, |t.aliveIds|, calls, cursor);
    RunoffLeader(agents, t, alive, tied, states, calls, cursor, VoteOutcome(alive, p.ballots, DrawAt(t.rng.stream, p.cursor)));
    Recount(alive, tied, t.rng.stream, p)
  }

  /** The second tally of `banish_node` over the revote's ballots, then a draw among the tied ids if it names nobody. */
  function Recount(alive: set<int>, tied: seq<int>, stream: seq<nat>, p: Poll): Removal
    requires tied != []
  {
    var second := VoteOutcome(alive, p.ballots, DrawAt(stream, p.cursor));
    Redraw(tied, stream, second, p.calls, p.cursor + (if second.random then 1 else 0))
  }

  /** After the second tally: its pick stands, or else one draw among the tied ids. */
  function Redraw(tied: seq<int>, stream: seq<nat>, second: Tally, calls: nat, cursor: nat): Removal
    requires tied != []
  {
    if second.eliminated.Some? then Removal(second.eliminated, calls, cursor)
    else Removal(Some(Pick(tied, DrawAt(stream, cursor))), calls, cursor + 1)
  }

  /**
   * Every revote ballot names a tied id, so the second tally has a leader, and
   * a leader was named by some ballot: a runoff that names somebody names a tied id.
   */
  lemma RunoffLeader(agents: Agents, t: Table, alive: set<int>, tied: seq<int>, states: map<int, AgentPrivate>,
                     calls: nat, cursor: nat, second: Tally)
    requires Elems(t.aliveIds) == alive && Seated(agents, states, t.aliveIds)
    requires |Elems(tied)| >= 2 && Elems(tied) <= alive
    requires var p := CastVotes(agents, t, alive, Some(tied), states, t.aliveIds, |t.aliveIds|, calls, cursor);
      second == VoteOutcome(alive, p.ballots, DrawAt(t.rng.stream, p.cursor))
    ensures !second.random
    ensures second.eliminated.Some? ==> second.eliminated.value in Elems(tied)
  {
    var p := CastVotes(agents, t, alive, Some(tied), states, t.aliveIds, |t.aliveIds|, calls, cursor);
    CastVotesMeaning(agents, t, alive, Some(tied), states, t.aliveIds, |t.aliveIds|, calls, cursor);
    assert t.aliveIds != [] by {
      var x := AnyOf(Elems(tied));
      assert x in Elems(t.aliveIds);
    }
    assert p.ballots[0].target in alive;
    VoteMakesLeader(alive, p.ballots, 0);
    if second.eliminated.Some? {
      var v := second.eliminated.value;
      assert v in Top(second.counts);
      LeaderWasVotedFor(alive, p.ballots, v);
      var k :| 0 <= k < |p.ballots| && p.ballots[k].target == v;
    }
  }

  /** After a tie the banished player is one of the tied leaders. */
  lemma BanishAfterTie(agents: Agents, t: Table, alive: set<int>, votes: seq<Ballot>, states: map<int, AgentPrivate>,
                       calls: nat, cursor: nat)
    requires Elems(t.aliveIds) == alive && Seated(agents, states, t.aliveIds)
    requires |Top(Counts(alive, votes))| > 1
    ensures Banish(agents, t, alive, votes, states, calls, cursor).victim.value in Top(Counts(alive, votes))
  {
    TieIsWide(alive, votes, DrawAt(t.rng.stream, cursor));
  }

  /** The revote, tallies and draws of `banish_node`, from the ballots of the voting phase. */
  method Expel(s: GameState, agents: Agents, t: Table, votes: seq<Ballot>, llm: Llm) returns (eliminated: Option<int>)
    requires Seated(agents, s.agentStates, t.aliveIds) && Connected(agents, t.aliveIds, llm)
    requires t.rng == s.rng && Elems(t.aliveIds) == s.alive
    modifies llm, s.rng
    ensures Removal(eliminated, llm.calls, s.rng.cursor)
         == Banish(agents, t, s.alive, votes, s.agentStates, old(llm.calls), old(s.rng.cursor))
  {
    TieIsWide(s.alive, votes, s.rng.Peek());
    var first := ApplyVote(s.alive, votes, s.rng);
    eliminated := Resolve(s, agents, t, first, llm);
  }

  /** The branch of `banish_node` after its first tally. */
  method Resolve(s: GameState, agents: Agents, t: Table, first: Tally, llm: Llm) returns (eliminated: Option<int>)
    requires Seated(agents, s.agentStates, t.aliveIds) && Connected(agents, t.aliveIds, llm)
    requires t.rng == s.rng && Elems(t.aliveIds) == s.alive
    requires first.eliminated.None? && first.tied != {} ==> |first.tied| >= 2 && first.tied <= s.alive
    modifies llm, s.rng
    ensures Removal(eliminated, llm.calls, s.rng.cursor)
         == Settle(agents, t, s.alive, first, s.agentStates, old(llm.calls), old(s.rng.cursor))
  {
    if first.eliminated.Some? || first.tied == {} {
      eliminated := first.eliminated;
    } else {
      eliminated := Revote(s, agents, t, Sorted(first.tied), llm);
    }
  }

  /** The tie branch of `banish_node`. */
  method Revote(s: GameState, agents: Agents, t: Table, tied: seq<int>, llm: Llm) returns (eliminated: Option<int>)
    requires Seated(agents, s.agentStates, t.aliveIds) && Connected(agents, t.aliveIds, llm)
    requires t.rng == s.rng && Elems(t.aliveIds) == s.alive
    requires |Elems(tied)| >= 2 && Elems(tied) <= s.alive
    modifies llm, s.rng
    ensures Removal(eliminated, llm.calls, s.rng.cursor)
         == Runoff(agents, t, s.alive, tied, s.agentStates, old(llm.calls), old(s.rng.cursor))
  {
    var revote := CollectVotes(s, agents, t, Some(tied), llm);
    eliminated := RecountBallots(s.alive, tied, revote, s.rng, llm.calls);
  }

  /** The second tally and the final draw of the tie branch of `banish_node`. */
  method RecountBallots(alive: set<int>, tied: seq<int>, votes: seq<Ballot>, rng: Rng, ghost calls: nat)
    returns (eliminated: Option<int>)
    requires tied != []
    modifies rng
    ensures Removal(eliminated, calls, rng.cursor) == Recount(alive, tied, rng.stream, Poll(votes, calls, old(rng.cursor)))
  {
    var second := ApplyVote(alive, votes, rng);
    eliminated := Decide(tied, second, rng, calls);
  }

  /** The final draw of the tie branch of `banish_node`, when the second tally names nobody. */
  method Decide(tied: seq<int>, second: Tally, rng: Rng, ghost calls: nat) returns (eliminated: Option<int>)
    requires tied != []
    modifies rng
    ensures Removal(eliminated, calls, rng.cursor) == Redraw(tied, rng.stream, second, calls, old(rng.cursor))
  {
    eliminated := second.eliminated;
    if eliminated.None? {
      var pick := rng.Choice(tied);
      eliminated := Some(pick);
    }
  }

  /** `banish_node`: the banished player, if any, leaves the alive set and joins the elimination order. */
  method BanishNode(s: GameState, agents: Agents, llm: Llm)
    requires Ready(s, agents, llm)
    modifies s, llm, s.rng
    ensures var r := Banish(agents, old(PublicTable(s)), old(s.alive), old(LastVotes(s.voteHistory)), old(s.agentStates),
                            old(llm.calls), old(s.rng.cursor));
      FieldsOf(s) == old(FieldsOf(s)).(alive := AliveAfter(old(s.alive), r.victim),
                                       eliminatedOrder := OrderAfter(old(s.eliminatedOrder), r.victim),
                                       phase := PostBanish)
      && llm.calls == r.calls && s.rng.cursor == r.cursor
  {
    var t := PublicTable(s);
    var eliminated := Expel(s, agents, t, LastVotes(s.voteHistory), llm);
    s.alive := AliveAfter(s.alive, eliminated);
    s.eliminatedOrder := OrderAfter(s.eliminatedOrder, eliminated);
    s.phase := PostBanish;
  }

  // ---------------------------------------------------------------- traitor chat and murder

  /** A sorted list of some alive players is seated and connected whenever the alive players are manned. */
  lemma SubsetSeated(ids: seq<int>, alive: set<int>, states: map<int, AgentPrivate>, agents: Agents, llm: Llm)
    requires Elems(ids) <= alive && Manned(alive, states, agents, llm)
    ensures Seated(agents, states, ids) && Connected(agents, ids, llm)
  {
    forall i | 0 <= i < |ids| ensures ids[i] in agents && agents[ids[i]].id == ids[i] && ids[i] in states {
      var p := ids[i];
      assert p in Elems(ids);
    }
    forall i | 0 <= i < |ids| ensures ids[i] in agents && agents[ids[i]].llm == llm {
      var p := ids[i];
      assert p in Elems(ids);
    }
  }

  /** Whoever is seated among the alive players is seated among the alive traitors. */
  lemma TraitorsSeated(alive: set<int>, traitors: set<int>, states: map<int, AgentPrivate>, agents: Agents, llm: Llm)
    requires Seated(agents, states, Sorted(alive)) && Connected(agents, Sorted(alive), llm)
    ensures Seated(agents, states, Sorted(traitors * alive)) && Connected(agents, Sorted(traitors * alive), llm)
  {
    ListedMeans(Sorted(alive), alive, states, agents, llm);
    SubsetSeated(Sorted(traitors * alive), alive, states, agents, llm);
  }

  /** Private messages appended so far, with the model's call position after them. */
  datatype Chat = Chat(messages: seq<PublicMessage>, calls: nat)

  /** One traitor's private message, spoken from call position `at`. */
  function Whisper(a: TraitorsAgent, t: Table, pid: int, private: AgentPrivate, at: nat): (m: PublicMessage)
    ensures m.speakerId == pid && m.round == t.round && m.phase == TraitorChatPhase
  {
    PublicMessage(t.round, TraitorChatPhase, pid, a.SpeechAt(TraitorChatRequest, ViewFor(t, private, None), at))
  }

  /** The private transcript and call position after the first `n` traitors of `ids` speak, in order, from `start`. */
  function Plot(agents: Agents, t: Table, states: map<int, AgentPrivate>, ids: seq<int>, n: nat, start: Chat): Chat
    requires n <= |ids| && Seated(agents, states, ids)
  {
    if n == 0 then start
    else
      var before := Plot(agents, t, states, ids, n - 1, start);
      var pid := ids[n - 1];
      Chat(before.messages + [Whisper(agents[pid], t, pid, states[pid], before.calls)], before.calls + 1)
  }

  /** The chat adds one message, and costs one model call, per listed traitor. */
  lemma {:induction false} PlotCounts(agents: Agents, t: Table, states: map<int, AgentPrivate>, ids: seq<int>, n: nat,
                                      start: Chat)
    requires n <= |ids| && Seated(agents, states, ids)
    ensures var c := Plot(agents, t, states, ids, n, start);
      |c.messages| == |start.messages| + n && c.calls == start.calls + n
  {
    if n > 0 {
      PlotCounts(agents, t, states, ids, n - 1, start);
    }
  }

  /** The chat only appends to the private transcript: what was there before is kept. */
  lemma {:induction false} PlotKeeps(agents: Agents, t: Table, states: map<int, AgentPrivate>, ids: seq<int>, n: nat,
                                     start: Chat)
    requires n <= |ids| && Seated(agents, states, ids)
    ensures (PlotCounts(agents, t, states, ids, n, start);
      var c := Plot(agents, t, states, ids, n, start);
      forall j :: 0 <= j < |start.messages| ==> c.messages[j] == start.messages[j])
  {
    PlotCounts(agents, t, states, ids, n, start);
    if n > 0 {
      PlotKeeps(agents, t, states, ids, n - 1, start);
      var before := Plot(agents, t, states, ids, n - 1, start);
      var c := Plot(agents, t, states, ids, n, start);
      assert c.messages[..|before.messages|] == before.messages;
    }
  }

  /**
   * The k-th appended message is the k-th listed traitor's, in the
   * traitor-chat phase of the table's round.
   */
  lemma {:induction false} PlotSpeakers(agents: Agents, t: Table, states: map<int, AgentPrivate>, ids: seq<int>, n: nat,
                                        start: Chat)
    requires n <= |ids| && Seated(agents, states, ids)
    ensures (PlotCounts(agents, t, states, ids, n, start);
      var c := Plot(agents, t, states, ids, n, start);
      forall j :: |start.messages| <= j < |c.messages| ==>
        c.messages[j].speakerId == ids[j - |start.messages|] && c.messages[j].round == t.round
        && c.messages[j].phase == TraitorChatPhase)
  {
    PlotCounts(agents, t, states, ids, n, start);
    if n > 0 {
      PlotSpeakers(agents, t, states, ids, n - 1, start);
      PlotCounts(agents, t, states, ids, n - 1, start);
      var before := Plot(agents, t, states, ids, n - 1, start);
      var c := Plot(agents, t, states, ids, n, start);
      var pid := ids[n - 1];
      var w := Whisper(agents[pid], t, pid, states[pid], before.calls);
      assert c.messages == before.messages + [w];
      forall j | |start.messages| <= j < |c.messages|
        ensures c.messages[j].speakerId == ids[j - |start.messages|] && c.messages[j].round == t.round
        ensures c.messages[j].phase == TraitorChatPhase
      {
        if j < |before.messages| {
          assert c.messages[j] == before.messages[j];
        } else {
          assert c.messages[j] == w;
        }
      }
    }
  }

  /** The speaking loop of `traitor_chat_node`. */
  method Conspire(s: GameState, agents: Agents, t: Table, llm: Llm)
    requires Seated(agents, s.agentStates, t.traitorIds) && Connected(agents, t.traitorIds, llm)
    modifies s, llm
    ensures var c := Plot(agents, t, old(s.agentStates), t.traitorIds, |t.traitorIds|, old(Chat(s.traitorTranscript, llm.calls)));
      FieldsOf(s) == old(FieldsOf(s)).(traitorTranscript := c.messages) && llm.calls == c.calls
  {
    var ids := t.traitorIds;
    ghost var start := Chat(s.traitorTranscript, llm.calls);
    ghost var before := FieldsOf(s);
    for i := 0 to |ids|
      invariant var c := Plot(agents, t, before.agentStates, ids, i, start);
        FieldsOf(s) == before.(traitorTranscript := c.messages) && llm.calls == c.calls
    {
      PostWhisper(s, agents[ids[i]], t, ids[i], llm);
    }
  }

  /** One traitor's turn of the chat loop: one model call, one private message. */
  method PostWhisper(s: GameState, agent: TraitorsAgent, t: Table, pid: int, llm: Llm)
    requires agent.llm == llm && pid in s.agentStates
    modifies s, llm
    ensures FieldsOf(s) == old(FieldsOf(s)).(traitorTranscript := old(s.traitorTranscript)
                                               + [Whisper(agent, t, pid, old(s.agentStates[pid]), old(llm.calls))])
    ensures llm.calls == old(llm.calls) + 1
  {
    var content := agent.TraitorChat(ViewFor(t, s.agentStates[pid], None));
    s.traitorTranscript := s.traitorTranscript + [PublicMessage(t.round, TraitorChatPhase, pid, content)];
  }

  /**
   * `traitor_chat_node`: with no traitor in the game only the phase changes;
   * otherwise every alive traitor, in ascending id order, posts one private message.
   */
  method TraitorChatNode(s: GameState, agents: Agents, llm: Llm)
    requires Ready(s, agents, llm)
    modifies s, llm
    ensures (TraitorsSeated(old(s.alive), s.traitors, old(s.agentStates), agents, llm);
      var t := old(TraitorTable(s));
      var c := Plot(agents, t, old(s.agentStates), t.traitorIds, |t.traitorIds|, old(Chat(s.traitorTranscript, llm.calls)));
      FieldsOf(s) == old(FieldsOf(s)).(traitorTranscript := c.messages, phase := TraitorChat)
      && llm.calls == c.calls)
  {
    var t := TraitorTable(s);
    if s.traitors == {} {
      s.phase := TraitorChat;
      return;
    }
    TraitorsSeated(s.alive, s.traitors, s.agentStates, agents, llm);
    Conspire(s, agents, t, llm);
    s.phase := TraitorChat;
  }

  /** Whether `murder_node` overrides a traitor's pick: a fellow traitor, a dead player, or the traitor itself. */
  predicate Overruled(target: int, pid: int, alive: set<int>, traitors: set<int>)
  {
    target in traitors || target !in alive || target == pid
  }

  /** With a faithful player alive, the murder fallback of the agent has somebody to draw. */
  lemma MurdererHasChoice(a: TraitorsAgent, t: Table, private: AgentPrivate, at: nat)
    requires Elems(t.aliveIds) - Elems(t.traitorIds) != {}
    ensures a.CanDecide(MurderRequest, ViewFor(t, private, None), at)
  {
    var view := ViewFor(t, private, None);
    assert Elems(a.MurderCandidates(view)) != {};
  }

  /**
   * One traitor's murder ballot: the agent's target unless the handler
   * overrides it, and then a draw among the alive faithful.
   */
  function MurderOf(a: TraitorsAgent, t: Table, alive: set<int>, traitors: set<int>, pid: int,
                    private: AgentPrivate, calls: nat, cursor: nat): (c: Cast)
    requires a.id == pid && Elems(t.aliveIds) == alive && Elems(t.traitorIds) == traitors * alive
    requires alive - traitors != {}
    ensures c.target in alive && c.target !in traitors
  {
    MurdererHasChoice(a, t, private, calls);
    var d := a.DecisionAt(MurderRequest, ViewFor(t, private, None), calls, cursor);
    if Overruled(d.action.targetId, pid, alive, traitors) then
      var candidates := Outside(t.aliveIds, traitors);
      assert Elems(candidates) != {};
      var target := Pick(candidates, DrawAt(t.rng.stream, d.cursor));
      assert target in Elems(candidates);
      Cast(target, d.calls, d.cursor + 1)
    else Cast(d.action.targetId, d.calls, d.cursor)
  }

  /** The murder ballots of the first `n` traitors of `ids`, in order. */
  function MurderVotes(agents: Agents, t: Table, alive: set<int>, traitors: set<int>, states: map<int, AgentPrivate>,
                       ids: seq<int>, n: nat, calls: nat, cursor: nat): (p: Poll)
    requires n <= |ids| && Seated(agents, states, ids)
    requires Elems(t.aliveIds) == alive && Elems(t.traitorIds) == traitors * alive
    requires ids != [] ==> alive - traitors != {}
    ensures |p.ballots| == n
  {
    if n == 0 then Poll([], calls, cursor)
    else Marked(agents[ids[n - 1]], t, alive, traitors, ids[n - 1], states[ids[n - 1]],
                MurderVotes(agents, t, alive, traitors, states, ids, n - 1, calls, cursor))
  }

  /** The poll after traitor `pid` adds a murder ballot to `before`. */
  function Marked(a: TraitorsAgent, t: Table, alive: set<int>, traitors: set<int>, pid: int,
                  private: AgentPrivate, before: Poll): (p: Poll)
    requires a.id == pid && Elems(t.aliveIds) == alive && Elems(t.traitorIds) == traitors * alive
    requires alive - traitors != {}
    ensures |p.ballots| == |before.ballots| + 1 && p.ballots == before.ballots + [p.ballots[|before.ballots|]]
    ensures p.ballots[|before.ballots|].voter == pid && p.ballots[|before.ballots|].target in alive - traitors
  {
    var c := MurderOf(a, t, alive, traitors, pid, private, before.calls, before.cursor);
    Poll(before.ballots + [Ballot(pid, c.target)], c.calls, c.cursor)
  }

  /** Every listed traitor casts exactly one murder ballot, in order, and each names an alive faithful player. */
  lemma {:induction false} MurderVotesMeaning(agents: Agents, t: Table, alive: set<int>, traitors: set<int>,
                                              states: map<int, AgentPrivate>, ids: seq<int>, n: nat, calls: nat, cursor: nat)
    requires n <= |ids| && Seated(agents, states, ids)
    requires Elems(t.aliveIds) == alive && Elems(t.traitorIds) == traitors * alive
    requires ids != [] ==> alive - traitors != {}
    ensures var p := MurderVotes(agents, t, alive, traitors, states, ids, n, calls, cursor);
      InTurn(p.ballots, ids) && NamedAmong(p.ballots, alive - traitors, false)
  {
    if n > 0 {
      MurderVotesMeaning(agents, t, alive, traitors, states, ids, n - 1, calls, cursor);
      var before := MurderVotes(agents, t, alive, traitors, states, ids, n - 1, calls, cursor);
      var p := MurderVotes(agents, t, alive, traitors, states, ids, n, calls, cursor);
      var pid := ids[n - 1];
      assert p == Marked(agents[pid], t, alive, traitors, pid, states[pid], before);
      var last := p.ballots[n - 1];
      assert p.ballots == before.ballots + [last];
      Appended(before.ballots, last, ids, alive - traitors, false);
    }
  }

  /**
   * `murder_node` from the traitor table: nothing happens in a game without
   * traitors; otherwise the alive traitors' ballots go to the murder tally.
   */
  function Murder(agents: Agents, t: Table, alive: set<int>, traitors: set<int>, states: map<int, AgentPrivate>,
                  calls: nat, cursor: nat): (r: Removal)
    requires Elems(t.aliveIds) == alive && Elems(t.traitorIds) == traitors * alive && Seated(agents, states, t.traitorIds)
    requires traitors * alive != {} ==> alive - traitors != {}
    ensures r.victim.Some? ==> r.victim.value in alive && r.victim.value !in traitors
    ensures r.victim.None? <==> traitors == {} || alive - traitors == {}
  {
    if traitors == {} then Removal(None, calls, cursor)
    else Slaying(agents, t, alive, traitors, states, calls, cursor)
  }

  /** The murder when the game has traitors: the alive traitors' ballots, then the tally of `apply_murder`. */
  function Slaying(agents: Agents, t: Table, alive: set<int>, traitors: set<int>, states: map<int, AgentPrivate>,
                   calls: nat, cursor: nat): (r: Removal)
    requires Elems(t.aliveIds) == alive && Elems(t.traitorIds) == traitors * alive && Seated(agents, states, t.traitorIds)
    requires traitors * alive != {} ==> alive - traitors != {}
    ensures r.victim.Some? ==> r.victim.value in alive && r.victim.value !in traitors
    ensures r.victim.None? <==> alive - traitors == {}
  {
    assert t.traitorIds != [] ==> alive - traitors != {} by {
      if t.traitorIds != [] {
        assert t.traitorIds[0] in Elems(t.traitorIds);
      }
    }
    Strike(alive, traitors, t.rng.stream,
           MurderVotes(agents, t, alive, traitors, states, t.traitorIds, |t.traitorIds|, calls, cursor))
  }

  /** `apply_murder` over the traitors' ballots, drawing from the random cursor the ballots left. */
  function Strike(alive: set<int>, traitors: set<int>, stream: seq<nat>, p: Poll): Removal
  {
    Removal(MurderOutcome(alive, traitors, p.ballots, DrawAt(stream, p.cursor)), p.calls,
            p.cursor + (if MurderDraws(alive, traitors, p.ballots) then 1 else 0))
  }

  /** When some traitor is alive, somebody dies, and it is a player some alive traitor's ballot named. */
  lemma MurderVictimNamed(agents: Agents, t: Table, alive: set<int>, traitors: set<int>, states: map<int, AgentPrivate>,
                          calls: nat, cursor: nat)
    requires Elems(t.aliveIds) == alive && Elems(t.traitorIds) == traitors * alive && Seated(agents, states, t.traitorIds)
    requires traitors * alive != {} && alive - traitors != {}
    ensures var p := MurderVotes(agents, t, alive, traitors, states, t.traitorIds, |t.traitorIds|, calls, cursor);
      var r := Murder(agents, t, alive, traitors, states, calls, cursor);
      r.victim.Some? && exists k :: 0 <= k < |p.ballots| && p.ballots[k].target == r.victim.value
  {
    var p := MurderVotes(agents, t, alive, traitors, states, t.traitorIds, |t.traitorIds|, calls, cursor);
    var r := Murder(agents, t, alive, traitors, states, calls, cursor);
    MurderVotesMeaning(agents, t, alive, traitors, states, t.traitorIds, |t.traitorIds|, calls, cursor);
    var x := AnyOf(traitors * alive);
    assert x in Elems(t.traitorIds);
    assert p.ballots[0].target in alive - traitors;
    VoteMakesLeader(alive - traitors, p.ballots, 0);
    assert r == Strike(alive, traitors, t.rng.stream, p);
    MurderGoesToLeader(alive, traitors, p.ballots, DrawAt(t.rng.stream, p.cursor));
    LeaderWasVotedFor(alive - traitors, p.ballots, r.victim.value);
  }

  /** One traitor's turn of the murder loop. */
  method MurderBallot(s: GameState, agent: TraitorsAgent, t: Table, pid: int, llm: Llm, votes: seq<Ballot>)
    returns (votes': seq<Ballot>)
    requires agent.id == pid && agent.llm == llm && pid in s.agentStates && t.rng == s.rng
    requires Elems(t.aliveIds) == s.alive && Elems(t.traitorIds) == s.traitors * s.alive && s.alive - s.traitors != {}
    modifies llm, s.rng
    ensures Poll(votes', llm.calls, s.rng.cursor)
         == Marked(agent, t, s.alive, s.traitors, pid, s.agentStates[pid], Poll(votes, old(llm.calls), old(s.rng.cursor)))
  {
    var view := ViewFor(t, s.agentStates[pid], None);
    MurdererHasChoice(agent, t, s.agentStates[pid], llm.calls);
    var action, error := agent.ChooseMurder(view);
    var target := action.targetId;
    if Overruled(target, pid, s.alive, s.traitors) {
      assert Elems(Outside(t.aliveIds, s.traitors)) != {};
      target := s.rng.Choice(Outside(t.aliveIds, s.traitors));
    }
    votes' := votes + [Ballot(pid, target)];
  }

  /** The ballot loop of `murder_node`. */
  method CollectMurderVotes(s: GameState, agents: Agents, t: Table, llm: Llm) returns (votes: seq<Ballot>)
    requires Seated(agents, s.agentStates, t.traitorIds) && Connected(agents, t.traitorIds, llm) && t.rng == s.rng
    requires Elems(t.aliveIds) == s.alive && Elems(t.traitorIds) == s.traitors * s.alive
    requires t.traitorIds != [] ==> s.alive - s.traitors != {}
    modifies llm, s.rng
    ensures Poll(votes, llm.calls, s.rng.cursor)
         == MurderVotes(agents, t, s.alive, s.traitors, s.agentStates, t.traitorIds, |t.traitorIds|, old(llm.calls), old(s.rng.cursor))
  {
    var ids := t.traitorIds;
    ghost var calls := llm.calls;
    ghost var cursor := s.rng.cursor;
    votes := [];
    for i := 0 to |ids|
      invariant Poll(votes, llm.calls, s.rng.cursor)
             == MurderVotes(agents, t, s.alive, s.traitors, s.agentStates, ids, i, calls, cursor)
    {
      var pid := ids[i];
      votes := MurderBallot(s, agents[pid], t, pid, llm, votes);
    }
  }

  /** `murder_node`: the murdered player, if any, leaves the alive set and joins the elimination order. */
  method MurderNode(s: GameState, agents: Agents, llm: Llm)
    requires Ready(s, agents, llm)
    requires s.traitors * s.alive != {} ==> s.alive - s.traitors != {}
    modifies s, llm, s.rng
    ensures (TraitorsSeated(old(s.alive), s.traitors, old(s.agentStates), agents, llm);
      var r := Murder(agents, old(TraitorTable(s)), old(s.alive), s.traitors, old(s.agentStates),
                      old(llm.calls), old(s.rng.cursor));
      FieldsOf(s) == old(FieldsOf(s)).(alive := AliveAfter(old(s.alive), r.victim),
                                       eliminatedOrder := OrderAfter(old(s.eliminatedOrder), r.victim),
                                       phase := PostMurder)
      && llm.calls == r.calls && s.rng.cursor == r.cursor)
  {
    var t := TraitorTable(s);
    TraitorsSeated(s.alive, s.traitors, s.agentStates, agents, llm);
    var eliminated := Slay(s, agents, t, llm);
    s.alive := AliveAfter(s.alive, eliminated);
    s.eliminatedOrder := OrderAfter(s.eliminatedOrder, eliminated);
    s.phase := PostMurder;
  }

  /** The ballots and tally of `murder_node`; nobody dies in a game without traitors. */
  method Slay(s: GameState, agents: Agents, t: Table, llm: Llm) returns (eliminated: Option<int>)
    requires Seated(agents, s.agentStates, t.traitorIds) && Connected(agents, t.traitorIds, llm) && t.rng == s.rng
    requires Elems(t.aliveIds) == s.alive && Elems(t.traitorIds) == s.traitors * s.alive
    requires s.traitors * s.alive != {} ==> s.alive - s.traitors != {}
    modifies llm, s.rng
    ensures Removal(eliminated, llm.calls, s.rng.cursor)
         == Murder(agents, t, s.alive, s.traitors, s.agentStates, old(llm.calls), old(s.rng.cursor))
  {
    if s.traitors == {} {
      return None;
    }
    eliminated := SlayWithTraitors(s, agents, t, llm);
  }

  /** The alive traitors' ballots and the tally of `apply_murder`. */
  method SlayWithTraitors(s: GameState, agents: Agents, t: Table, llm: Llm) returns (eliminated: Option<int>)
    requires Seated(agents, s.agentStates, t.traitorIds) && Connected(agents, t.traitorIds, llm) && t.rng == s.rng
    requires Elems(t.aliveIds) == s.alive && Elems(t.traitorIds) == s.traitors * s.alive
    requires s.traitors * s.alive != {} ==> s.alive - s.traitors != {}
    modifies llm, s.rng
    ensures Removal(eliminated, llm.calls, s.rng.cursor)
         == Slaying(agents, t, s.alive, s.traitors, s.agentStates, old(llm.calls), old(s.rng.cursor))
  {
    if t.traitorIds != [] {
      assert t.traitorIds[0] in Elems(t.traitorIds);
    }
    var votes := CollectMurderVotes(s, agents, t, llm);
    eliminated := StrikeBallots(s.alive, s.traitors, votes, s.rng, llm.calls);
  }

  /** `apply_murder` over the traitors' ballots. */
  method StrikeBallots(alive: set<int>, traitors: set<int>, votes: seq<Ballot>, rng: Rng, ghost calls: nat)
    returns (eliminated: Option<int>)
    modifies rng
    ensures Removal(eliminated, calls, rng.cursor) == Strike(alive, traitors, rng.stream, Poll(votes, calls, old(rng.cursor)))
  {
    eliminated := ApplyMurder(alive, traitors, votes, rng);
  }

  // ---------------------------------------------------------------- terminal check and routing

  /**
   * The verdict of `terminal_check_node`: the engine's check over the alive
   * traitors, or a draw once the round index has reached the round limit.
   */
  function Verdict(alive: set<int>, traitors: set<int>, roundIdx: int, maxRounds: int): Option<Winner>
  {
    var w := CheckTerminal(alive, traitors * alive);
    if w.None? && roundIdx >= maxRounds then Some(Draw) else w
  }

  /**
   * The verdict, case by case: the faithful win once no traitor is alive, the
   * traitors once they are at least as many as the alive faithful, a draw
   * when neither holds at the round limit, and otherwise the game goes on.
   */
  lemma VerdictMeaning(alive: set<int>, traitors: set<int>, roundIdx: int, maxRounds: int)
    ensures Verdict(alive, traitors, roundIdx, maxRounds) == Some(FaithfulWin) <==> traitors * alive == {}
    ensures Verdict(alive, traitors, roundIdx, maxRounds) == Some(TraitorsWin) <==>
      traitors * alive != {} && |traitors * alive| >= |alive - traitors|
    ensures Verdict(alive, traitors, roundIdx, maxRounds) == Some(Draw) <==>
      1 <= |traitors * alive| < |alive - traitors| && roundIdx >= maxRounds
    ensures Verdict(alive, traitors, roundIdx, maxRounds) == None <==>
      1 <= |traitors * alive| < |alive - traitors| && roundIdx < maxRounds
  {
    TerminalMeaning(alive, traitors * alive);
    assert alive - traitors * alive == alive - traitors;
  }

  /** `terminal_check_node`: records the verdict, if there is one; nothing else changes. */
  method TerminalCheckNode(s: GameState)
    modifies s
    ensures var w := Verdict(old(s.alive), s.traitors, old(s.roundIdx), s.config.maxRounds);
      FieldsOf(s) == old(FieldsOf(s)).(winner := if w.Some? then w else old(s.winner))
  {
    var winner := CheckTerminal(s.alive, s.traitors * s.alive);
    if winner.None? && s.roundIdx >= s.config.maxRounds {
      winner := Some(Draw);
    }
    if winner.Some? {
      s.winner := winner;
    }
  }

  /** The nodes of the round graph, and its end. */
  datatype Node = AtDiscussion | AtVoting | AtBanish | AtTerminalCheck | AtTraitorChat | AtMurder
                | AtPostMurderUpdate | AtEnd

  /** `route_after_terminal`: the end once there is a winner, else on by the phase just finished. */
  function RouteAfterTerminal(winner: Option<Winner>, phase: Phase): Node
  {
    if winner.Some? then AtEnd
    else if phase == PostBanish then AtTraitorChat
    else if phase == PostMurder then AtPostMurderUpdate
    else AtDiscussion
  }

  /** The graph's edges: fixed after every node but the terminal check, which is routed. */
  function Successor(at: Node, winner: Option<Winner>, phase: Phase): Node
  {
    match at
    case AtDiscussion => AtVoting
    case AtVoting => AtBanish
    case AtBanish => AtTerminalCheck
    case AtTerminalCheck => RouteAfterTerminal(winner, phase)
    case AtTraitorChat => AtMurder
    case AtMurder => AtTerminalCheck
    case AtPostMurderUpdate => AtDiscussion
    case AtEnd => AtEnd
  }

  // ---------------------------------------------------------------- end of round

  /** A seated list covers its players: each has an agent answering to its id, and a private record. */
  lemma SeatedCovers(ids: seq<int>, alive: set<int>, states: map<int, AgentPrivate>, agents: Agents)
    requires Elems(ids) == alive && Seated(agents, states, ids)
    ensures forall p :: p in alive ==> p in agents && agents[p].id == p && p in states
  {
    forall p | p in alive ensures p in agents && agents[p].id == p && p in states {
      assert p in Elems(ids);
      var i :| 0 <= i < |ids| && ids[i] == p;
    }
  }

  /**
   * The private records after the first `n` players of `ids`, in order,
   * update their memories with the round's public summary.
   */
  function Recall(agents: Agents, states: map<int, AgentPrivate>, ids: seq<int>, n: nat, summary: string)
    : (r: map<int, AgentPrivate>)
    requires n <= |ids| && Seated(agents, states, ids)
    ensures r.Keys == states.Keys
  {
    if n == 0 then states
    else
      var before := Recall(agents, states, ids, n - 1, summary);
      var pid := ids[n - 1];
      before[pid := agents[pid].MemoryAfterRound(before[pid], summary)]
  }

  /** A player missing from the list keeps its record. */
  lemma {:induction false} RecallKeeps(agents: Agents, states: map<int, AgentPrivate>, ids: seq<int>, n: nat,
                                       summary: string, p: int)
    requires n <= |ids| && Seated(agents, states, ids)
    requires p in states && forall k :: 0 <= k < n ==> ids[k] != p
    ensures Recall(agents, states, ids, n, summary)[p] == states[p]
  {
    if n > 0 {
      RecallKeeps(agents, states, ids, n - 1, summary, p);
    }
  }

  /**
   * With every player listed once, each listed player's record is its own
   * memory update of the record it started with: the result does not depend
   * on the order of the list.
   */
  lemma {:induction false} RecallUpdates(agents: Agents, states: map<int, AgentPrivate>, ids: seq<int>, n: nat,
                                         summary: string, k: nat)
    requires n <= |ids| && Seated(agents, states, ids) && Distinct(ids) && k < n
    ensures Recall(agents, states, ids, n, summary)[ids[k]] == agents[ids[k]].MemoryAfterRound(states[ids[k]], summary)
  {
    if k < n - 1 {
      RecallUpdates(agents, states, ids, n - 1, summary, k);
    } else {
      RecallKeeps(agents, states, ids, n - 1, summary, ids[k]);
    }
  }

  /**
   * `post_murder_update`: every alive player updates its memory with the
   * public summary, and the round index advances.
   */
  method PostMurderUpdate(s: GameState, agents: Agents)
    requires Seated(agents, s.agentStates, Sorted(s.alive))
    modifies s
    ensures FieldsOf(s) == old(FieldsOf(s)).(agentStates := Recall(agents, old(s.agentStates), old(Sorted(s.alive)),
                                                                   |old(s.alive)|, old(PublicSummary(s.publicTranscript))),
                                             roundIdx := old(s.roundIdx) + 1)
  {
    var summary := PublicSummary(s.publicTranscript);
    var ids := Sorted(s.alive);
    ghost var start := s.agentStates;
    ghost var before := FieldsOf(s);
    for i := 0 to |ids|
      invariant FieldsOf(s) == before.(agentStates := Recall(agents, start, ids, i, summary))
    {
      Remember(s, agents[ids[i]], ids[i], summary);
    }
    s.roundIdx := s.roundIdx + 1;
  }

  /** One player's `update_memory_after_round`, on its record in the state. */
  method Remember(s: GameState, agent: TraitorsAgent, pid: int, summary: string)
    requires pid in s.agentStates
    modifies s
    ensures FieldsOf(s) == old(FieldsOf(s)).(agentStates := old(s.agentStates)[pid := agent.MemoryAfterRound(old(s.agentStates[pid]), summary)])
  {
    s.agentStates := s.agentStates[pid := agent.MemoryAfterRound(s.agentStates[pid], summary)];
  }

  // ---------------------------------------------------------------- the whole game

  /** The players of `everyone` split into the alive ones and the eliminated ones, each eliminated once. */
  ghost predicate Partition(everyone: set<int>, alive: set<int>, order: seq<int>)
  {
    alive <= everyone && Elems(order) == everyone - alive && Distinct(order)
  }

  /** Removing an alive player, or nobody, keeps the split. */
  lemma RemovalKeepsPartition(everyone: set<int>, alive: set<int>, order: seq<int>, victim: Option<int>)
    requires Partition(everyone, alive, order) && (victim.Some? ==> victim.value in alive)
    ensures Partition(everyone, AliveAfter(alive, victim), OrderAfter(order, victim))
  {
    if victim.Some? {
      ElemsConcat(order, [victim.value]);
      var o := order + [victim.value];
      forall i, j | 0 <= i < j < |o| ensures o[i] != o[j] {
        if j == |order| {
          assert o[i] in Elems(order);
        }
      }
    }
  }

  /** Manned players stay manned when some leave, or when the records change but not their keys. */
  lemma MannedShrinks(alive: set<int>, alive': set<int>, states: map<int, AgentPrivate>,
                      states': map<int, AgentPrivate>, agents: Agents, llm: Llm)
    requires Manned(alive, states, agents, llm) && alive' <= alive && states'.Keys == states.Keys
    ensures Manned(alive', states', agents, llm)
  {
    forall p | p in alive' ensures p in states' {
      assert p in states.Keys;
    }
  }

  /** The alive players are the alive traitors and the alive faithful. */
  lemma SidesAdd(alive: set<int>, traitors: set<int>)
    ensures |alive| == |traitors * alive| + |alive - traitors|
  {
    assert alive == (traitors * alive) + (alive - traitors);
  }

  /** Where in a round the graph stands; the terminal check after a banishment comes before the one after a murder. */
  function Rank(at: Node, phase: Phase): nat
  {
    match at
    case AtDiscussion => 7
    case AtVoting => 6
    case AtBanish => 5
    case AtTerminalCheck => if phase == PostBanish then 4 else 1
    case AtTraitorChat => 3
    case AtMurder => 2
    case AtPostMurderUpdate => 0
    case AtEnd => 0
  }

  /** The rounds left before the round limit. */
  function Budget(roundIdx: int, maxRounds: int): nat
  {
    if roundIdx < maxRounds then maxRounds - roundIdx else 0
  }

  /**
   * What holds of the game each time the graph reaches node `at`: the alive
   * players are manned and split from the eliminated ones; the winner is set
   * exactly at the end, to the verdict; voting never meets a lone survivor; a
   * terminal check follows a banishment or a murder; and the night's nodes
   * run only while the game is undecided.
   */
  ghost predicate Standing(s: GameState, agents: Agents, llm: Llm, everyone: set<int>, at: Node)
    reads s
  {
    && Manned(s.alive, s.agentStates, agents, llm)
    && Partition(everyone, s.alive, s.eliminatedOrder)
    && (at == AtEnd <==> s.winner.Some?)
    && (at == AtEnd ==> s.winner == Verdict(s.alive, s.traitors, s.roundIdx, s.config.maxRounds))
    && ((at == AtDiscussion || at == AtVoting) ==> |s.alive| != 1)
    && (at == AtTerminalCheck ==> s.phase == PostBanish || s.phase == PostMurder)
    && ((at == AtTraitorChat || at == AtMurder || at == AtPostMurderUpdate) ==>
          1 <= |s.traitors * s.alive| < |s.alive - s.traitors| && s.roundIdx < s.config.maxRounds)
  }

  /** `discussion_node` as the graph runs it. */
  method DiscussionStep(s: GameState, agents: Agents, llm: Llm, ghost everyone: set<int>)
    requires Standing(s, agents, llm, everyone, AtDiscussion)
    modifies s, llm
    ensures Standing(s, agents, llm, everyone, AtVoting) && s.roundIdx == old(s.roundIdx)
  {
    ReadyMeans(s, agents, llm);
    ghost var states := s.agentStates;
    DiscussionNode(s, agents, llm);
    MannedShrinks(s.alive, s.alive, states, s.agentStates, agents, llm);
  }

  /** `voting_node` as the graph runs it. */
  method VotingStep(s: GameState, agents: Agents, llm: Llm, ghost everyone: set<int>)
    requires Standing(s, agents, llm, everyone, AtVoting)
    modifies s, llm, s.rng
    ensures Standing(s, agents, llm, everyone, AtBanish) && s.roundIdx == old(s.roundIdx)
  {
    ReadyMeans(s, agents, llm);
    VotingNode(s, agents, llm);
  }

  /** `banish_node` as the graph runs it. */
  method BanishStep(s: GameState, agents: Agents, llm: Llm, ghost everyone: set<int>)
    requires Standing(s, agents, llm, everyone, AtBanish)
    modifies s, llm, s.rng
    ensures Standing(s, agents, llm, everyone, AtTerminalCheck) && s.roundIdx == old(s.roundIdx)
    ensures s.phase == PostBanish
  {
    ReadyMeans(s, agents, llm);
    ghost var alive := s.alive;
    ghost var order := s.eliminatedOrder;
    ghost var r := Banish(agents, PublicTable(s), s.alive, LastVotes(s.voteHistory), s.agentStates, llm.calls, s.rng.cursor);
    BanishNode(s, agents, llm);
    RemovalKeepsPartition(everyone, alive, order, r.victim);
    MannedShrinks(alive, s.alive, s.agentStates, s.agentStates, agents, llm);
  }

  /** `terminal_check_node` and `route_after_terminal` as the graph runs them. */
  method TerminalStep(s: GameState, agents: Agents, llm: Llm, ghost everyone: set<int>) returns (next: Node)
    requires Standing(s, agents, llm, everyone, AtTerminalCheck)
    modifies s
    ensures next == RouteAfterTerminal(s.winner, s.phase) && Standing(s, agents, llm, everyone, next)
    ensures s.roundIdx == old(s.roundIdx) && s.phase == old(s.phase)
  {
    VerdictMeaning(s.alive, s.traitors, s.roundIdx, s.config.maxRounds);
    TerminalCheckNode(s);
    next := RouteAfterTerminal(s.winner, s.phase);
  }

  /** `traitor_chat_node` as the graph runs it. */
  method TraitorChatStep(s: GameState, agents: Agents, llm: Llm, ghost everyone: set<int>)
    requires Standing(s, agents, llm, everyone, AtTraitorChat)
    modifies s, llm
    ensures Standing(s, agents, llm, everyone, AtMurder) && s.roundIdx == old(s.roundIdx)
  {
    ReadyMeans(s, agents, llm);
    TraitorChatNode(s, agents, llm);
  }

  /** `murder_node` as the graph runs it. */
  method MurderStep(s: GameState, agents: Agents, llm: Llm, ghost everyone: set<int>)
    requires Standing(s, agents, llm, everyone, AtMurder)
    modifies s, llm, s.rng
    ensures Standing(s, agents, llm, everyone, AtTerminalCheck) && s.roundIdx == old(s.roundIdx)
    ensures s.phase == PostMurder
  {
    ReadyMeans(s, agents, llm);
    ghost var alive := s.alive;
    ghost var order := s.eliminatedOrder;
    TraitorsSeated(s.alive, s.traitors, s.agentStates, agents, llm);
    ghost var r := Murder(agents, TraitorTable(s), s.alive, s.traitors, s.agentStates, llm.calls, s.rng.cursor);
    MurderNode(s, agents, llm);
    RemovalKeepsPartition(everyone, alive, order, r.victim);
    MannedShrinks(alive, s.alive, s.agentStates, s.agentStates, agents, llm);
  }

  /** `post_murder_update` as the graph runs it: the only node that advances the round. */
  method PostMurderStep(s: GameState, agents: Agents, llm: Llm, ghost everyone: set<int>)
    requires Standing(s, agents, llm, everyone, AtPostMurderUpdate)
    modifies s
    ensures Standing(s, agents, llm, everyone, AtDiscussion)
    ensures s.roundIdx == old(s.roundIdx) + 1 && s.roundIdx <= s.config.maxRounds
  {
    ReadyMeans(s, agents, llm);
    ghost var states := s.agentStates;
    SidesAdd(s.alive, s.traitors);
    PostMurderUpdate(s, agents);
    MannedShrinks(s.alive, s.alive, states, s.agentStates, agents, llm);
  }

  /** One node of the graph and the edge out of it: the game stands, and either the round index advances or the graph moves on within the round. */
  method Step(s: GameState, agents: Agents, llm: Llm, ghost everyone: set<int>, at: Node) returns (next: Node)
    requires Standing(s, agents, llm, everyone, at) && at != AtEnd
    modifies s, llm, s.rng
    ensures next == Successor(at, s.winner, s.phase) && Standing(s, agents, llm, everyone, next)
    ensures if at == AtPostMurderUpdate then old(s.roundIdx) < s.roundIdx == old(s.roundIdx) + 1 <= s.config.maxRounds
            else s.roundIdx == old(s.roundIdx) && Rank(next, s.phase) < Rank(at, old(s.phase))
  {
    match at
    case AtDiscussion =>
      DiscussionStep(s, agents, llm, everyone);
      next := AtVoting;
    case AtVoting =>
      VotingStep(s, agents, llm, everyone);
      next := AtBanish;
    case AtBanish =>
      BanishStep(s, agents, llm, everyone);
      next := AtTerminalCheck;
    case AtTerminalCheck =>
      next := TerminalStep(s, agents, llm, everyone);
    case AtTraitorChat =>
      TraitorChatStep(s, agents, llm, everyone);
      next := AtMurder;
    case AtMurder =>
      MurderStep(s, agents, llm, everyone);
      next := AtTerminalCheck;
    case AtPostMurderUpdate =>
      PostMurderStep(s, agents, llm, everyone);
      next := AtDiscussion;
  }

  /**
   * The compiled graph run to its end from discussion: it stops exactly when
   * the terminal check names a winner, every player eliminated on the way
   * was alive and is listed once, and the round index never passes the
   * round limit once it has moved.
   */
  method Run(s: GameState, agents: Agents, llm: Llm)
    requires Ready(s, agents, llm) && s.winner == None && |s.alive| != 1 && s.eliminatedOrder == []
    modifies s, llm, s.rng
    ensures s.winner.Some? && s.winner == Verdict(s.alive, s.traitors, s.roundIdx, s.config.maxRounds)
    ensures s.alive <= old(s.alive) && Elems(s.eliminatedOrder) == old(s.alive) - s.alive && Distinct(s.eliminatedOrder)
    ensures s.roundIdx == old(s.roundIdx) || old(s.roundIdx) < s.roundIdx <= s.config.maxRounds
  {
    ghost var everyone := s.alive;
    ReadyMeans(s, agents, llm);
    var at := AtDiscussion;
    while at != AtEnd
      invariant Standing(s, agents, llm, everyone, at)
      invariant s.roundIdx == old(s.roundIdx) || old(s.roundIdx) < s.roundIdx <= s.config.maxRounds
      decreases Budget(s.roundIdx, s.config.maxRounds), Rank(at, s.phase)
    {
      at := Step(s, agents, llm, everyone, at);
    }
  }
}
