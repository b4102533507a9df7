/**
 * The records of the game: configuration, roles, actions, messages, per-agent
 * private state, the score validators, and the mutable session state.
 */
module Schemas {
  import opened Util
  import Random

  /** A player's hidden role, fixed once assigned. */
  datatype Role = Faithful | Traitor

  /** The value of the session's winner field: "faithful", "traitors" or "draw". */
  datatype Winner = FaithfulWin | TraitorsWin | Draw

  /** The phase tag a handler leaves in the state. */
  datatype Phase = Discussion | Voting | PostBanish | TraitorChat | PostMurder

  /** Session configuration; immutable once created. */
  datatype GameConfig = GameConfig(
    nPlayers: int,
    nTraitors: int,
    maxRounds: int,
    discussionTurns: int,
    messageCharLimit: int,
    seed: int,
    modelName: string,
    temperature: real,
    conditionName: string,
    tieBreakRule: string)
  {
    /** The experimental condition that suppresses belief updates and memory. */
    predicate NoMemory()
    {
      conditionName == NoMemoryCondition
    }
  }

  /** The condition name that switches memory off. */
  const NoMemoryCondition := "no_memory"

  /** A configuration built from a seed alone, every other field at its default. */
  function DefaultConfig(seed: int): GameConfig
  {
    GameConfig(9, 2, 30, 1, 400, seed, "gpt-4o-mini", 0.3, "baseline_memory", "revote_once_then_random")
  }

  /** The longest rationale a vote or murder action may carry. */
  const RationaleLimit := 200

  /** A banish vote; the same shape serves as a murder choice. */
  datatype VoteAction = VoteAction(targetId: int, rationale: string)

  /**
   * Building an action validates its rationale length, as the record's field
   * constraint does; a longer rationale is a validation error.
   */
  function NewVoteAction(targetId: int, rationale: string): (r: Result<VoteAction, string>)
    ensures r.Ok? <==> |rationale| <= RationaleLimit
    ensures r.Ok? ==> r.value.targetId == targetId && r.value.rationale == rationale
  {
    if |rationale| <= RationaleLimit then Ok(VoteAction(targetId, rationale))
    else Err("String should have at most 200 characters")
  }

  /** A message of the public or the private traitor transcript. */
  datatype PublicMessage = PublicMessage(round: int, phase: string, speakerId: int, content: string)

  /** One entry of a vote mapping: voter id and target id, in insertion order. */
  datatype Ballot = Ballot(voter: int, target: int)

  /** One voting phase's record: its round and the voter-to-target mapping. */
  datatype VoteRecord = VoteRecord(round: int, votes: seq<Ballot>)

  /** A player's private state: memory text, suspicion per other player, alliances, last note. */
  datatype AgentPrivate = AgentPrivate(
    memorySummary: string,
    suspicionScores: map<int, real>,
    alliances: seq<int>,
    lastRationale: Option<string>)

  /** `min(1.0, max(0.0, v))`. */
  function Clamp(v: real): (r: real)
    ensures 0.0 <= r <= 1.0
    ensures 0.0 <= v <= 1.0 ==> r == v
    ensures v < 0.0 ==> r == 0.0
    ensures 1.0 < v ==> r == 1.0
  {
    var lower := if 0.0 < v then v else 0.0;
    if lower < 1.0 then lower else 1.0
  }

  predicate ScoresInRange(scores: map<int, real>)
  {
    forall k :: k in scores ==> 0.0 <= scores[k] <= 1.0
  }

  /** The validator run whenever private state is built: every score is clamped into [0, 1]. */
  function ClampScores(scores: map<int, real>): (r: map<int, real>)
    ensures r.Keys == scores.Keys
    ensures ScoresInRange(r)
    ensures forall k :: k in scores && 0.0 <= scores[k] <= 1.0 ==> r[k] == scores[k]
  {
    map k | k in scores :: Clamp(scores[k])
  }

  /** Clamping twice is clamping once. */
  lemma ClampScoresIdempotent(scores: map<int, real>)
    ensures ClampScores(ClampScores(scores)) == ClampScores(scores)
  {
    var once := ClampScores(scores);
    ClampFixesInRange(once);
  }

  /** Scores already in range are fixed points of clamping. */
  lemma ClampFixesInRange(scores: map<int, real>)
    requires ScoresInRange(scores)
    ensures ClampScores(scores) == scores
  {
    var r := ClampScores(scores);
    assert r.Keys == scores.Keys;
    forall k | k in r ensures r[k] == scores[k] {
    }
  }

  /** Private state as constructed: the suspicion scores pass through the clamping validator. */
  function NewAgentPrivate(memorySummary: string, scores: map<int, real>): (a: AgentPrivate)
    ensures a.memorySummary == memorySummary && a.suspicionScores.Keys == scores.Keys
    ensures ScoresInRange(a.suspicionScores)
    ensures forall k :: k in scores && 0.0 <= scores[k] <= 1.0 ==> a.suspicionScores[k] == scores[k]
    ensures a.alliances == [] && a.lastRationale == None
  {
    AgentPrivate(memorySummary, ClampScores(scores), [], None)
  }

  /** A belief update: suspicion scores by player id and a free-text note. */
  datatype BeliefUpdate = BeliefUpdate(scores: map<int, real>, notes: string)

  /** The validator of a belief update's scores: it rejects the whole map if any score lies outside [0, 1]. */
  function ValidateScores(scores: map<int, real>): (r: Result<map<int, real>, string>)
    ensures r.Ok? <==> ScoresInRange(scores)
    ensures r.Ok? ==> r.value == scores
  {
    if ScoresInRange(scores) then Ok(scores) else Err("Suspicion scores must be in [0, 1]")
  }

  /** A map the validator accepts is one that clamping leaves as it is. */
  lemma AcceptedScoresAreClamped(scores: map<int, real>)
    requires ValidateScores(scores).Ok?
    ensures ClampScores(scores) == scores
  {
    ClampFixesInRange(scores);
  }

  /** The result of checking a vote: accepted, or rejected with the source's message. */
  datatype Verdict = Accepted | Rejected(reason: string)

  /** `validate_vote_action`: a self-vote is refused first, then a target that is not alive. */
  function ValidateVoteAction(vote: VoteAction, voterId: int, alive: set<int>): (v: Verdict)
    ensures v == Accepted <==> vote.targetId in alive && vote.targetId != voterId
    ensures vote.targetId == voterId ==> v == Rejected("Voter cannot vote for self")
  {
    if voterId == vote.targetId then Rejected("Voter cannot vote for self")
    else if vote.targetId !in alive then Rejected("Vote target must be alive")
    else Accepted
  }

  /**
   * The session state, owned by the round state machine and updated in place by
   * its phase handlers. The role map, the traitor set and the random source are
   * never replaced: traitors leave play only by leaving `alive`.
   */
  class GameState {
    const config: GameConfig
    const gameId: string
    var roundIdx: int
    var phase: Phase
    var alive: set<int>
    const roles: map<int, Role>
    const traitors: set<int>
    var publicTranscript: seq<PublicMessage>
    var voteHistory: seq<VoteRecord>
    var traitorTranscript: seq<PublicMessage>
    var agentStates: map<int, AgentPrivate>
    const rng: Random.Rng
    var eliminatedOrder: seq<int>
    var winner: Option<Winner>

    /** A state built from its required fields; phase, eliminated order and winner take their defaults. */
    constructor (config: GameConfig, gameId: string, roundIdx: int, alive: set<int>,
                 roles: map<int, Role>, traitors: set<int>, publicTranscript: seq<PublicMessage>,
                 voteHistory: seq<VoteRecord>, traitorTranscript: seq<PublicMessage>,
                 agentStates: map<int, AgentPrivate>, rng: Random.Rng)
      ensures this.config == config && this.gameId == gameId && this.roundIdx == roundIdx
      ensures this.alive == alive && this.roles == roles && this.traitors == traitors
      ensures this.publicTranscript == publicTranscript && this.voteHistory == voteHistory
      ensures this.traitorTranscript == traitorTranscript && this.agentStates == agentStates
      ensures this.rng == rng
      ensures phase == Discussion && eliminatedOrder == [] && winner == None
    {
      this.config := config;
      this.gameId := gameId;
      this.roundIdx := roundIdx;
      this.alive := alive;
      this.roles := roles;
      this.traitors := traitors;
      this.publicTranscript := publicTranscript;
      this.voteHistory := voteHistory;
      this.traitorTranscript := traitorTranscript;
      this.agentStates := agentStates;
      this.rng := rng;
      phase := Discussion;
      eliminatedOrder := [];
      winner := None;
    }
  }
}
