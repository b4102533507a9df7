# TraitorsAI round engine in Dafny

TraitorsAI runs a hidden-role elimination game between language-model
players. N players are numbered 1..N, and K of them are secretly traitors.
Each round has the same shape:

- Every alive player updates its suspicions and speaks in a public
  discussion.
- Everybody votes, and the vote banishes one player. A tied vote gets one
  revote restricted to the tied players, and then a random draw.
- The alive traitors confer in private and then murder one faithful
  player.
- After each removal a terminal check decides whether the faithful have
  won (no traitor left), the traitors have won (at least as many traitors
  as faithful), or the game is drawn at the round cap.

The model covers these modules:

- `Random`: the session's single seeded source. The source is an object
  holding a fixed stream of draws and a cursor. `choice` and `sample` are
  defined on it, with `sample` drawing as CPython's pool algorithm does.
  Because the stream is a constant of the object, the source is never
  re-seeded, and every result is a function of the stream and the cursor.
- `Schemas`: the records, the score clamping and validation, the vote
  check, and the mutable `GameState` class.
- `Engine`: role assignment, the banish and murder tallies with their tie
  policies, and the termination rule. The counting loops are methods
  proved equal to the tally functions.
- `Agent`: a player's side of a decision.
  - The language model is a client whose reply depends on the position of
    the call and on the prompt.
  - `_structured_invoke` is a loop proved against a recursive
    function of the retries, `Attempts`.
  - It also holds the fallbacks when no reply parses, message clipping,
    memory compaction, the suspicion ranking and the player's view.
- `Graph`: the seven phase handlers, as methods that update one
  `GameState` in place.
  - Each handler is proved equal to a function of the state it starts
    from, the model's call position and the random cursor.
  - Lemmas state what those functions mean for the game.
  - The compiled graph is an explicit node type, its edge function, and a
    loop that runs a game until the terminal check names a winner.
- `Runner`: the seed-range argument and the initial game state.
- `Analysis`: the batch summary's win rates, computed as exact division.

The code is modelled as written in these places:

- The murder tally breaks a tie by one draw, with no revote.
- The revote is re-tallied over all alive players, not only the tied
  ones. A lemma shows that this second tally can never fall back to its
  random pick.
- The traitor-chat and murder phases are skipped only when the game has no
  traitors at all. An empty set of *alive* traitors does not skip them.
- A traitor count is refused only where `sample` refuses it: K below 0 or
  above N. K = 0 and K = N are accepted.
- `banish_node` logs each revote ballot as an event but does not append
  the revote to `vote_history` (src/traitors_ai/graph.py:139-174). The
  model keeps `vote_history` to the first tally of each round.

## Model

| member | source | states |
|---|---|---|
| Random.Rng.constructor | src/traitors_ai/runner.py:29 | A new source holds the seed's draw stream with nothing consumed |
| Random.Rng.RandBelow | src/traitors_ai/game_engine.py:34 | Consumes exactly one draw and returns it reduced below n |
| Random.Rng.Choice | src/traitors_ai/game_engine.py:34 | `choice` returns an element of the non-empty list, fixed by the next draw, and consumes exactly one draw |
| Random.Pick | src/traitors_ai/game_engine.py:56-57 | The element a choice picks belongs to the list |
| Random.Rng.Sample | src/traitors_ai/game_engine.py:12 | `sample` fails, consuming nothing, exactly when k is negative or exceeds the population; otherwise it yields the pool algorithm's k picks and consumes k draws |
| Random.Rng.Draws | src/traitors_ai/game_engine.py:12 | The sampling loop yields exactly the pool algorithm's picks and consumes one draw per pick |
| Random.DrawnMeaning | src/traitors_ai/game_engine.py:12 | Every step of the pool algorithm picks from the population; from a population without repeats, the picks never repeat and stay apart from the live pool |
| Random.SampleFromMeaning | src/traitors_ai/game_engine.py:12 | A sample lies within the population and, from distinct ids, has no repeats |
| Schemas.NewVoteAction | src/traitors_ai/schemas.py:29-36 | An action is built exactly when its rationale has at most 200 characters, and keeps its target and rationale |
| Schemas.Clamp | src/traitors_ai/schemas.py:73 | `min(1.0, max(0.0, v))` lies in [0, 1], keeps values already there, and sends values below to 0 and above to 1 |
| Schemas.ClampScores | src/traitors_ai/schemas.py:70-73 | Clamping keeps the key set, puts every score in [0, 1], and leaves in-range scores unchanged |
| Schemas.ClampScoresIdempotent | src/traitors_ai/schemas.py:70-73 | Clamping twice is clamping once |
| Schemas.ClampFixesInRange | src/traitors_ai/schemas.py:70-73 | A map already in range is a fixed point of clamping |
| Schemas.NewAgentPrivate | src/traitors_ai/schemas.py:64-73 | A new private record keeps the memory and the key set, has clamped scores, no alliances and no last rationale |
| Schemas.ValidateScores | src/traitors_ai/schemas.py:80-86 | A belief's scores are refused iff some score lies outside [0, 1]; an accepted map is returned unchanged |
| Schemas.AcceptedScoresAreClamped | src/traitors_ai/schemas.py:80-86 | A score map the validator accepts is unchanged by clamping |
| Schemas.ValidateVoteAction | src/traitors_ai/schemas.py:108-112 | A vote is accepted iff its target is alive and not the voter; a self-vote is refused with the self-vote message whatever the alive set |
| Schemas.GameState.constructor | src/traitors_ai/schemas.py:89-105 | A new state holds the given fields, with phase "discussion", an empty eliminated order and no winner |
| Engine.RolesFor | src/traitors_ai/game_engine.py:13 | The role map covers exactly 1..N, and a player is a traitor iff it is in the traitor set |
| Engine.AssignRolesFrom | src/traitors_ai/game_engine.py:10-14 | Role assignment succeeds iff 0 <= K <= N (or K = 0 when N <= 0); then the roles cover 1..N, the traitor set is K ids of 1..N, and the roles agree with it |
| Engine.AssignRoles | src/traitors_ai/game_engine.py:10-14 | `assign_roles` is the function of the source's stream and cursor above, and consumes K draws when it succeeds |
| Engine.Counts | src/traitors_ai/game_engine.py:22 | The tally has a counter for every eligible id and no other key |
| Engine.CountVotes | src/traitors_ai/game_engine.py:22-25 | The counting loop gives every eligible id the number of ballots naming it; ballots for other ids are dropped |
| Engine.MaxCount | src/traitors_ai/game_engine.py:26 | The maximum bounds every count and is attained, and is 0 for an empty tally |
| Engine.TopIsPositiveMaximum | src/traitors_ai/game_engine.py:26-27 | An id leads iff its count is positive and no count exceeds it |
| Engine.CountedIsVoted | src/traitors_ai/game_engine.py:23-25 | A positive count comes from some ballot naming that id |
| Engine.VotedIsCounted | src/traitors_ai/game_engine.py:23-25 | Every ballot adds to the count of the id it names |
| Engine.LeaderWasVotedFor | src/traitors_ai/game_engine.py:22-27 | A leader is eligible and was named by some ballot |
| Engine.VoteMakesLeader | src/traitors_ai/game_engine.py:22-27 | One ballot for an eligible id guarantees a leader |
| Engine.VoteOutcome | src/traitors_ai/game_engine.py:17-35 | A unique leader is eliminated, with no tie and no random pick. Several leaders are reported as the tied set with nobody eliminated. An empty alive set eliminates nobody. With no positive count, an alive id is drawn and flagged random. Any eliminated id is alive |
| Engine.ApplyVote | src/traitors_ai/game_engine.py:17-35 | `apply_vote` is that outcome for the next draw, and consumes a draw exactly when it picks at random |
| Engine.MurderOutcome | src/traitors_ai/game_engine.py:38-57 | The victim is never a traitor or a dead player, and there is none iff no faithful player is alive. A unique leader dies. A tie is broken by one draw over the tied ids. With no positive count, the draw is over the alive faithful |
| Engine.MurderGoesToLeader | src/traitors_ai/game_engine.py:51-56 | Once the tally has a leader, the victim is one of the leaders |
| Engine.ApplyMurder | src/traitors_ai/game_engine.py:38-57 | `apply_murder` is that outcome for the next draw, and consumes a draw exactly when a faithful player is alive and there is no unique leader |
| Engine.CheckTerminal | src/traitors_ai/game_engine.py:60-66 | The check never returns a draw, and returns a faithful win when the traitor set is empty |
| Engine.TerminalMeaning | src/traitors_ai/game_engine.py:60-66 | Over the alive traitors: the faithful win iff none is alive; the traitors win iff they are at least as many as the alive faithful; play goes on iff 1 <= traitors < faithful |
| Agent.Llm.constructor | src/traitors_ai/agent.py:24 | The client starts at call position 0 with the given reply function |
| Agent.Llm.Invoke | src/traitors_ai/agent.py:27-31 | One completion returns the model's reply to this call of the prompt and advances the call position by one |
| Agent.ParseBelief | src/traitors_ai/agent.py:38 | A reply parses into a belief iff it decodes and every score lies in [0, 1]; the result is the decoded belief |
| Agent.ParseAction | src/traitors_ai/agent.py:38 | A reply parses into an action iff it decodes and the rationale has at most 200 characters; the result is the decoded action |
| Agent.RepromptKeeps | src/traitors_ai/agent.py:41-45 | The re-prompt carries the previous prompt intact between the two warning lines |
| Agent.Attempts | src/traitors_ai/agent.py:33-46 | The retry loop makes at most n model calls, and a returned value comes with no error |
| Agent.AttemptsUnfold | src/traitors_ai/agent.py:35-45 | A parsed first reply ends the loop after one call; a failed one re-prompts with its error recorded and goes on with one attempt fewer |
| Agent.AttemptsMeaning | src/traitors_ai/agent.py:33-46 | A value is returned exactly when some attempt parses, and it is the first such attempt's value, after exactly that many calls. Otherwise every attempt was made and failed, and the error is the last attempt's |
| Agent.TraitorsAgent.StructuredInvoke | src/traitors_ai/agent.py:33-46 | The loop returns exactly what `Attempts` gives for retries + 1 attempts, with the call position advanced by the calls made |
| Agent.ClipMeaning | src/traitors_ai/agent.py:88-90 | Clipping yields a prefix of the text within the limit, leaves text that fits untouched, and never ends a cut text on whitespace |
| Agent.ClipStripped | src/traitors_ai/agent.py:87-90 | A stripped reply, once clipped, has no whitespace at either end |
| Agent.TraitorsAgent.SpeechMeaning | src/traitors_ai/agent.py:87-90 | A message is a prefix of the stripped reply, at most `message_char_limit` long, with no whitespace at either end |
| Agent.TraitorsAgent.Speak | src/traitors_ai/agent.py:76-90 | `speak` makes one call and returns its reply stripped and clipped |
| Agent.TraitorsAgent.TraitorChat | src/traitors_ai/agent.py:117-132 | `traitor_chat` makes one call and returns its reply stripped and clipped |
| Agent.CompactMemoryMeaning | src/traitors_ai/agent.py:156-161 | Memory is cleared under "no_memory"; otherwise it is the last 600 characters, or all, of the stripped concatenation; it never exceeds 600 characters |
| Agent.TraitorsAgent.MemoryAfterRoundMeaning | src/traitors_ai/agent.py:156-161 | The round's update changes only the memory, which stays within 600 characters and is empty when memory is off |
| Agent.Entries | src/traitors_ai/agent.py:51 | The score map's entries, one per id with its score, in ascending id order |
| Agent.Insert | src/traitors_ai/agent.py:51 | A stable insertion adds exactly the one entry |
| Agent.InsertRanked | src/traitors_ai/agent.py:51 | Inserting an entry with a larger id into a ranked list keeps it ranked |
| Agent.RankAll | src/traitors_ai/agent.py:51 | The descending sort is a permutation of the entries |
| Agent.RankAllRanked | src/traitors_ai/agent.py:51 | Sorting entries listed by ascending id orders them by descending score, with ties in ascending id order |
| Agent.TopSuspicions | src/traitors_ai/agent.py:48-53 | The listing has min(3, size) entries and is empty iff the map is. Its entries come from the map in non-increasing score order. Every omitted entry ranks behind every listed one |
| Agent.TopOfRanking | src/traitors_ai/agent.py:51-52 | The first three of a ranked permutation are map entries, ranked, and ahead of every other entry |
| Agent.PlayerNames | src/traitors_ai/graph.py:33 | The name map covers exactly the listed ids, each named "P" and its number |
| Agent.AliveNames | src/traitors_ai/agent.py:55-56 | `_alive_names` maps the alive ids to their names element by element |
| Agent.BuildView | src/traitors_ai/agent.py:163-187 | The view's alive names follow its alive ids element by element, and missing allowed targets become the empty list |
| Agent.NeutralScores | src/traitors_ai/agent.py:72 | The neutral belief gives 0.5 to every alive id except the player itself, and to no other id |
| Agent.TraitorsAgent.constructor | src/traitors_ai/agent.py:13-25 | The agent keeps its id, role, configuration and model client |
| Agent.TraitorsAgent.BeliefAt | src/traitors_ai/agent.py:58-74 | The belief is the first parsed update, or the neutral fallback with note "fallback neutral" when no attempt parses; every score is in [0, 1] |
| Agent.TraitorsAgent.UpdateBeliefs | src/traitors_ai/agent.py:58-74 | `update_beliefs` returns that belief and error, after exactly the retry loop's calls |
| Agent.TraitorsAgent.VoteCandidates | src/traitors_ai/agent.py:110-112 | The vote fallback draws from the allowed targets minus the voter when some are given, and from the alive ids minus the voter otherwise |
| Agent.TraitorsAgent.MurderCandidates | src/traitors_ai/agent.py:151 | The murder fallback draws from the alive ids not listed as traitors |
| Agent.TraitorsAgent.DecisionAt | src/traitors_ai/agent.py:92-154 | A parsed action is kept and consumes no draw. Otherwise the fallback target is drawn from the candidates with rationale "fallback", consuming one draw. The rationale never exceeds 200 characters |
| Agent.TraitorsAgent.Vote | src/traitors_ai/agent.py:92-115 | `vote` returns that decision and advances the call position and the random cursor to match |
| Agent.TraitorsAgent.ChooseMurder | src/traitors_ai/agent.py:134-154 | `choose_murder` returns that decision and advances the call position and the random cursor to match |
| Graph.Summary | src/traitors_ai/graph.py:13-26 | An empty transcript gives the placeholder. Otherwise the result is a suffix of the last six messages' joined lines, at most `max_chars` long, and the whole join when that fits |
| Graph.SummaryOfRecent | src/traitors_ai/graph.py:16-18 | A summary depends only on the last six messages |
| Graph.ViewForBuilds | src/traitors_ai/graph.py:33-46 | The view each handler hands to a player is `build_view` over the name map of the sorted alive ids |
| Graph.ReadyMeans | src/traitors_ai/graph.py:35-37 | Looking up each sorted alive id succeeds iff every alive player has its agent and its private record |
| Graph.Normalize | src/traitors_ai/graph.py:49-53 | The stored suspicions are keyed by exactly the other alive ids, with the update's score where it gives one and 0.5 elsewhere, and stay in [0, 1] |
| Graph.Messages | src/traitors_ai/graph.py:72-78 | One discussion message per text, by the speaker, in the round |
| Graph.DiscussTurn | src/traitors_ai/graph.py:36-88 | A turn appends exactly `discussion_turns` messages by the speaker and keeps the transcript before them. With memory off no record changes. Otherwise only the speaker's record changes, to suspicions over exactly the other alive ids with scores in [0, 1] |
| Graph.Discuss | src/traitors_ai/graph.py:32-88 | The phase keeps the earlier transcript and appends exactly speakers × `discussion_turns` messages of the round, each by a listed speaker. With memory on, every speaker's suspicions are keyed by exactly the other alive ids, with scores in [0, 1]. With memory off no record changes |
| Graph.TakeTurn | src/traitors_ai/graph.py:36-88 | One speaker's belief update and messages change the transcript and records as the turn function says, and nothing else |
| Graph.Orate | src/traitors_ai/graph.py:70-78 | The speaking loop appends one message per turn, from one model call each, and changes nothing else |
| Graph.Converse | src/traitors_ai/graph.py:35-88 | The turn loop over the listed speakers yields exactly the discussion function's transcript, records and call position |
| Graph.DiscussionNode | src/traitors_ai/graph.py:30-90 | `discussion_node` runs every alive player's turn in ascending id order and sets the phase. The round, alive set, votes, private transcript, eliminations and winner are unchanged |
| Graph.VoterHasChoice | src/traitors_ai/graph.py:114-115 | With at least two ids to choose from, every voter has somebody else to name, so the fallback draw never meets an empty list |
| Graph.VoteOf | src/traitors_ai/graph.py:109-116 | The ballot names an id of the pool other than the voter |
| Graph.CastVotes | src/traitors_ai/graph.py:97-116 | n voters cast exactly n ballots |
| Graph.Voted | src/traitors_ai/graph.py:109-116 | A voter's turn appends one ballot, by that voter, naming another id of the pool |
| Graph.CastVotesMeaning | src/traitors_ai/graph.py:97-116 | The k-th ballot is the k-th listed voter's, and every ballot names an id of the pool other than its voter |
| Graph.CastBallot | src/traitors_ai/graph.py:109-116 | A voter's turn keeps a valid vote and replaces an invalid one by a draw, as the ballot function says |
| Graph.CollectVotes | src/traitors_ai/graph.py:96-116 | The ballot loop yields exactly the ballots, call position and cursor that `CastVotes` gives |
| Graph.VotingNode | src/traitors_ai/graph.py:92-133 | `voting_node` appends exactly one vote record, for the round, with one ballot per alive player in ascending order, and sets the phase. Nothing else changes |
| Graph.TieIsWide | src/traitors_ai/graph.py:138 | A first tally reporting a tie names at least two tied ids, all alive and all leaders |
| Graph.Banish | src/traitors_ai/graph.py:136-177 | Somebody is banished iff somebody is alive, and the banished player is alive |
| Graph.Settle | src/traitors_ai/graph.py:137-174 | A first tally that names somebody or reports no tie stands. A tie ends with a tied id banished |
| Graph.Runoff | src/traitors_ai/graph.py:139-174 | The revote and its fallback always banish one of the tied ids |
| Graph.RunoffLeader | src/traitors_ai/graph.py:157-172 | Every revote ballot names a tied id. So the second tally never picks at random, and any player it names is tied |
| Graph.BanishAfterTie | src/traitors_ai/graph.py:137-177 | After a first-pass tie, the banished player is one of the tied leaders |
| Graph.Expel | src/traitors_ai/graph.py:136-174 | The first tally, revote and draws yield exactly the banish function's outcome, call position and cursor |
| Graph.Resolve | src/traitors_ai/graph.py:137-174 | The branch after the first tally yields exactly what `Settle` gives |
| Graph.Revote | src/traitors_ai/graph.py:139-174 | The tie branch matches the runoff function |
| Graph.RecountBallots | src/traitors_ai/graph.py:171-174 | The second tally and its fallback yield exactly what `Recount` gives |
| Graph.Decide | src/traitors_ai/graph.py:172-174 | The second tally's pick stands; otherwise one draw over the tied ids |
| Graph.BanishNode | src/traitors_ai/graph.py:135-191 | `banish_node` removes the banished player from the alive set, appends it to the eliminated order and sets the phase. Nothing else changes |
| Graph.Whisper | src/traitors_ai/graph.py:215-221 | A traitor's message is by that traitor, in the round, in the traitor-chat phase |
| Graph.PlotCounts | src/traitors_ai/graph.py:202-222 | The chat appends one message, and costs one model call, per alive traitor |
| Graph.PlotKeeps | src/traitors_ai/graph.py:222 | The chat keeps the private transcript it started from |
| Graph.PlotSpeakers | src/traitors_ai/graph.py:202-222 | The k-th appended message is the k-th alive traitor's, in the round's traitor-chat phase |
| Graph.Conspire | src/traitors_ai/graph.py:202-232 | The chat loop changes only the private transcript, as the chat function says |
| Graph.PostWhisper | src/traitors_ai/graph.py:215-222 | One traitor's turn appends its one message and makes one model call |
| Graph.TraitorChatNode | src/traitors_ai/graph.py:193-234 | `traitor_chat_node` sets the phase and, when the game has traitors, appends the alive traitors' messages. Nothing else changes |
| Graph.MurdererHasChoice | src/traitors_ai/agent.py:149-153 | With a faithful player alive, the agent's fallback has somebody to draw |
| Graph.MurderOf | src/traitors_ai/graph.py:259-264 | A traitor's murder ballot always names an alive faithful player; an overruled pick is replaced by a draw |
| Graph.MurderVotes | src/traitors_ai/graph.py:246-264 | n traitors cast exactly n murder ballots |
| Graph.Marked | src/traitors_ai/graph.py:259-264 | A traitor's turn appends one ballot, by that traitor, naming an alive faithful player |
| Graph.MurderVotesMeaning | src/traitors_ai/graph.py:246-264 | The k-th murder ballot is the k-th alive traitor's, and every one names an alive faithful player |
| Graph.Murder | src/traitors_ai/graph.py:236-278 | The victim is never a traitor and is alive. Nobody dies iff the game has no traitors or no faithful player is alive |
| Graph.Slaying | src/traitors_ai/graph.py:240-275 | With traitors in the game, somebody dies iff a faithful player is alive, and never a traitor |
| Graph.MurderVictimNamed | src/traitors_ai/graph.py:246-278 | With a traitor alive, somebody dies, and it is a player some alive traitor's ballot named |
| Graph.MurderBallot | src/traitors_ai/graph.py:259-264 | A traitor's turn keeps an allowed pick and overrides a fellow traitor, a dead player or itself by a draw, as the ballot function says |
| Graph.CollectMurderVotes | src/traitors_ai/graph.py:245-264 | The murder ballot loop yields exactly the ballots, call position and cursor that `MurderVotes` gives |
| Graph.Slay | src/traitors_ai/graph.py:237-275 | The murder yields exactly what `Murder` gives, with nobody killed in a game without traitors |
| Graph.SlayWithTraitors | src/traitors_ai/graph.py:240-275 | The alive traitors' ballots and `apply_murder` yield exactly what `Slaying` gives |
| Graph.StrikeBallots | src/traitors_ai/graph.py:275 | `apply_murder` over the ballots, from the cursor they left |
| Graph.MurderNode | src/traitors_ai/graph.py:236-291 | `murder_node` removes the victim, if any, from the alive set, appends it to the eliminated order and sets the phase. Nothing else changes |
| Graph.VerdictMeaning | src/traitors_ai/graph.py:294-296 | The faithful win iff no traitor is alive. The traitors win iff the alive traitors are at least as many as the alive faithful. A draw iff neither holds at the round cap. Otherwise play goes on |
| Graph.TerminalCheckNode | src/traitors_ai/graph.py:293-309 | `terminal_check_node` records the verdict if there is one and otherwise leaves the winner untouched; nothing else changes |
| Graph.TerminalStep | src/traitors_ai/graph.py:311-318 | After the check, `route_after_terminal` goes to the end exactly when a winner is set. It goes to traitor chat after a banishment and to the end-of-round update after a murder |
| Graph.SeatedCovers | src/traitors_ai/graph.py:322-323 | Every alive player has its agent and its private record for the end-of-round update |
| Graph.Recall | src/traitors_ai/graph.py:322-323 | The end-of-round updates keep the set of private records |
| Graph.RecallKeeps | src/traitors_ai/graph.py:322-323 | A player not updated keeps its record |
| Graph.RecallUpdates | src/traitors_ai/graph.py:322-323 | Each alive player's record is its own memory update of its old record, whatever the iteration order |
| Graph.Remember | src/traitors_ai/graph.py:323 | One player's memory update replaces only that player's record |
| Graph.PostMurderUpdate | src/traitors_ai/graph.py:320-325 | `post_murder_update` updates every alive player's memory with the public summary and advances the round index by exactly one. Nothing else changes |
| Graph.RemovalKeepsPartition | src/traitors_ai/graph.py:175-177 | Removing an alive player, or nobody, keeps alive and the eliminated order a split of the players, each eliminated once |
| Graph.DiscussionStep | src/traitors_ai/graph.py:337 | Discussion keeps the game's invariant and leads to voting |
| Graph.VotingStep | src/traitors_ai/graph.py:338 | Voting keeps the invariant and leads to banishment |
| Graph.BanishStep | src/traitors_ai/graph.py:339 | Banishment keeps the invariant (alive and eliminated split the players) and leads to the terminal check |
| Graph.TraitorChatStep | src/traitors_ai/graph.py:341 | Traitor chat keeps the invariant and leads to the murder |
| Graph.MurderStep | src/traitors_ai/graph.py:342 | The murder keeps the invariant and leads to the terminal check |
| Graph.PostMurderStep | src/traitors_ai/graph.py:343 | The end-of-round update keeps the invariant and advances the round index by one, never beyond the round cap |
| Graph.Step | src/traitors_ai/graph.py:336-343 | Every edge keeps the invariant and either advances the round within the cap or moves on within the round |
| Graph.Run | src/traitors_ai/graph.py:327-345 | A game run from discussion ends, with the winner set to the verdict. Every eliminated player was alive and is listed once, and alive and eliminated split the starting players. The round index never passes the round cap once it has moved |
| Runner.ParseInt | src/traitors_ai/runner.py:24-25 | `int` succeeds only on text that is not blank once stripped |
| Runner.ParseShown | src/traitors_ai/runner.py:24-25 | `int(str(i)) == i` |
| Runner.SplitDots | src/traitors_ai/runner.py:23 | `split("..")` yields one piece iff the text has no ".."; then the piece is the text itself |
| Runner.SplitAfter | src/traitors_ai/runner.py:23 | A dot-free head before ".." is split off as it is |
| Runner.ParseSeeds | src/traitors_ai/runner.py:21-25 | A parsed argument without ".." is one seed, and one with ".." has exactly two sides |
| Runner.ParseSeedsRange | src/traitors_ai/runner.py:22-24 | "a..b" parses to the seeds a, a+1, ..., b: b − a + 1 of them when b >= a, none otherwise |
| Runner.ParseSeedsSingle | src/traitors_ai/runner.py:25 | A single integer parses to that one seed |
| Runner.Unsuspecting | src/traitors_ai/runner.py:36-38 | 0.5 for every player but the owner |
| Runner.InitialAgentStates | src/traitors_ai/runner.py:33-41 | There is one private record per player |
| Runner.InitialRecord | src/traitors_ai/runner.py:33-41 | Every player starts with empty memory, no alliances or note, and suspicion 0.5 of every other player |
| Runner.InitGameState | src/traitors_ai/runner.py:28-54 | Set-up succeeds iff the traitor count is one `sample` accepts. The state then keeps the source roles were drawn from (K draws consumed), holds the roles of the stream's sample, and starts at round 1 in discussion. All of 1..N are alive, with empty transcripts, vote history and eliminated order, and no winner |
| Analysis.Wins | src/traitors_ai/analysis.py:10-11 | A side wins at most every row |
| Analysis.WinsAppend | src/traitors_ai/analysis.py:10-11 | A row adds one to the count of the side it names and nothing to any other |
| Analysis.WinsApart | src/traitors_ai/analysis.py:10-11 | Two different sides' wins together are at most the rows |
| Analysis.RatioMeaning | src/traitors_ai/analysis.py:14-15 | A rate times the total is the count, and a count within the total gives a rate in [0, 1] |
| Analysis.RatioSum | src/traitors_ai/analysis.py:14-15 | Rates over one total add as their counts do |
| Analysis.SummarizeResults | src/traitors_ai/analysis.py:6-16 | The total is the row count. No rows give both rates 0. Otherwise each rate is that side's wins divided by the total |
| Analysis.RatesBounded | src/traitors_ai/analysis.py:10-15 | Both rates lie in [0, 1] and add up to at most 1 |
| Analysis.DrawsCountForNeither | src/traitors_ai/analysis.py:10-11 | A draw, or a row without a winner, adds to the total and to neither side's wins |

## Left out

- Model transport (`_invoke`, src/traitors_ai/agent.py:27-31) is modelled only as a reply function of the call position and the prompt. Prompt wording (prompts.py) is not part of this model: it is a parameter of each agent, with its persona card already filled in.
- JSON decoding of a reply (the output parser's format) is a parameter of the agent. Only the field checks applied after decoding are modelled.
- The JSONL event log, the summary writer and the `EventLogRow` timestamp are file I/O and wall-clock time. They are left out, together with the `print` calls.
- `generate_game_id` (a SHA-256 digest) is not modelled: the game id is a parameter of `Runner.InitGameState`.
- The Mersenne Twister is not modelled. A seed's draws are a parameter, and a draw past the end of the given stream reads as 0. `_randbelow` is the draw reduced modulo n, without its rejection loop.
- Random.Rng.Sample models the pool branch of CPython's `sample`. CPython uses that branch whenever the population size n is at most `setsize`, which is 21, plus `4 ** ceil(log(3 * k, 4))` when k exceeds 5. Every population of at most 21 ids, including the default of nine players, is covered. The set-based branch, taken only when n exceeds `setsize`, is not modelled.
- Personas, `_build_agents`, the typer commands, CSV output, the replay server and the frontend are not modelled. They are I/O and presentation.
- Graph.Run: the round cap of the game is modelled; langgraph's recursion limit on `graph.invoke` is not.
- Graph.Run, Graph.VotingNode: both require that the alive set is not exactly one player. With one player alive, the vote's fallback draw, in the agent's `vote` (src/traitors_ai/agent.py:108-113) or in `voting_node` (src/traitors_ai/graph.py:114-115), meets an empty candidate list and raises IndexError. The model excludes that crash instead of modelling the exception. `Graph.Run` shows that a game started with any other number of players never reaches it.
- Graph.MurderNode: requires that a faithful player is alive whenever a traitor is. Otherwise the override draw meets an empty list and raises. The terminal check guarantees this within `Graph.Run`.
- The phase handlers require that every alive player has an agent built for its id and sharing the session's model client, and a private record. A missing key is a KeyError in the code.
- Graph.PostMurderUpdate iterates the alive ids in ascending order. The code iterates a Python set, whose order is unspecified. `Graph.RecallUpdates` shows that the result does not depend on the order.
- Agent.TraitorsAgent.MemoryAfterRound is modelled on values: `update_memory_after_round` assigns into the shared private-state object, and the model replaces the player's record in the state's map. Aliasing of that object between the view and the state is not modelled. The view's copies of memory and suspicions are taken when the view is built, as in the code.
- Agent.TopSuspicions: the text rendering `P{pid}:{score:.2f}` joined by commas, and "none" for an empty map, is not modelled. Only the entries, their count and their order are.
- Scores and the temperature are exact reals. NaN, infinities and float rounding are not modelled, and neither is the float division of the win rates.
- Runner.ParseInt: accepts an optional sign and ASCII digits within surrounding whitespace. Python's `int` also accepts underscores between digits and non-ASCII digits; these are not modelled.
- Analysis.SummarizeResults: a result row is reduced to its winner entry. The other columns do not affect the rates.
- `GameConfig` defaults are recorded in `Schemas.DefaultConfig`, which has no contract; `tie_break_rule` is carried but, as in the code, never read.
