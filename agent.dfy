/**
 * The agent side of a decision: the bounded structured-output retry loop, the
 * fallbacks taken when every attempt fails, message truncation, memory
 * compaction, and the view a player is shown. The language model is an oracle
 * whose reply depends on the position of the call and on the prompt; prompt
 * wording and JSON decoding are parameters of the agent.
 */
module Agent {
  import opened Util
  import opened Schemas
  import opened Random

  /** The kinds of request an agent sends; each selects a prompt template. */
  datatype Request = BeliefRequest | SpeakRequest | VoteRequest | TraitorChatRequest | MurderRequest

  /** The language-model client shared by all agents of a session. */
  class Llm {
    const respond: (nat, string) -> string
    var calls: nat

    constructor (respond: (nat, string) -> string)
      ensures this.respond == respond && calls == 0
    {
      this.respond := respond;
      calls := 0;
    }

    /** One completion: the reply the model gives to this call of `prompt`. */
    method Invoke(prompt: string) returns (reply: string)
      modifies this
      ensures reply == respond(old(calls), prompt)
      ensures calls == old(calls) + 1
    {
      reply := respond(calls, prompt);
      calls := calls + 1;
    }
  }

  /**
   * JSON decoding of a reply into the record shapes, before the records' own
   * field validation; a failure carries the decoder's message.
   */
  datatype Decoders = Decoders(
    belief: string -> Result<BeliefUpdate, string>,
    action: string -> Result<VoteAction, string>)

  /** A belief update as the output parser yields it: decoded, then every score checked to lie in [0, 1]. */
  function ParseBelief(decode: Decoders, raw: string): (r: Result<BeliefUpdate, string>)
    ensures r.Ok? <==> decode.belief(raw).Ok? && ScoresInRange(decode.belief(raw).value.scores)
    ensures r.Ok? ==> r.value == decode.belief(raw).value && ScoresInRange(r.value.scores)
  {
    match decode.belief(raw)
    case Err(e) => Err(e)
    case Ok(b) =>
      match ValidateScores(b.scores)
      case Err(e) => Err(e)
      case Ok(scores) => Ok(BeliefUpdate(scores, b.notes))
  }

  /** A vote or murder action as the output parser yields it: decoded, then the rationale length checked. */
  function ParseAction(decode: Decoders, raw: string): (r: Result<VoteAction, string>)
    ensures r.Ok? <==> decode.action(raw).Ok? && |decode.action(raw).value.rationale| <= RationaleLimit
    ensures r.Ok? ==> r.value == decode.action(raw).value
  {
    match decode.action(raw)
    case Err(e) => Err(e)
    case Ok(a) => NewVoteAction(a.targetId, a.rationale)
  }

  function BeliefParser(decode: Decoders): string -> Result<BeliefUpdate, string>
  {
    raw => ParseBelief(decode, raw)
  }

  function ActionParser(decode: Decoders): string -> Result<VoteAction, string>
  {
    raw => ParseAction(decode, raw)
  }

  /** The number of retries the agent's decisions use. */
  const DefaultRetries := 2

  /** `range(retries + 1)` has this many elements. */
  function AttemptCount(retries: int): nat
  {
    if retries + 1 > 0 then retries + 1 else 0
  }

  const RepromptHead := "You must output valid JSON ONLY.\n"
  const RepromptTail := "\nYour previous output was invalid. Follow the schema exactly."

  /** The prompt sent after an unparsable reply: the previous prompt, wrapped in a warning. */
  function Reprompt(prompt: string): string
  {
    RepromptHead + prompt + RepromptTail
  }

  /** The wrapped prompt carries the previous prompt intact, between the two warning lines. */
  lemma RepromptKeeps(prompt: string)
    ensures var r := Reprompt(prompt);
      && |r| == |RepromptHead| + |prompt| + |RepromptTail|
      && r[..|RepromptHead|] == RepromptHead
      && r[|RepromptHead|..|RepromptHead| + |prompt|] == prompt
      && r[|RepromptHead| + |prompt|..] == RepromptTail
  {
  }

  /** The prompt of attempt `i`: the original prompt wrapped `i` times. */
  function Reprompted(prompt: string, i: nat): string
    decreases i
  {
    if i == 0 then prompt else Reprompted(Reprompt(prompt), i - 1)
  }

  function ParseError(message: string): string
  {
    "parse_error: " + message
  }

  /** What the retry loop returns, and the model's call counter after it. */
  datatype Outcome<T> = Outcome(value: Option<T>, error: Option<string>, calls: nat)

  /**
   * The retry loop from attempt position `at` with `n` attempts left: each
   * attempt sends the current prompt; the first reply that parses is
   * returned with no error; a failure records its message and wraps the prompt.
   */
  function Attempts<T>(respond: (nat, string) -> string, parse: string -> Result<T, string>,
                       prompt: string, n: nat, at: nat, lastError: Option<string>): (o: Outcome<T>)
    ensures at <= o.calls <= at + n
    ensures o.value.Some? ==> o.error == None
    decreases n
  {
    if n == 0 then Outcome(None, lastError, at)
    else
      match parse(respond(at, prompt))
      case Ok(v) => Outcome(Some(v), None, at + 1)
      case Err(e) => Attempts(respond, parse, Reprompt(prompt), n - 1, at + 1, Some(ParseError(e)))
  }

  /** One attempt of the retry loop, unfolded. */
  lemma AttemptsUnfold<T>(respond: (nat, string) -> string, parse: string -> Result<T, string>,
                          prompt: string, n: nat, at: nat, lastError: Option<string>)
    requires n > 0
    ensures parse(respond(at, prompt)).Ok? ==>
      Attempts(respond, parse, prompt, n, at, lastError) == Outcome(Some(parse(respond(at, prompt)).value), None, at + 1)
    ensures parse(respond(at, prompt)).Err? ==>
      Attempts(respond, parse, prompt, n, at, lastError)
      == Attempts(respond, parse, Reprompt(prompt), n - 1, at + 1, Some(ParseError(parse(respond(at, prompt)).error)))
  {
  }

  /** The parse of the reply to attempt `j` of a retry loop started at position `at`. */
  function AttemptReply<T>(respond: (nat, string) -> string, parse: string -> Result<T, string>,
                           prompt: string, at: nat, j: nat): Result<T, string>
  {
    parse(respond(at + j, Reprompted(prompt, j)))
  }

  /**
   * The retry loop, attempt by attempt: a value is returned exactly when some
   * attempt parses, and then it is the first one's value, after exactly that
   * many calls; otherwise every attempt was made and failed, and the error is
   * the last attempt's.
   */
  lemma {:induction false} AttemptsMeaning<T>(respond: (nat, string) -> string, parse: string -> Result<T, string>,
                                              prompt: string, n: nat, at: nat, lastError: Option<string>)
    ensures var o := Attempts(respond, parse, prompt, n, at, lastError);
      o.value.Some? ==>
        at < o.calls
        && AttemptReply(respond, parse, prompt, at, o.calls - at - 1) == Ok(o.value.value)
        && forall j :: 0 <= j < o.calls - at - 1 ==> AttemptReply(respond, parse, prompt, at, j).Err?
    ensures var o := Attempts(respond, parse, prompt, n, at, lastError);
      o.value.None? ==>
        o.calls == at + n
        && (forall j :: 0 <= j < n ==> AttemptReply(respond, parse, prompt, at, j).Err?)
        && o.error == (if n == 0 then lastError
                       else Some(ParseError(AttemptReply(respond, parse, prompt, at, n - 1).error)))
    decreases n
  {
    if n > 0 {
      var first := parse(respond(at, prompt));
      assert AttemptReply(respond, parse, prompt, at, 0) == first;
      if first.Err? {
        var next := Reprompt(prompt);
        AttemptsMeaning(respond, parse, next, n - 1, at + 1, Some(ParseError(first.error)));
        forall j: nat | 0 < j
          ensures AttemptReply(respond, parse, prompt, at, j) == AttemptReply(respond, parse, next, at + 1, j - 1)
        {
        }
        var o := Attempts(respond, parse, prompt, n, at, lastError);
        if o.value.Some? {
          forall j | 0 <= j < o.calls - at - 1
            ensures AttemptReply(respond, parse, prompt, at, j).Err?
          {
            if j > 0 {
              assert AttemptReply(respond, parse, prompt, at, j) == AttemptReply(respond, parse, next, at + 1, j - 1);
            }
          }
        } else {
          forall j | 0 <= j < n
            ensures AttemptReply(respond, parse, prompt, at, j).Err?
          {
            if j > 0 {
              assert AttemptReply(respond, parse, prompt, at, j) == AttemptReply(respond, parse, next, at + 1, j - 1);
            }
          }
        }
      }
    }
  }

  /** Python's `s[:limit].rstrip()` cut, applied only to text longer than the limit. */
  function Clip(text: string, limit: int): string
  {
    if |text| > limit then RStrip(PyHead(text, limit)) else text
  }

  /** Clipping keeps a prefix within the limit, touches text that fits, and cuts no closer than whitespace. */
  lemma ClipMeaning(text: string, limit: int)
    ensures var r := Clip(text, limit);
      && r <= text
      && (|text| <= limit ==> r == text)
      && (0 <= limit ==> |r| <= limit)
      && (|text| > limit ==> r == [] || !IsSpace(r[|r| - 1]))
  {
    if |text| > limit {
      RStripMeaning(PyHead(text, limit));
    }
  }

  /** A stripped reply, once clipped, is still free of surrounding whitespace. */
  lemma ClipStripped(reply: string, limit: int)
    ensures var r := Clip(Strip(reply), limit); r == [] || (!IsSpace(r[0]) && !IsSpace(r[|r| - 1]))
  {
    var text := Strip(reply);
    StripMeaning(reply);
    ClipMeaning(text, limit);
    var r := Clip(text, limit);
    if r != [] {
      assert r[0] == text[0];
    }
  }

  /** The most memory text kept between rounds. */
  const MemoryLimit := 600

  /**
   * Memory after a round: cleared under the no-memory condition; otherwise
   * the stripped concatenation of old memory and the round summary, of which
   * only the last 600 characters are kept.
   */
  function CompactMemory(noMemory: bool, memory: string, summary: string): string
  {
    if noMemory then "" else PyLast(Strip(memory + " " + summary), MemoryLimit)
  }

  /**
   * The compacted memory is empty under the no-memory condition, and
   * otherwise the last 600 characters, or all, of the stripped concatenation.
   */
  lemma CompactMemoryMeaning(noMemory: bool, memory: string, summary: string)
    ensures var r := CompactMemory(noMemory, memory, summary);
      && (noMemory ==> r == "")
      && |r| <= MemoryLimit
      && (!noMemory ==>
            var combined := Strip(memory + " " + summary);
            |r| == (if |combined| < MemoryLimit then |combined| else MemoryLimit) && r == combined[|combined| - |r|..])
  {
  }

  /** One entry of the suspicion ranking: a player id and its score. */
  type Entry = (int, real)

  /** The score map's entries in its insertion order, which is ascending by id. */
  function Entries(scores: map<int, real>): (es: seq<Entry>)
    ensures |es| == |scores|
    ensures forall i :: 0 <= i < |es| ==> es[i].0 in scores && es[i].1 == scores[es[i].0]
    ensures forall i, j :: 0 <= i < j < |es| ==> es[i].0 < es[j].0
    ensures forall k :: k in scores ==> (k, scores[k]) in es
  {
    var ks := Sorted(scores.Keys);
    var es := Pairs(ks, scores);
    EntriesCover(scores, ks, es);
    es
  }

  /** Each id of `ks` paired with its score. */
  function Pairs(ks: seq<int>, scores: map<int, real>): (es: seq<Entry>)
    requires Elems(ks) <= scores.Keys
    ensures |es| == |ks|
    ensures forall i :: 0 <= i < |ks| ==> es[i] == (ks[i], scores[ks[i]])
  {
    if ks == [] then [] else [(ks[0], scores[ks[0]])] + Pairs(ks[1..], scores)
  }

  lemma EntriesCover(scores: map<int, real>, ks: seq<int>, es: seq<Entry>)
    requires Elems(ks) == scores.Keys && |es| == |ks|
    requires forall i :: 0 <= i < |ks| ==> es[i] == (ks[i], scores[ks[i]])
    ensures forall k :: k in scores ==> (k, scores[k]) in es
  {
    forall k | k in scores ensures (k, scores[k]) in es {
      assert k in Elems(ks);
      var i :| 0 <= i < |ks| && ks[i] == k;
      assert es[i] == (k, scores[k]);
    }
  }

  /** Whether entry `a` comes before entry `b` in the ranking. */
  predicate Outranks(a: Entry, b: Entry)
  {
    a.1 > b.1 || (a.1 == b.1 && a.0 < b.0)
  }

  /**
   * Order of a stable descending sort over entries listed by ascending id:
   * higher score first, and equal scores in ascending id order.
   */
  predicate Ranked(s: seq<Entry>)
  {
    forall i, j :: 0 <= i < j < |s| ==> Outranks(s[i], s[j])
  }

  /** Every entry of `r` is an entry of the score map. */
  predicate Listed(scores: map<int, real>, r: seq<Entry>)
  {
    forall i :: 0 <= i < |r| ==> r[i].0 in scores && r[i].1 == scores[r[i].0]
  }

  /** Every entry of the map missing from `r` ranks behind every entry of `r`. */
  predicate Leading(scores: map<int, real>, r: seq<Entry>)
  {
    forall k :: k in scores && (k, scores[k]) !in r ==>
      forall i :: 0 <= i < |r| ==> r[i].1 > scores[k] || (r[i].1 == scores[k] && r[i].0 < k)
  }

  /** One step of a stable descending insertion: `x` goes after every entry scoring at least as much. */
  function Insert(x: Entry, s: seq<Entry>): (r: seq<Entry>)
    ensures multiset(r) == multiset(s) + multiset{x}
    ensures |r| == |s| + 1
  {
    if s == [] then [x]
    else if s[0].1 >= x.1 then
      assert s == [s[0]] + s[1..];
      [s[0]] + Insert(x, s[1..])
    else [x] + s
  }

  /** What an insertion holds is the inserted entry or one already there. */
  lemma InsertFrom(x: Entry, s: seq<Entry>)
    ensures forall e :: e in Insert(x, s) ==> e == x || e in s
  {
    forall e | e in Insert(x, s) ensures e == x || e in s {
      assert e in multiset(Insert(x, s));
    }
  }

  lemma {:induction false} InsertRanked(x: Entry, s: seq<Entry>)
    requires Ranked(s)
    requires forall i :: 0 <= i < |s| ==> s[i].0 < x.0
    ensures Ranked(Insert(x, s))
  {
    if s != [] && s[0].1 >= x.1 {
      var tail := s[1..];
      InsertRanked(x, tail);
      var rest := Insert(x, tail);
      InsertFrom(x, tail);
      var r := Insert(x, s);
      assert r == [s[0]] + rest;
      forall i, j | 0 <= i < j < |r| ensures Outranks(r[i], r[j]) {
        assert r[j] == rest[j - 1];
        if i == 0 {
          assert r[j] in rest;
          if r[j] != x {
            var k :| 0 <= k < |tail| && tail[k] == r[j];
            assert s[k + 1] == r[j];
          }
        } else {
          assert r[i] == rest[i - 1];
        }
      }
    }
  }

  /** `sorted(entries, key=score, reverse=True)`, built by stable insertion. */
  function RankAll(es: seq<Entry>): (r: seq<Entry>)
    ensures multiset(r) == multiset(es)
    ensures |r| == |es|
  {
    if es == [] then []
    else
      assert es == es[..|es| - 1] + [es[|es| - 1]];
      Insert(es[|es| - 1], RankAll(es[..|es| - 1]))
  }

  lemma {:induction false} RankAllRanked(es: seq<Entry>)
    requires forall i, j :: 0 <= i < j < |es| ==> es[i].0 < es[j].0
    ensures Ranked(RankAll(es))
  {
    if es != [] {
      var init := es[..|es| - 1];
      var last := es[|es| - 1];
      RankAllRanked(init);
      var r := RankAll(init);
      forall i | 0 <= i < |r| ensures r[i].0 < last.0 {
        assert r[i] in multiset(init);
        var k :| 0 <= k < |init| && init[k] == r[i];
      }
      InsertRanked(last, r);
    }
  }

  /** How many suspicions a view lists. */
  const TopCount := 3

  /**
   * `_top_suspicions` before its text rendering: the three highest scores,
   * ties in id order; nothing for an empty map. Every entry left out scores
   * lower than, or ties with a smaller id behind, every entry listed.
   */
  function TopSuspicions(scores: map<int, real>): (r: seq<Entry>)
    ensures |r| == (if |scores| < TopCount then |scores| else TopCount)
    ensures r == [] <==> scores == map[]
    ensures Listed(scores, r) && Ranked(r) && Leading(scores, r)
  {
    var r := PyHead(RankAll(Entries(scores)), TopCount);
    TopSuspicionsSize(scores, r);
    TopSuspicionsOrder(scores, r);
    r
  }

  lemma TopSuspicionsSize(scores: map<int, real>, r: seq<Entry>)
    requires r == PyHead(RankAll(Entries(scores)), TopCount)
    ensures |r| == (if |scores| < TopCount then |scores| else TopCount)
    ensures r == [] <==> scores == map[]
  {
    if |scores| == 0 {
      assert scores == map[];
    }
  }

  lemma TopSuspicionsOrder(scores: map<int, real>, r: seq<Entry>)
    requires r == PyHead(RankAll(Entries(scores)), TopCount)
    ensures Listed(scores, r) && Ranked(r) && Leading(scores, r)
  {
    var es := Entries(scores);
    RankAllRanked(es);
    TopOfRanking(scores, es, RankAll(es), r);
  }

  lemma TopOfRanking(scores: map<int, real>, es: seq<Entry>, all: seq<Entry>, r: seq<Entry>)
    requires forall i :: 0 <= i < |es| ==> es[i].0 in scores && es[i].1 == scores[es[i].0]
    requires forall k :: k in scores ==> (k, scores[k]) in es
    requires multiset(all) == multiset(es) && Ranked(all)
    requires r == PyHead(all, TopCount)
    ensures forall i :: 0 <= i < |r| ==> r[i].0 in scores && r[i].1 == scores[r[i].0]
    ensures Ranked(r)
    ensures forall k :: k in scores && (k, scores[k]) !in r ==>
      forall i :: 0 <= i < |r| ==> r[i].1 > scores[k] || (r[i].1 == scores[k] && r[i].0 < k)
  {
    assert r == all[..|r|];
    forall i | 0 <= i < |r| ensures r[i].0 in scores && r[i].1 == scores[r[i].0] {
      assert r[i] in multiset(es);
      var k :| 0 <= k < |es| && es[k] == r[i];
    }
    forall k | k in scores && (k, scores[k]) !in r
      ensures forall i :: 0 <= i < |r| ==> r[i].1 > scores[k] || (r[i].1 == scores[k] && r[i].0 < k)
    {
      assert (k, scores[k]) in multiset(all);
      var j :| 0 <= j < |all| && all[j] == (k, scores[k]);
      assert j >= |r|;
    }
  }

  /** `f"P{pid}"`, the name a player is shown as. */
  function PlayerName(pid: int): string
  {
    "P" + ShowInt(pid)
  }

  /** `{pid: f"P{pid}" for pid in ids}`. */
  function PlayerNames(ids: seq<int>): (names: map<int, string>)
    ensures names.Keys == Elems(ids)
    ensures forall p :: p in names ==> names[p] == PlayerName(p)
  {
    map p | p in Elems(ids) :: PlayerName(p)
  }

  /** `_alive_names`: each alive id looked up in the name map, in order. */
  function AliveNames(alive: seq<int>, names: map<int, string>): (r: seq<string>)
    requires forall i :: 0 <= i < |alive| ==> alive[i] in names
    ensures |r| == |alive| && forall i :: 0 <= i < |alive| ==> r[i] == names[alive[i]]
  {
    seq(|alive|, i requires 0 <= i < |alive| => names[alive[i]])
  }

  /**
   * What one player is shown for one decision. The view keeps the player's
   * suspicion scores; the top-three list the prompt prints is
   * `TopSuspicions` of them.
   */
  datatype View = View(
    round: int,
    aliveIds: seq<int>,
    aliveNames: seq<string>,
    publicSummary: string,
    memorySummary: string,
    suspicionScores: map<int, real>,
    traitorIds: seq<int>,
    traitorSummary: string,
    allowedTargets: seq<int>,
    rng: Rng)

  /** `build_view`: the view a player decides on; no list of allowed targets means none. */
  function BuildView(round: int, aliveIds: seq<int>, names: map<int, string>, publicSummary: string,
                     private: AgentPrivate, traitorIds: seq<int>, traitorSummary: string,
                     allowedTargets: Option<seq<int>>, rng: Rng): (v: View)
    requires forall i :: 0 <= i < |aliveIds| ==> aliveIds[i] in names
    ensures |v.aliveNames| == |aliveIds| && forall i :: 0 <= i < |aliveIds| ==> v.aliveNames[i] == names[aliveIds[i]]
    ensures allowedTargets.None? ==> v.allowedTargets == []
  {
    View(round, aliveIds, AliveNames(aliveIds, names), publicSummary, private.memorySummary,
         private.suspicionScores, traitorIds, traitorSummary,
         if allowedTargets.Some? then allowedTargets.value else [], rng)
  }

  /** The neutral belief taken when no reply parses: 0.5 for every alive player other than `self`. */
  function NeutralScores(aliveIds: seq<int>, self: int): (scores: map<int, real>)
    ensures scores.Keys == Elems(aliveIds) - {self}
    ensures forall p :: p in scores ==> scores[p] == 0.5
  {
    map p | p in Elems(aliveIds) && p != self :: 0.5
  }

  /** A belief update, the parse error if any, and the model's call counter after it. */
  datatype Belief = Belief(update: BeliefUpdate, error: Option<string>, calls: nat)

  /** An action, the parse error if any, and the call counter and draw cursor after it. */
  datatype Decision = Decision(action: VoteAction, error: Option<string>, calls: nat, cursor: nat)

  /** The fallback action's rationale. */
  const FallbackRationale := "fallback"

  /** One player's agent: its id and role, and the model, prompts and decoders it decides with. */
  class TraitorsAgent {
    const id: int
    const role: Role
    const config: GameConfig
    const llm: Llm
    /** The prompt templates of the agent, with its persona card filled in. */
    const prompt: (Request, View) -> string
    const decode: Decoders

    constructor (id: int, role: Role, config: GameConfig, llm: Llm,
                 prompt: (Request, View) -> string, decode: Decoders)
      ensures this.id == id && this.role == role && this.config == config
      ensures this.llm == llm && this.prompt == prompt && this.decode == decode
    {
      this.id := id;
      this.role := role;
      this.config := config;
      this.llm := llm;
      this.prompt := prompt;
      this.decode := decode;
    }

    /** `_structured_invoke`: up to `retries + 1` attempts, re-prompting after each unparsable reply. */
    method StructuredInvoke<T>(prompt0: string, parse: string -> Result<T, string>, retries: int)
      returns (value: Option<T>, error: Option<string>)
      modifies llm
      ensures Outcome(value, error, llm.calls)
           == Attempts(llm.respond, parse, prompt0, AttemptCount(retries), old(llm.calls), None)
    {
      var n := AttemptCount(retries);
      var current := prompt0;
      var lastError: Option<string> := None;
      for attempt := 0 to n
        invariant Attempts(llm.respond, parse, prompt0, n, old(llm.calls), None)
               == Attempts(llm.respond, parse, current, n - attempt, llm.calls, lastError)
      {
        AttemptsUnfold(llm.respond, parse, current, n - attempt, llm.calls, lastError);
        var raw := llm.Invoke(current);
        var parsed := parse(raw);
        if parsed.Ok? {
          return Some(parsed.value), None;
        }
        lastError := Some(ParseError(parsed.error));
        current := Reprompt(current);
      }
      return None, lastError;
    }

    /** The belief retry loop of a view, from call position `at`. */
    function BeliefAttempts(view: View, at: nat): Outcome<BeliefUpdate>
    {
      Attempts(llm.respond, BeliefParser(decode), prompt(BeliefRequest, view), AttemptCount(DefaultRetries), at, None)
    }

    /**
     * `update_beliefs` from call position `at`: the parsed update, or the
     * neutral fallback with its note. Either way every score lies in [0, 1].
     */
    function BeliefAt(view: View, at: nat): (b: Belief)
      ensures ScoresInRange(b.update.scores)
      ensures b.calls == BeliefAttempts(view, at).calls
      ensures BeliefAttempts(view, at).value.Some? ==> b.update == BeliefAttempts(view, at).value.value
      ensures BeliefAttempts(view, at).value.None? ==>
        b.update.scores == NeutralScores(view.aliveIds, id) && b.update.notes == "fallback neutral"
    {
      var o := BeliefAttempts(view, at);
      if o.value.Some? then
        AttemptsMeaning(llm.respond, BeliefParser(decode), prompt(BeliefRequest, view), AttemptCount(DefaultRetries), at, None);
        Belief(o.value.value, o.error, o.calls)
      else Belief(BeliefUpdate(NeutralScores(view.aliveIds, id), "fallback neutral"), o.error, o.calls)
    }

    method UpdateBeliefs(view: View) returns (update: BeliefUpdate, error: Option<string>)
      modifies llm
      ensures Belief(update, error, llm.calls) == BeliefAt(view, old(llm.calls))
    {
      var result;
      result, error := StructuredInvoke(prompt(BeliefRequest, view), BeliefParser(decode), DefaultRetries);
      if result.None? {
        return BeliefUpdate(NeutralScores(view.aliveIds, id), "fallback neutral"), error;
      }
      update := result.value;
    }

    /** The text a public or private message carries: the stripped reply, clipped to the message limit. */
    function SpeechAt(request: Request, view: View, at: nat): string
    {
      Clip(Strip(llm.respond(at, prompt(request, view))), config.messageCharLimit)
    }

    /** A message is a prefix of the stripped reply, within the configured limit and without surrounding whitespace. */
    lemma SpeechMeaning(request: Request, view: View, at: nat)
      ensures var text := SpeechAt(request, view, at);
        && (0 <= config.messageCharLimit ==> |text| <= config.messageCharLimit)
        && text <= Strip(llm.respond(at, prompt(request, view)))
        && (text == [] || (!IsSpace(text[0]) && !IsSpace(text[|text| - 1])))
    {
      ClipMeaning(Strip(llm.respond(at, prompt(request, view))), config.messageCharLimit);
      ClipStripped(llm.respond(at, prompt(request, view)), config.messageCharLimit);
    }

    /** `speak`: one call, stripped and clipped. */
    method Speak(view: View) returns (text: string)
      modifies llm
      ensures text == SpeechAt(SpeakRequest, view, old(llm.calls))
      ensures llm.calls == old(llm.calls) + 1
    {
      var raw := llm.Invoke(prompt(SpeakRequest, view));
      text := Strip(raw);
      if |text| > config.messageCharLimit {
        text := RStrip(PyHead(text, config.messageCharLimit));
      }
    }

    /** `traitor_chat`: as `speak`, with the traitor-chat prompt. */
    method TraitorChat(view: View) returns (text: string)
      modifies llm
      ensures text == SpeechAt(TraitorChatRequest, view, old(llm.calls))
      ensures llm.calls == old(llm.calls) + 1
    {
      var raw := llm.Invoke(prompt(TraitorChatRequest, view));
      text := Strip(raw);
      if |text| > config.messageCharLimit {
        text := RStrip(PyHead(text, config.messageCharLimit));
      }
    }

    /** The action retry loop of a request, from call position `at`. */
    function ActionAttempts(request: Request, view: View, at: nat): Outcome<VoteAction>
    {
      Attempts(llm.respond, ActionParser(decode), prompt(request, view), AttemptCount(DefaultRetries), at, None)
    }

    /** The ids the vote fallback draws from: the allowed targets if any are given, else the alive ids; never the voter. */
    function VoteCandidates(view: View): (c: seq<int>)
      ensures view.allowedTargets != [] ==> Elems(c) == Elems(view.allowedTargets) - {id}
      ensures view.allowedTargets == [] ==> Elems(c) == Elems(view.aliveIds) - {id}
    {
      if view.allowedTargets != [] then Without(view.allowedTargets, id) else Without(view.aliveIds, id)
    }

    /** The ids the murder fallback draws from: alive ids not listed as traitors. */
    function MurderCandidates(view: View): (c: seq<int>)
      ensures Elems(c) == Elems(view.aliveIds) - Elems(view.traitorIds)
    {
      Outside(view.aliveIds, Elems(view.traitorIds))
    }

    /** The source raises when the fallback has to draw from no candidate at all. */
    predicate CanDecide(request: Request, view: View, at: nat)
    {
      ActionAttempts(request, view, at).value.Some?
      || (request == MurderRequest && MurderCandidates(view) != [])
      || (request != MurderRequest && VoteCandidates(view) != [])
    }

    /**
     * `vote` (with the vote request) and `choose_murder` (with the murder
     * request) from call position `at` and draw cursor `cursor`: the parsed
     * action with no draw, or the fallback target drawn from the candidates.
     */
    function DecisionAt(request: Request, view: View, at: nat, cursor: nat): (d: Decision)
      requires CanDecide(request, view, at)
      ensures d.calls == ActionAttempts(request, view, at).calls
      ensures |d.action.rationale| <= RationaleLimit
      ensures ActionAttempts(request, view, at).value.Some? ==>
        d.action == ActionAttempts(request, view, at).value.value && d.cursor == cursor
      ensures ActionAttempts(request, view, at).value.None? ==>
        d.action.rationale == FallbackRationale && d.cursor == cursor + 1
        && (request == MurderRequest ==> d.action.targetId in MurderCandidates(view))
        && (request != MurderRequest ==> d.action.targetId in VoteCandidates(view))
    {
      var o := ActionAttempts(request, view, at);
      if o.value.Some? then
        AttemptsMeaning(llm.respond, ActionParser(decode), prompt(request, view), AttemptCount(DefaultRetries), at, None);
        assert ActionParser(decode)(llm.respond(at + (o.calls - at - 1), Reprompted(prompt(request, view), o.calls - at - 1))) == Ok(o.value.value);
        Decision(o.value.value, o.error, o.calls, cursor)
      else
        var candidates := if request == MurderRequest then MurderCandidates(view) else VoteCandidates(view);
        Decision(VoteAction(Pick(candidates, DrawAt(view.rng.stream, cursor)), FallbackRationale), o.error, o.calls, cursor + 1)
    }

    /** `vote`. */
    method Vote(view: View) returns (action: VoteAction, error: Option<string>)
      requires CanDecide(VoteRequest, view, llm.calls)
      modifies llm, view.rng
      ensures Decision(action, error, llm.calls, view.rng.cursor)
           == DecisionAt(VoteRequest, view, old(llm.calls), old(view.rng.cursor))
    {
      var result;
      result, error := StructuredInvoke(prompt(VoteRequest, view), ActionParser(decode), DefaultRetries);
      if result.None? {
        var target := view.rng.Choice(VoteCandidates(view));
        return VoteAction(target, FallbackRationale), error;
      }
      action := result.value;
    }

    /** `choose_murder`. */
    method ChooseMurder(view: View) returns (action: VoteAction, error: Option<string>)
      requires CanDecide(MurderRequest, view, llm.calls)
      modifies llm, view.rng
      ensures Decision(action, error, llm.calls, view.rng.cursor)
           == DecisionAt(MurderRequest, view, old(llm.calls), old(view.rng.cursor))
    {
      var result;
      result, error := StructuredInvoke(prompt(MurderRequest, view), ActionParser(decode), DefaultRetries);
      if result.None? {
        var target := view.rng.Choice(MurderCandidates(view));
        return VoteAction(target, FallbackRationale), error;
      }
      action := result.value;
    }

    /** `update_memory_after_round`, on the player's private record. */
    function MemoryAfterRound(private: AgentPrivate, publicSummary: string): AgentPrivate
    {
      private.(memorySummary := CompactMemory(config.NoMemory(), private.memorySummary, publicSummary))
    }

    /** The round's update changes only the memory, which stays within the limit and is cleared when memory is off. */
    lemma MemoryAfterRoundMeaning(private: AgentPrivate, publicSummary: string)
      ensures var r := MemoryAfterRound(private, publicSummary);
        && r == private.(memorySummary := r.memorySummary)
        && |r.memorySummary| <= MemoryLimit
        && (config.NoMemory() ==> r.memorySummary == "")
    {
      CompactMemoryMeaning(config.NoMemory(), private.memorySummary, publicSummary);
    }
  }
}
