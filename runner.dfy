/**
 * The runner's pure helpers: the seed-range argument of the batch command and
 * the initial session state of one game.
 */
module Runner {
  import opened Util
  import opened Schemas
  import opened Random
  import opened Engine

  // ---------------------------------------------------------------- integers

  /** Whether every character of `s` is a decimal digit. */
  predicate AllDigits(s: string)
  {
    forall i :: 0 <= i < |s| ==> IsDigit(s[i])
  }

  /** The value of a string of decimal digits. */
  function DigitsValue(s: string): nat
    requires AllDigits(s)
  {
    if s == [] then 0 else DigitsValue(s[..|s| - 1]) * 10 + (s[|s| - 1] as int - '0' as int)
  }

  /**
   * `int(text)` on a string: surrounding whitespace is ignored, then an
   * optional sign and at least one decimal digit; anything else is the
   * `ValueError` the source lets escape, here `None`.
   */
  function ParseInt(text: string): (r: Option<int>)
    ensures r.Some? ==> Strip(text) != []
  {
    var t := Strip(text);
    if t == [] then None
    else if t[0] == '-' || t[0] == '+' then
      var digits := t[1..];
      if digits != [] && AllDigits(digits) then
        var magnitude: int := DigitsValue(digits);
        Some(if t[0] == '-' then -magnitude else magnitude)
      else None
    else if AllDigits(t) then Some(DigitsValue(t))
    else None
  }

  /** Reading the decimal digits of a natural number gives the number back. */
  lemma {:induction false} DigitsOfShown(n: nat)
    ensures AllDigits(ShowNat(n)) && DigitsValue(ShowNat(n)) == n
    decreases n
  {
    var s := ShowNat(n);
    if n >= 10 {
      DigitsOfShown(n / 10);
      assert s[..|s| - 1] == ShowNat(n / 10);
    }
  }

  /** A string that neither starts nor ends with whitespace is its own strip. */
  lemma StripUnpadded(s: string)
    requires s != [] && !IsSpace(s[0]) && !IsSpace(s[|s| - 1])
    ensures Strip(s) == s
  {
    assert SkippedLeft(s, 0) == 0;
    assert LStrip(s) == s;
    assert KeptRight(s, |s|) == |s|;
  }

  /** `int(str(i)) == i`. */
  lemma ParseShown(i: int)
    ensures ParseInt(ShowInt(i)) == Some(i)
  {
    var n := if i < 0 then -i else i;
    DigitsOfShown(n);
    var s := ShowInt(i);
    StripUnpadded(s);
    if i < 0 {
      assert s[1..] == ShowNat(n);
    } else {
      assert s[0] != '-' && s[0] != '+' by {
        assert IsDigit(ShowNat(n)[0]);
      }
    }
  }

  // ---------------------------------------------------------------- seed ranges

  /** `".." in text`. */
  predicate HasDots(text: string)
  {
    exists i :: 0 <= i < |text| - 1 && text[i] == '.' && text[i + 1] == '.'
  }

  /** `text.split("..")`: the pieces between non-overlapping separators, found from the left. */
  function SplitDots(text: string): (parts: seq<string>)
    ensures |parts| >= 1
    ensures |parts| == 1 <==> !HasDots(text)
    ensures !HasDots(text) ==> parts == [text]
    decreases |text|
  {
    if |text| < 2 then [text]
    else if text[0] == '.' && text[1] == '.' then [""] + SplitDots(text[2..])
    else
      var rest := SplitDots(text[1..]);
      assert HasDots(text[1..]) ==> HasDots(text) by {
        if HasDots(text[1..]) {
          var i :| 0 <= i < |text[1..]| - 1 && text[1..][i] == '.' && text[1..][i + 1] == '.';
          assert text[i + 1] == '.' && text[i + 2] == '.';
        }
      }
      assert HasDots(text) ==> HasDots(text[1..]) by {
        if HasDots(text) {
          var i :| 0 <= i < |text| - 1 && text[i] == '.' && text[i + 1] == '.';
          assert i > 0;
          assert text[1..][i - 1] == '.' && text[1..][i] == '.';
        }
      }
      assert [text[0]] + text[1..] == text;
      [[text[0]] + rest[0]] + rest[1..]
  }

  /** A piece without dots ahead of the separator is split off as it is. */
  lemma {:induction false} SplitAfter(head: string, tail: string)
    requires forall i :: 0 <= i < |head| ==> head[i] != '.'
    ensures SplitDots(head + ".." + tail) == [head] + SplitDots(tail)
    decreases |head|
  {
    var text := head + ".." + tail;
    if head == [] {
      assert text[2..] == tail;
    } else {
      assert text[1..] == head[1..] + ".." + tail;
      SplitAfter(head[1..], tail);
      assert [head[0]] + head[1..] == head;
    }
  }

  /** Decimal text never contains a dot. */
  lemma ShownHasNoDot(i: int)
    ensures forall k :: 0 <= k < |ShowInt(i)| ==> ShowInt(i)[k] != '.'
  {
    var n := if i < 0 then -i else i;
    var s := ShowInt(i);
    forall k | 0 <= k < |s| ensures s[k] != '.' {
      if i < 0 && k > 0 {
        assert s[k] == ShowNat(n)[k - 1];
      }
    }
  }

  /**
   * `_parse_seeds`: with a `..` the two sides are the inclusive ends of a
   * range, and more than two sides is the unpacking error; without one, the
   * argument is a single seed. Unparsable integers are the `int` error.
   */
  function ParseSeeds(arg: string): (r: Result<seq<int>, string>)
    ensures r.Ok? && !HasDots(arg) ==> |r.value| == 1
    ensures r.Ok? && HasDots(arg) ==> |SplitDots(arg)| == 2
  {
    if HasDots(arg) then
      var parts := SplitDots(arg);
      if |parts| != 2 then Err("too many values to unpack (expected 2)")
      else
        var start := ParseInt(parts[0]);
        var end := ParseInt(parts[1]);
        if start.None? || end.None? then Err("invalid literal for int() with base 10")
        else Ok(Range(start.value, end.value + 1))
    else
      var seed := ParseInt(arg);
      if seed.None? then Err("invalid literal for int() with base 10") else Ok([seed.value])
  }

  /**
   * `"a..b"` is the inclusive range from a to b: b - a + 1 seeds counting up
   * from a when b >= a, none otherwise.
   */
  lemma ParseSeedsRange(a: int, b: int)
    ensures var r := ParseSeeds(ShowInt(a) + ".." + ShowInt(b));
      && r.Ok? && |r.value| == (if b >= a then b - a + 1 else 0)
      && forall k :: 0 <= k < |r.value| ==> r.value[k] == a + k
  {
    var arg := ShowInt(a) + ".." + ShowInt(b);
    ShownHasNoDot(a);
    ShownHasNoDot(b);
    SplitAfter(ShowInt(a), ShowInt(b));
    assert !HasDots(ShowInt(b));
    assert SplitDots(arg) == [ShowInt(a), ShowInt(b)];
    ParseShown(a);
    ParseShown(b);
  }

  /** A single integer is a single seed. */
  lemma ParseSeedsSingle(i: int)
    ensures ParseSeeds(ShowInt(i)) == Ok([i])
  {
    ShownHasNoDot(i);
    ParseShown(i);
    assert !HasDots(ShowInt(i));
  }

  // ---------------------------------------------------------------- the initial state

  /** Suspicion 0.5 of every player but `p`. */
  function Unsuspecting(n: int, p: int): (scores: map<int, real>)
    ensures scores.Keys == Players(n) - {p}
    ensures forall q :: q in scores ==> scores[q] == 0.5
  {
    map q | q in Players(n) && q != p :: 0.5
  }

  /** The private records the game starts with, one per player. */
  function InitialAgentStates(n: int): (states: map<int, AgentPrivate>)
    ensures states.Keys == Players(n)
  {
    map p | p in Players(n) :: NewAgentPrivate("", Unsuspecting(n, p))
  }

  /** Every player starts with an empty memory, no alliances, no note, and suspicion 0.5 of every other player. */
  lemma InitialRecord(n: int, p: int)
    requires p in Players(n)
    ensures var a := InitialAgentStates(n)[p];
      && a.memorySummary == "" && a.alliances == [] && a.lastRationale == None
      && a.suspicionScores.Keys == Players(n) - {p}
      && forall q :: q in a.suspicionScores ==> a.suspicionScores[q] == 0.5
  {
    var scores := Unsuspecting(n, p);
    var a := NewAgentPrivate("", scores);
    assert InitialAgentStates(n)[p] == a;
    forall q | q in a.suspicionScores ensures a.suspicionScores[q] == 0.5 {
      assert q in scores;
    }
  }

  /**
   * `_init_game_state`: the roles are drawn from the session's own source,
   * which the state keeps; players 1..N are alive at round 1 with empty
   * transcripts and vote history. `stream` stands for the draws the seed
   * determines and `gameId` for the digest-based id; an impossible traitor
   * count is the sampling error.
   */
  method InitGameState(config: GameConfig, stream: seq<nat>, gameId: string) returns (r: Result<GameState, string>)
    ensures r.Ok? <==> 0 <= config.nTraitors <= (if config.nPlayers > 0 then config.nPlayers else 0)
    ensures r.Ok? ==> var a := AssignRolesFrom(config.nPlayers, config.nTraitors, stream, 0);
      var s := r.value;
      && fresh(s) && fresh(s.rng) && s.rng.stream == stream && s.rng.cursor == config.nTraitors
      && s.config == config && s.gameId == gameId && s.roundIdx == 1 && s.phase == Discussion
      && s.alive == Players(config.nPlayers) && s.roles == a.value.roles && s.traitors == a.value.traitors
      && s.publicTranscript == [] && s.voteHistory == [] && s.traitorTranscript == []
      && s.agentStates == InitialAgentStates(config.nPlayers)
      && s.eliminatedOrder == [] && s.winner == None
  {
    var rng := new Rng(stream);
    var roles := AssignRoles(config.nPlayers, config.nTraitors, rng);
    if roles.Err? {
      return Err(roles.error);
    }
    var alive := Players(config.nPlayers);
    var s := new GameState(config, gameId, 1, alive, roles.value.roles, roles.value.traitors,
                           [], [], [], InitialAgentStates(config.nPlayers), rng);
    r := Ok(s);
  }
}
