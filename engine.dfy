/**
 * The resolution engine: role assignment, the banish and murder tallies with
 * their tie policies, and the termination rule.
 */
module Engine {
  import opened Util
  import opened Schemas
  import opened Random

  /** The outcome of role assignment: a role per player and the traitor set. */
  datatype Assignment = Assignment(roles: map<int, Role>, traitors: set<int>)

  /** `{pid: traitor if pid in traitors else faithful for pid in 1..n}`. */
  function RolesFor(n: int, traitors: set<int>): (roles: map<int, Role>)
    ensures roles.Keys == Players(n)
    ensures forall p :: p in roles ==> (roles[p] == Traitor <==> p in traitors)
  {
    map p | p in Players(n) :: if p in traitors then Traitor else Faithful
  }

  /**
   * Role assignment as a function of the draw stream: K distinct ids sampled
   * from 1..N are the traitors, every other id is faithful. It fails exactly
   * where `sample` raises, K negative or larger than the population.
   */
  function AssignRolesFrom(n: int, k: int, stream: seq<nat>, at: nat): (r: Result<Assignment, string>)
    ensures r.Ok? <==> 0 <= k <= (if n > 0 then n else 0)
    ensures r.Ok? ==> r.value.roles.Keys == Players(n)
    ensures r.Ok? ==> r.value.traitors <= Players(n) && |r.value.traitors| == k
    ensures r.Ok? ==> forall p :: p in r.value.roles ==> (r.value.roles[p] == Traitor <==> p in r.value.traitors)
  {
    var ids := Range(1, n + 1);
    if !(0 <= k <= |ids|) then Err("Sample larger than population or is negative")
    else
      var chosen := SampleFrom(ids, k, stream, at);
      SampleFromMeaning(ids, k, stream, at);
      SampledTraitors(n, k, chosen);
      Ok(Assignment(RolesFor(n, Elems(chosen)), Elems(chosen)))
  }

  /** `assign_roles`: sample the traitors from the player ids with the session's source. */
  method AssignRoles(n: int, k: int, rng: Rng) returns (r: Result<Assignment, string>)
    modifies rng
    ensures r == AssignRolesFrom(n, k, rng.stream, old(rng.cursor))
    ensures rng.cursor == old(rng.cursor) + (if r.Ok? then k else 0)
  {
    var ids := Range(1, n + 1);
    var sampled := rng.Sample(ids, k);
    if sampled.None? {
      return Err("Sample larger than population or is negative");
    }
    var traitors := Elems(sampled.value);
    r := Ok(Assignment(RolesFor(n, traitors), traitors));
  }

  lemma SampledTraitors(n: int, k: nat, chosen: seq<int>)
    requires k <= |Range(1, n + 1)|
    requires |chosen| == k && Elems(chosen) <= Elems(Range(1, n + 1))
    requires Distinct(Range(1, n + 1)) ==> Distinct(chosen)
    ensures Elems(chosen) <= Players(n) && |Elems(chosen)| == k
  {
    RangeElems(1, n + 1);
    IncreasingDistinct(Range(1, n + 1));
    DistinctCard(chosen);
  }

  /** Number of ballots that name `target`. */
  function VotesFor(votes: seq<Ballot>, target: int): nat
  {
    if votes == [] then 0
    else VotesFor(votes[..|votes| - 1], target) + (if votes[|votes| - 1].target == target then 1 else 0)
  }

  /** The tally the engine builds: a counter for every eligible id, and no other key. */
  function Counts(eligible: set<int>, votes: seq<Ballot>): (counts: map<int, nat>)
    ensures counts.Keys == eligible
  {
    map p | p in eligible :: VotesFor(votes, p)
  }

  /** The counting loop: start each eligible id at 0 and count each ballot whose target is eligible. */
  method CountVotes(eligible: set<int>, votes: seq<Ballot>) returns (counts: map<int, nat>)
    ensures counts.Keys == eligible
    ensures forall p :: p in eligible ==> counts[p] == VotesFor(votes, p)
    ensures counts == Counts(eligible, votes)
  {
    counts := map p | p in eligible :: 0;
    for i := 0 to |votes|
      invariant counts.Keys == eligible
      invariant forall p :: p in eligible ==> counts[p] == VotesFor(votes[..i], p)
    {
      assert votes[..i + 1][..i] == votes[..i];
      var target := votes[i].target;
      if target in counts {
        counts := counts[target := counts[target] + 1];
      }
    }
    assert votes[..|votes|] == votes;
  }

  /** The largest count among `ids`, 0 for none. */
  function MaxOver(ids: seq<int>, counts: map<int, nat>): (m: nat)
    requires Elems(ids) <= counts.Keys
    ensures forall i :: 0 <= i < |ids| ==> counts[ids[i]] <= m
    ensures ids == [] ==> m == 0
    ensures ids != [] ==> exists i :: 0 <= i < |ids| && counts[ids[i]] == m
  {
    if ids == [] then 0
    else
      var rest := MaxOver(ids[1..], counts);
      assert forall i :: 1 <= i < |ids| ==> ids[i] == ids[1..][i - 1];
      if counts[ids[0]] >= rest then counts[ids[0]] else rest
  }

  /** `max(counts.values()) if counts else 0`. */
  function MaxCount(counts: map<int, nat>): (m: nat)
    ensures forall p :: p in counts ==> counts[p] <= m
    ensures counts.Keys == {} ==> m == 0
    ensures counts.Keys != {} ==> exists p :: p in counts && counts[p] == m
  {
    var ids := Sorted(counts.Keys);
    var m := MaxOver(ids, counts);
    assert forall p :: p in counts ==> p in Elems(ids);
    m
  }

  /** The ids that attain the maximum count, provided that maximum is positive. */
  function Top(counts: map<int, nat>): set<int>
  {
    var m := MaxCount(counts);
    set p | p in counts && counts[p] == m && m > 0
  }

  /** An id is a leader exactly when its count is positive and no other count exceeds it. */
  lemma TopIsPositiveMaximum(counts: map<int, nat>, p: int)
    ensures p in Top(counts) <==>
      p in counts && counts[p] > 0 && forall q :: q in counts ==> counts[q] <= counts[p]
  {
    var m := MaxCount(counts);
    if p in counts && counts[p] > 0 && forall q :: q in counts ==> counts[q] <= counts[p] {
      var w :| w in counts && counts[w] == m;
      assert counts[p] == m;
    }
  }

  /** A positive count comes from some ballot naming that id. */
  lemma {:induction false} CountedIsVoted(votes: seq<Ballot>, p: int)
    requires VotesFor(votes, p) > 0
    ensures exists i :: 0 <= i < |votes| && votes[i].target == p
  {
    var init := votes[..|votes| - 1];
    if votes[|votes| - 1].target != p {
      CountedIsVoted(init, p);
      var i :| 0 <= i < |init| && init[i].target == p;
      assert votes[i].target == p;
    }
  }

  /** Every ballot counts for the id it names. */
  lemma {:induction false} VotedIsCounted(votes: seq<Ballot>, i: nat)
    requires i < |votes|
    ensures VotesFor(votes, votes[i].target) > 0
  {
    if i < |votes| - 1 {
      var init := votes[..|votes| - 1];
      assert init[i] == votes[i];
      VotedIsCounted(init, i);
    }
  }

  /** A leader of the tally is eligible and was named by some ballot. */
  lemma LeaderWasVotedFor(eligible: set<int>, votes: seq<Ballot>, p: int)
    requires p in Top(Counts(eligible, votes))
    ensures p in eligible && exists i :: 0 <= i < |votes| && votes[i].target == p
  {
    CountedIsVoted(votes, p);
  }

  /** One ballot naming an eligible id is enough for the tally to have a leader. */
  lemma VoteMakesLeader(eligible: set<int>, votes: seq<Ballot>, i: nat)
    requires i < |votes| && votes[i].target in eligible
    ensures Top(Counts(eligible, votes)) != {}
  {
    var counts := Counts(eligible, votes);
    VotedIsCounted(votes, i);
    assert counts[votes[i].target] > 0;
    var m := MaxCount(counts);
    var w :| w in counts && counts[w] == m;
    assert w in Top(counts);
  }

  /** What `apply_vote` returns: the eliminated id if any, the tied set, the counts, and whether it was a random pick. */
  datatype Tally = Tally(eliminated: Option<int>, tied: set<int>, counts: map<int, nat>, random: bool)

  /**
   * The banish tally given the draw a random pick would consume: a unique
   * leader is eliminated; several leaders are reported as tied with nobody
   * eliminated; with no positive count, a non-empty alive set yields a random
   * pick over its ascending order.
   */
  function VoteOutcome(alive: set<int>, votes: seq<Ballot>, draw: nat): (t: Tally)
    ensures t.counts == Counts(alive, votes)
    ensures t.eliminated.Some? ==> t.eliminated.value in alive
    ensures |Top(t.counts)| == 1 <==> t.eliminated.Some? && !t.random
    ensures |Top(t.counts)| == 1 ==> Top(t.counts) == {t.eliminated.value} && t.tied == {}
    ensures |Top(t.counts)| > 1 ==> t.eliminated == None && t.tied == Top(t.counts) && !t.random
    ensures alive == {} ==> t.eliminated == None && t.tied == {} && !t.random
    ensures Top(t.counts) == {} && alive != {} ==>
      t.random && t.tied == alive && t.eliminated == Some(Pick(Sorted(alive), draw))
  {
    var counts := Counts(alive, votes);
    var top := Top(counts);
    if |top| == 1 then
      var winner := Min(top);
      assert top == {winner} by { SingletonIs(top, winner); }
      Tally(Some(winner), {}, counts, false)
    else if |top| > 1 then Tally(None, top, counts, false)
    else if alive == {} then Tally(None, {}, counts, false)
    else Tally(Some(Pick(Sorted(alive), draw)), alive, counts, true)
  }

  lemma SingletonIs(s: set<int>, x: int)
    requires |s| == 1 && x in s
    ensures s == {x}
  {
    var rest := s - {x};
    assert s == rest + {x};
    assert |rest| == 0;
  }

  /** `apply_vote`: the counting loop, then the leader, tie or random-pick policy. */
  method ApplyVote(alive: set<int>, votes: seq<Ballot>, rng: Rng) returns (t: Tally)
    modifies rng
    ensures t == VoteOutcome(alive, votes, DrawAt(rng.stream, old(rng.cursor)))
    ensures rng.cursor == old(rng.cursor) + (if t.random then 1 else 0)
  {
    var counts := CountVotes(alive, votes);
    var top := Top(counts);
    if |top| == 1 {
      var winner := Min(top);
      return Tally(Some(winner), {}, counts, false);
    }
    if |top| > 1 {
      return Tally(None, top, counts, false);
    }
    if alive == {} {
      return Tally(None, {}, counts, false);
    }
    var choice := rng.Choice(Sorted(alive));
    return Tally(Some(choice), alive, counts, true);
  }

  /** Whether `apply_murder` consumes a draw: some faithful player is alive and there is no unique leader. */
  predicate MurderDraws(alive: set<int>, traitors: set<int>, votes: seq<Ballot>)
  {
    alive - traitors != {} && |Top(Counts(alive - traitors, votes))| != 1
  }

  /**
   * The murder tally given the draw a random choice would consume: only alive
   * non-traitors are eligible; a unique leader dies; a tie is broken by one draw
   * over the tied ids, with no revote; with no positive count the draw ranges
   * over all eligible ids.
   */
  function MurderOutcome(alive: set<int>, traitors: set<int>, votes: seq<Ballot>, draw: nat): (e: Option<int>)
    ensures e.Some? ==> e.value in alive && e.value !in traitors
    ensures e == None <==> alive - traitors == {}
    ensures |Top(Counts(alive - traitors, votes))| == 1 ==> Top(Counts(alive - traitors, votes)) == {e.value}
    ensures |Top(Counts(alive - traitors, votes))| > 1 ==>
      e == Some(Pick(Sorted(Top(Counts(alive - traitors, votes))), draw))
    ensures Top(Counts(alive - traitors, votes)) == {} && alive - traitors != {} ==>
      e == Some(Pick(Sorted(alive - traitors), draw))
  {
    var eligible := alive - traitors;
    if eligible == {} then None
    else
      var top := Top(Counts(eligible, votes));
      assert top <= eligible;
      if |top| == 1 then
        var victim := Min(top);
        assert top == {victim} by { SingletonIs(top, victim); }
        Some(victim)
      else if |top| > 1 then
        var victim := Pick(Sorted(top), draw);
        assert victim in top;
        Some(victim)
      else
        var victim := Pick(Sorted(eligible), draw);
        assert victim in eligible;
        Some(victim)
  }

  /** Once some ballot names an eligible player, the victim is one of the tally's leaders. */
  lemma MurderGoesToLeader(alive: set<int>, traitors: set<int>, votes: seq<Ballot>, draw: nat)
    requires Top(Counts(alive - traitors, votes)) != {}
    ensures var e := MurderOutcome(alive, traitors, votes, draw);
      e.Some? && e.value in Top(Counts(alive - traitors, votes))
  {
    var counts := Counts(alive - traitors, votes);
    var top := Top(counts);
    var e := MurderOutcome(alive, traitors, votes, draw);
    var x :| x in top;
    TopIsPositiveMaximum(counts, x);
    assert x in alive - traitors;
    if |top| == 1 {
      assert top == {e.value};
    } else {
      var ranked := Sorted(top);
      assert e.value == Pick(ranked, draw);
      assert e.value in Elems(ranked);
    }
  }

  /** `apply_murder`. */
  method ApplyMurder(alive: set<int>, traitors: set<int>, votes: seq<Ballot>, rng: Rng) returns (e: Option<int>)
    modifies rng
    ensures e == MurderOutcome(alive, traitors, votes, DrawAt(rng.stream, old(rng.cursor)))
    ensures rng.cursor == old(rng.cursor) + (if MurderDraws(alive, traitors, votes) then 1 else 0)
  {
    if alive - traitors == {} {
      return None;
    }
    var counts := CountVotes(alive - traitors, votes);
    var top := Top(counts);
    if |top| == 1 {
      var victim := Min(top);
      return Some(victim);
    }
    if |top| > 1 {
      var victim := rng.Choice(Sorted(top));
      return Some(victim);
    }
    var victim := rng.Choice(Sorted(alive - traitors));
    return Some(victim);
  }

  /** `check_terminal`: faithful win with no traitor, traitor win at parity or better, otherwise play on. */
  function CheckTerminal(alive: set<int>, traitors: set<int>): (w: Option<Winner>)
    ensures w != Some(Draw)
    ensures traitors == {} ==> w == Some(FaithfulWin)
  {
    if traitors == {} then Some(FaithfulWin)
    else if |traitors| >= |alive| - |traitors| then Some(TraitorsWin)
    else None
  }

  /**
   * Called with the alive traitors, the rule reads as the game means it: the
   * faithful win when no traitor is alive, the traitors win when they are at
   * least as many as the alive faithful, and play continues only while at least
   * one traitor and more faithful than traitors are alive.
   */
  lemma TerminalMeaning(alive: set<int>, aliveTraitors: set<int>)
    requires aliveTraitors <= alive
    ensures CheckTerminal(alive, aliveTraitors) == Some(FaithfulWin) <==> aliveTraitors == {}
    ensures CheckTerminal(alive, aliveTraitors) == Some(TraitorsWin) <==>
      aliveTraitors != {} && |aliveTraitors| >= |alive - aliveTraitors|
    ensures CheckTerminal(alive, aliveTraitors) == None <==>
      1 <= |aliveTraitors| < |alive - aliveTraitors|
  {
    assert alive == (alive - aliveTraitors) + aliveTraitors;
    assert |alive| == |alive - aliveTraitors| + |aliveTraitors|;
  }
}
