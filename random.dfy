/**
 * The session's single seeded random source. Python's `random.Random(seed)` is
 * modelled as a fixed stream of draws (what the seed determines) and a cursor
 * saying how many draws have been consumed. The stream is a constant of the
 * object, so the source can never be re-seeded; every result below depends only
 * on the stream and the cursor, which is what makes a session reproducible.
 */
module Random {
  import opened Util

  /** The draw at position `at`; past the recorded end of the stream it reads as 0. */
  function DrawAt(stream: seq<nat>, at: nat): nat
  {
    if at < |stream| then stream[at] else 0
  }

  /** `choice(xs)` when the draw it consumes is `draw`. */
  function Pick(xs: seq<int>, draw: nat): (x: int)
    requires |xs| > 0
    ensures x in xs
  {
    xs[draw % |xs|]
  }

  /**
   * One step of the pool algorithm of `sample`: position j has been taken, and
   * the last live element of the pool moves into the vacancy.
   */
  function Vacate(pool: seq<int>, j: nat): (r: seq<int>)
    requires j < |pool|
    ensures |r| == |pool| - 1
  {
    pool[j := pool[|pool| - 1]][..|pool| - 1]
  }

  lemma VacateElems(pool: seq<int>, j: nat)
    requires j < |pool| && Distinct(pool)
    ensures Distinct(Vacate(pool, j))
    ensures Elems(Vacate(pool, j)) == Elems(pool) - {pool[j]}
  {
    var r := Vacate(pool, j);
    var last := |pool| - 1;
    forall x | x in Elems(pool) - {pool[j]} ensures x in Elems(r) {
      var i :| 0 <= i < |pool| && pool[i] == x;
      if i == last {
        assert r[j] == x;
      } else {
        assert r[i] == x;
      }
    }
  }

  /** Partway through `sample`: the picks so far, the live pool, and the cursor. */
  datatype Sampling = Sampling(picks: seq<int>, pool: seq<int>, cursor: nat)

  /**
   * The first `i` steps of the pool algorithm of `sample` from cursor `at`:
   * each step takes the live element at `draw % (live pool size)` and the
   * last live element moves into its place.
   */
  function Drawn(population: seq<int>, stream: seq<nat>, at: nat, i: nat): (r: Sampling)
    requires i <= |population|
    ensures |r.picks| == i && |r.pool| == |population| - i && r.cursor == at + i
  {
    if i == 0 then Sampling([], population, at)
    else
      var before := Drawn(population, stream, at, i - 1);
      var j := DrawAt(stream, before.cursor) % |before.pool|;
      Sampling(before.picks + [before.pool[j]], Vacate(before.pool, j), before.cursor + 1)
  }

  /** `sample(pool, k)` when the draws it consumes start at position `at`. */
  function SampleFrom(pool: seq<int>, k: nat, stream: seq<nat>, at: nat): (r: seq<int>)
    requires k <= |pool|
    ensures |r| == k
  {
    Drawn(pool, stream, at, k).picks
  }

  /**
   * Every step picks from the population and keeps the rest of it live; from
   * a population without repeats, the picks and the live pool never repeat
   * and never share an element.
   */
  lemma {:induction false} DrawnMeaning(population: seq<int>, stream: seq<nat>, at: nat, i: nat)
    requires i <= |population|
    ensures var d := Drawn(population, stream, at, i);
      && Elems(d.picks) <= Elems(population) && Elems(d.pool) <= Elems(population)
      && (Distinct(population) ==>
            Distinct(d.picks) && Distinct(d.pool) && Elems(d.picks) !! Elems(d.pool))
  {
    if i > 0 {
      DrawnMeaning(population, stream, at, i - 1);
      var before := Drawn(population, stream, at, i - 1);
      var j := DrawAt(stream, before.cursor) % |before.pool|;
      PickStep(before.picks, before.pool, j);
    }
  }

  /** One step of the pool algorithm keeps the picks and the pool inside the old pool and picks, and apart. */
  lemma PickStep(picks: seq<int>, pool: seq<int>, j: nat)
    requires j < |pool|
    ensures Elems(picks + [pool[j]]) == Elems(picks) + {pool[j]}
    ensures Elems(Vacate(pool, j)) <= Elems(pool)
    ensures Distinct(picks) && Distinct(pool) && Elems(picks) !! Elems(pool) ==>
      && Distinct(picks + [pool[j]]) && Distinct(Vacate(pool, j))
      && Elems(picks + [pool[j]]) !! Elems(Vacate(pool, j))
  {
    ElemsConcat(picks, [pool[j]]);
    var v := Vacate(pool, j);
    forall x | x in Elems(v) ensures x in Elems(pool) {
      var i :| 0 <= i < |v| && v[i] == x;
      assert i == j ==> x == pool[|pool| - 1];
      assert i != j ==> x == pool[i];
    }
    if Distinct(picks) && Distinct(pool) && Elems(picks) !! Elems(pool) {
      VacateElems(pool, j);
      var r := picks + [pool[j]];
      assert pool[j] in Elems(pool);
      forall a, b | 0 <= a < b < |r| ensures r[a] != r[b] {
        if b == |picks| {
          assert r[a] in Elems(picks);
        }
      }
    }
  }

  /** A sample is drawn from the pool, and from a pool without repeats it has none. */
  lemma SampleFromMeaning(pool: seq<int>, k: nat, stream: seq<nat>, at: nat)
    requires k <= |pool|
    ensures Elems(SampleFrom(pool, k, stream, at)) <= Elems(pool)
    ensures Distinct(pool) ==> Distinct(SampleFrom(pool, k, stream, at))
  {
    DrawnMeaning(pool, stream, at, k);
  }

  /** The random source of one game session. */
  class Rng {
    const stream: seq<nat>
    var cursor: nat

    /** `random.Random(seed)`, where `stream` is the sequence of draws the seed determines. */
    constructor (stream: seq<nat>)
      ensures this.stream == stream && cursor == 0
    {
      this.stream := stream;
      cursor := 0;
    }

    /** The next draw, not yet consumed. */
    function Peek(): nat
      reads this
    {
      DrawAt(stream, cursor)
    }

    /** `_randbelow(n)`: consumes one draw and reduces it below n. */
    method RandBelow(n: nat) returns (j: nat)
      requires 0 < n
      modifies this
      ensures j == old(Peek()) % n && j < n
      ensures cursor == old(cursor) + 1
    {
      j := Peek() % n;
      cursor := cursor + 1;
    }

    /** `choice(xs)`; the source raises IndexError on an empty list, so callers must not pass one. */
    method Choice(xs: seq<int>) returns (x: int)
      requires |xs| > 0
      modifies this
      ensures x == Pick(xs, old(Peek())) && x in xs
      ensures cursor == old(cursor) + 1
    {
      var j := RandBelow(|xs|);
      x := xs[j];
    }

    /**
     * `sample(population, k)`: None where the source raises ValueError (k negative
     * or larger than the population); otherwise k elements drawn without
     * replacement by the pool algorithm, one draw each.
     */
    method Sample(population: seq<int>, k: int) returns (r: Option<seq<int>>)
      modifies this
      ensures !(0 <= k <= |population|) ==> r == None && cursor == old(cursor)
      ensures 0 <= k <= |population| ==>
        r == Some(SampleFrom(population, k, stream, old(cursor))) && cursor == old(cursor) + k
    {
      if !(0 <= k <= |population|) {
        return None;
      }
      var picks := Draws(population, k);
      r := Some(picks);
    }

    /** The draws of `sample` once its arguments are known to be valid. */
    method Draws(population: seq<int>, k: nat) returns (picks: seq<int>)
      requires k <= |population|
      modifies this
      ensures picks == SampleFrom(population, k, stream, old(cursor)) && cursor == old(cursor) + k
    {
      var pool := population;
      picks := [];
      for i := 0 to k
        invariant Sampling(picks, pool, cursor) == Drawn(population, stream, old(cursor), i)
      {
        var j := RandBelow(|pool|);
        picks := picks + [pool[j]];
        pool := Vacate(pool, j);
      }
    }
  }
}
