/**
 * The batch summary: how many games were run and the share won by each side.
 */
module Analysis {
  import opened Util

  /** One result row; `winner` is the row's winner entry, if it has one ("traitors", "faithful", "draw"). */
  datatype Row = Row(winner: Option<string>)

  /** The summary of a batch: the number of games and the two win rates. */
  datatype Summary = Summary(total: nat, traitorWinRate: real, faithfulWinRate: real)

  /** How many rows name `side` as their winner. */
  function Wins(rows: seq<Row>, side: string): (n: nat)
    ensures n <= |rows|
  {
    if rows == [] then 0
    else Wins(rows[..|rows| - 1], side) + (if rows[|rows| - 1].winner == Some(side) then 1 else 0)
  }

  /** A row adds to the count of the side it names and to no other. */
  lemma WinsAppend(rows: seq<Row>, row: Row, side: string)
    ensures Wins(rows + [row], side) == Wins(rows, side) + (if row.winner == Some(side) then 1 else 0)
  {
    assert (rows + [row])[..|rows|] == rows;
  }

  /** No row names two winners: the two sides' wins together are at most the rows. */
  lemma {:induction false} WinsApart(rows: seq<Row>, one: string, other: string)
    requires one != other
    ensures Wins(rows, one) + Wins(rows, other) <= |rows|
  {
    if rows != [] {
      WinsApart(rows[..|rows| - 1], one, other);
    }
  }

  /** `count / total` as a real number. */
  function Ratio(count: nat, total: nat): real
    requires 0 < total
  {
    count as real / total as real
  }

  /** A ratio scales back to its count, and a count within the total gives a ratio in [0, 1]. */
  lemma RatioMeaning(count: nat, total: nat)
    requires 0 < total
    ensures Ratio(count, total) * total as real == count as real
    ensures 0.0 <= Ratio(count, total)
    ensures count <= total ==> Ratio(count, total) <= 1.0
  {
  }

  /** Ratios over the same total add up as their counts do. */
  lemma RatioSum(one: nat, other: nat, total: nat)
    requires 0 < total
    ensures Ratio(one, total) + Ratio(other, total) == Ratio(one + other, total)
  {
  }

  /**
   * `summarize_results`: no rows give zero everywhere; otherwise each rate
   * is the share of the rows that side won.
   */
  function SummarizeResults(rows: seq<Row>): (r: Summary)
    ensures r.total == |rows|
    ensures rows == [] ==> r.traitorWinRate == 0.0 && r.faithfulWinRate == 0.0
    ensures rows != [] ==> r.traitorWinRate == Ratio(Wins(rows, "traitors"), |rows|)
    ensures rows != [] ==> r.faithfulWinRate == Ratio(Wins(rows, "faithful"), |rows|)
  {
    var total := |rows|;
    if rows == [] then Summary(0, 0.0, 0.0)
    else
      var traitorWins := Wins(rows, "traitors");
      var faithfulWins := Wins(rows, "faithful");
      Summary(total, Ratio(traitorWins, total), Ratio(faithfulWins, total))
  }

  /** Both rates lie in [0, 1] and add up to at most 1. */
  lemma RatesBounded(rows: seq<Row>)
    ensures var r := SummarizeResults(rows);
      && 0.0 <= r.traitorWinRate <= 1.0 && 0.0 <= r.faithfulWinRate <= 1.0
      && r.traitorWinRate + r.faithfulWinRate <= 1.0
  {
    if rows != [] {
      var t := Wins(rows, "traitors");
      var f := Wins(rows, "faithful");
      WinsApart(rows, "traitors", "faithful");
      RatioMeaning(t + f, |rows|);
      RatioMeaning(t, |rows|);
      RatioMeaning(f, |rows|);
      RatioSum(t, f, |rows|);
    }
  }

  /** A drawn game, or a row with no winner, adds to the total and to neither side's wins. */
  lemma DrawsCountForNeither(rows: seq<Row>, row: Row)
    requires row.winner != Some("traitors") && row.winner != Some("faithful")
    ensures SummarizeResults(rows + [row]).total == SummarizeResults(rows).total + 1
    ensures Wins(rows + [row], "traitors") == Wins(rows, "traitors")
    ensures Wins(rows + [row], "faithful") == Wins(rows, "faithful")
  {
    WinsAppend(rows, row, "traitors");
    WinsAppend(rows, row, "faithful");
  }
}
