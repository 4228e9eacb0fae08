/** Point aggregation of the player drill-down: the total of a player's
    activity breakdown and the sign test that selects negative styling. */
module Aggregation {
  import opened Wrappers

  /** One row of `GET /player/{id}`: an activity name and its points, which
      the server may leave out. */
  datatype Row = Row(activity: string, points: Option<int>)

  /** How a total is styled: `negative-points` or the plain style. */
  datatype Style = Plain | Negative

  /** A row's share of the total: a missing `points` counts as 0. */
  function Contribution(row: Row): int {
    row.points.GetOr(0)
  }

  /** The total a breakdown stands for: the sum of its rows' contributions,
      taken left to right as the accumulating loop does. */
  function Total(rows: seq<Row>): int {
    if rows == [] then 0 else Total(rows[..|rows| - 1]) + Contribution(rows[|rows| - 1])
  }

  /** The sign test applied to every displayed total (team cards, team list,
      player total). */
  function StyleOf(total: int): Style {
    if total < 0 then Negative else Plain
  }

  /** The accumulating loop of the breakdown handler: start at 0 and add each
      row's points, or 0 where the row has none. */
  method SumPoints(rows: seq<Row>) returns (total: int)
    ensures total == Total(rows)
  {
    total := 0;
    for i := 0 to |rows|
      invariant total == Total(rows[..i])
    {
      assert rows[..i + 1][..i] == rows[..i];
      total := total + Contribution(rows[i]);
    }
    assert rows[..|rows|] == rows;
  }

  /** The total of a concatenation is the sum of the totals. */
  lemma {:induction false} TotalAppend(a: seq<Row>, b: seq<Row>)
    ensures Total(a + b) == Total(a) + Total(b)
    decreases |b|
  {
    if b == [] {
      assert a + b == a;
    } else {
      var front := b[..|b| - 1];
      assert (a + b)[..|a + b| - 1] == a + front;
      assert (a + b)[|a + b| - 1] == b[|b| - 1];
      TotalAppend(a, front);
    }
  }

  /** A row whose points are missing leaves the total unchanged, wherever it
      stands in the breakdown. */
  lemma MissingPointsCountZero(before: seq<Row>, activity: string, after: seq<Row>)
    ensures Total(before + [Row(activity, None)] + after) == Total(before + after)
  {
    var missing := Row(activity, None);
    TotalAppend(before + [missing], after);
    TotalAppend(before, [missing]);
    assert [missing][..0] == [];
    TotalAppend(before, after);
  }

  /** The total does not depend on the order the server lists the rows in:
      any rearrangement of a breakdown has the same total. */
  lemma {:induction false} TotalPermutation(a: seq<Row>, b: seq<Row>)
    requires multiset(a) == multiset(b)
    ensures Total(a) == Total(b)
    decreases |a|
  {
    if a == [] {
      assert |multiset(b)| == 0;
      assert b == [];
    } else {
      var x := a[0];
      assert x in multiset(a);
      assert x in multiset(b);
      var j :| 0 <= j < |b| && b[j] == x;
      var rest := b[..j] + b[j + 1..];
      assert b == b[..j] + [x] + b[j + 1..];
      assert a == [x] + a[1..];
      assert multiset(a[1..]) == multiset(a) - multiset{x};
      assert multiset(b) == multiset(b[..j]) + multiset{x} + multiset(b[j + 1..]);
      assert multiset(a[1..]) == multiset(rest);
      TotalPermutation(a[1..], rest);
      TotalAppend([x], a[1..]);
      TotalAppend(b[..j] + [x], b[j + 1..]);
      TotalAppend(b[..j], [x]);
      TotalAppend(b[..j], b[j + 1..]);
      assert [x][..0] == [];
    }
  }

  /** A breakdown with no negative points is never shown in negative style. */
  lemma {:induction false} NoLossesPlainStyle(rows: seq<Row>)
    requires forall i :: 0 <= i < |rows| ==> Contribution(rows[i]) >= 0
    ensures Total(rows) >= 0 && StyleOf(Total(rows)) == Plain
    decreases |rows|
  {
    if rows != [] {
      NoLossesPlainStyle(rows[..|rows| - 1]);
    }
  }

  /** A breakdown with no positive points and at least one loss is shown in
      negative style. */
  lemma {:induction false} OnlyLossesNegativeStyle(rows: seq<Row>, k: nat)
    requires forall i :: 0 <= i < |rows| ==> Contribution(rows[i]) <= 0
    requires k < |rows| && Contribution(rows[k]) < 0
    ensures Total(rows) < 0 && StyleOf(Total(rows)) == Negative
    decreases |rows|
  {
    var last := |rows| - 1;
    if k == last {
      NoGainsNonPositive(rows[..last]);
    } else {
      OnlyLossesNegativeStyle(rows[..last], k);
    }
  }

  /** Helper: a breakdown with no positive points has a total of at most 0. */
  lemma {:induction false} NoGainsNonPositive(rows: seq<Row>)
    requires forall i :: 0 <= i < |rows| ==> Contribution(rows[i]) <= 0
    ensures Total(rows) <= 0
    decreases |rows|
  {
    if rows != [] {
      NoGainsNonPositive(rows[..|rows| - 1]);
    }
  }

  /** The player drill-down: the breakdown it shows and the total it keeps
      beside it. */
  class PlayerDetails {
    var breakdown: seq<Row>
    var totalPoints: int

    /** The displayed total always agrees with the displayed breakdown. */
    ghost predicate Valid()
      reads this
    {
      totalPoints == Total(breakdown)
    }

    /** A freshly shown drill-down: empty breakdown, total 0. */
    constructor ()
      ensures Valid()
      ensures breakdown == [] && totalPoints == 0
    {
      breakdown := [];
      totalPoints := 0;
    }

    /** The breakdown response arrives; `None` stands for an empty body, which
        is shown as an empty breakdown. */
    method OnBreakdown(data: Option<seq<Row>>)
      modifies this
      ensures Valid()
      ensures breakdown == data.GetOr([])
      ensures totalPoints == Total(data.GetOr([]))
    {
      breakdown := data.GetOr([]);
      totalPoints := SumPoints(breakdown);
    }

    /** The style of the total line. */
    function TotalStyle(): (s: Style)
      reads this
      requires Valid()
      ensures s == Negative <==> Total(breakdown) < 0
    {
      StyleOf(totalPoints)
    }
  }
}
