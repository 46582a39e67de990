/**
  The waste-acceptance table after expansion: rows (Year, WasteAcceptanceRate)
  in dict order, its `Year <= bound` subset, the per-year lookup that answers
  0 for a year without waste, and the capacity sum.
*/
module WasteRates {
  import opened Wrappers
  import opened YearRanges

  type Rows = seq<(int, real)>

  /** `df[df['Year'] <= bound]`: the rows up to `bound`, in their order. */
  function Subset(rows: Rows, bound: int): (r: Rows)
    ensures |r| <= |rows|
  {
    if rows == [] then []
    else (if rows[0].0 <= bound then [rows[0]] else []) + Subset(rows[1..], bound)
  }

  lemma {:induction false} SubsetRows(rows: Rows, bound: int, row: (int, real))
    ensures row in Subset(rows, bound) <==> row in rows && row.0 <= bound
  {
    if rows != [] {
      SubsetRows(rows[1..], bound, row);
      assert rows == [rows[0]] + rows[1..];
    }
  }

  /** `return_waste_acceptance(year)`: the first rate listed for `year`; an IndexError caught as 0. */
  function Acceptance(rows: Rows, year: int): real {
    match FirstForYear(rows, year)
    case Some(rate) => rate
    case None => 0.0
  }

  /** A year the subset leaves out (every year after `bound`) has no waste; the others keep their rate. */
  lemma {:induction false} SubsetAcceptance(rows: Rows, bound: int, year: int)
    ensures Acceptance(Subset(rows, bound), year) == if year <= bound then Acceptance(rows, year) else 0.0
  {
    if rows != [] {
      SubsetAcceptance(rows[1..], bound, year);
      var rest := Subset(rows[1..], bound);
      if rows[0].0 <= bound {
        assert Subset(rows, bound) == [rows[0]] + rest;
        assert ([rows[0]] + rest)[1..] == rest;
      } else {
        assert Subset(rows, bound) == rest;
      }
    }
  }

  /** `sum(df['WasteAcceptanceRate'])` */
  function TotalRate(rows: Rows): real {
    if rows == [] then 0.0 else rows[0].1 + TotalRate(rows[1..])
  }

  /** The rows listed for exactly `year`. */
  function RowsOfYear(rows: Rows, year: int): Rows {
    if rows == [] then []
    else (if rows[0].0 == year then [rows[0]] else []) + RowsOfYear(rows[1..], year)
  }

  /**
    Widening the subset from `Year <= c - 1` to `Year <= c` adds exactly the
    rates listed for year `c` to the capacity sum.
  */
  lemma {:induction false} InclusiveSubsetTotal(rows: Rows, c: int)
    ensures TotalRate(Subset(rows, c)) == TotalRate(Subset(rows, c - 1)) + TotalRate(RowsOfYear(rows, c))
  {
    if rows != [] {
      InclusiveSubsetTotal(rows[1..], c);
      var head := if rows[0].0 <= c then [rows[0]] else [];
      assert Subset(rows, c) == head + Subset(rows[1..], c);
      TotalRateAppend(head, Subset(rows[1..], c));
      var head1 := if rows[0].0 <= c - 1 then [rows[0]] else [];
      assert Subset(rows, c - 1) == head1 + Subset(rows[1..], c - 1);
      TotalRateAppend(head1, Subset(rows[1..], c - 1));
      var head2 := if rows[0].0 == c then [rows[0]] else [];
      assert RowsOfYear(rows, c) == head2 + RowsOfYear(rows[1..], c);
      TotalRateAppend(head2, RowsOfYear(rows[1..], c));
    }
  }

  lemma {:induction false} TotalRateAppend(a: Rows, b: Rows)
    ensures TotalRate(a + b) == TotalRate(a) + TotalRate(b)
  {
    if a != [] {
      TotalRateAppend(a[1..], b);
      assert (a + b)[0] == a[0];
      assert (a + b)[1..] == a[1..] + b;
    } else {
      assert a + b == b;
    }
  }
}
