/**
  Expansion of sparse year-keyed mappings such as `waste_acceptance_rate`:
  a key "Y1-Y2" puts its value on every year from Y1 to Y2 inclusive, any
  other key is copied as-is, and later keys overwrite earlier ones. The
  expanded mapping is a Python dict keyed by `str(year)`; it is modelled as an
  insertion-ordered sequence of (key, value) pairs, where an update of a key
  already present keeps that key's position.
*/
module YearRanges {
  import opened Wrappers
  import opened Text

  /** A key of a YAML mapping: a bare integer, or a string. */
  datatype Key = IntKey(n: int) | StrKey(s: string)

  /**
    How a loop tests a key for a range: `"-" in str(key)` (the waste loops of
    the engine and the WARM script) or `"-" in key` (every other loop).
  */
  datatype DashTest = DashInStrOfKey | DashInKey

  /** An insertion-ordered Python dict from strings to values. */
  type Dict<V> = seq<(string, V)>

  function Get<V>(d: Dict<V>, k: string): Option<V> {
    if d == [] then None
    else if d[0].0 == k then Some(d[0].1)
    else Get(d[1..], k)
  }

  predicate DistinctKeys<V>(d: Dict<V>) {
    forall i, j :: 0 <= i < j < |d| ==> d[i].0 != d[j].0
  }

  /** `d[k] = v`: replaces the value in place when `k` is present, appends otherwise. */
  function Put<V>(d: Dict<V>, k: string, v: V): (r: Dict<V>)
    ensures |r| > 0
    ensures d != [] ==> r[0].0 == d[0].0
    ensures d == [] ==> r[0].0 == k
  {
    if d == [] then [(k, v)]
    else if d[0].0 == k then [(k, v)] + d[1..]
    else [d[0]] + Put(d[1..], k, v)
  }

  lemma {:induction false} GetPut<V>(d: Dict<V>, k: string, v: V, q: string)
    ensures Get(Put(d, k, v), q) == if q == k then Some(v) else Get(d, q)
  {
    if d != [] && d[0].0 != k {
      GetPut(d[1..], k, v, q);
    }
  }

  lemma {:induction false} PutKeepsDistinct<V>(d: Dict<V>, k: string, v: V)
    requires DistinctKeys(d)
    ensures DistinctKeys(Put(d, k, v))
    ensures forall i :: 0 <= i < |Put(d, k, v)| ==> Put(d, k, v)[i].0 == k || exists j :: 0 <= j < |d| && d[j].0 == Put(d, k, v)[i].0
  {
    if d != [] && d[0].0 != k {
      PutKeepsDistinct(d[1..], k, v);
      var r := Put(d, k, v);
      assert r == [d[0]] + Put(d[1..], k, v);
      forall i | 0 <= i < |r|
        ensures r[i].0 == k || exists j :: 0 <= j < |d| && d[j].0 == r[i].0
      {
        if i > 0 {
          var t := Put(d[1..], k, v);
          assert r[i] == t[i - 1];
          if t[i - 1].0 != k {
            var j :| 0 <= j < |d[1..]| && d[1..][j].0 == t[i - 1].0;
            assert d[j + 1].0 == r[i].0;
          }
        }
      }
      forall i, j | 0 <= i < j < |r| ensures r[i].0 != r[j].0 {
        if i == 0 {
          var t := Put(d[1..], k, v);
          assert r[j] == t[j - 1];
          if t[j - 1].0 != k {
            var m :| 0 <= m < |d[1..]| && d[1..][m].0 == t[j - 1].0;
            assert d[m + 1].0 == r[j].0;
          }
        }
      }
    }
  }

  /** Writes the same value under each key of `ks`, in order. */
  function PutAll<V>(d: Dict<V>, ks: seq<string>, v: V): (r: Dict<V>)
    ensures d != [] ==> r != [] && r[0].0 == d[0].0
    ensures d == [] && ks != [] ==> r != [] && r[0].0 == ks[0]
  {
    if ks == [] then d
    else
      var r := Put(PutAll(d, ks[..|ks| - 1], v), ks[|ks| - 1], v);
      assert ks == [] || ks[..|ks| - 1] == [] || ks[..|ks| - 1][0] == ks[0];
      r
  }

  lemma {:induction false} GetPutAll<V>(d: Dict<V>, ks: seq<string>, v: V, q: string)
    ensures Get(PutAll(d, ks, v), q) == if q in ks then Some(v) else Get(d, q)
  {
    if ks != [] {
      var init := ks[..|ks| - 1];
      GetPutAll(d, init, v, q);
      GetPut(PutAll(d, init, v), ks[|ks| - 1], v, q);
      assert ks == init + [ks[|ks| - 1]];
      assert q in ks <==> q in init || q == ks[|ks| - 1];
    }
  }

  lemma {:induction false} PutAllKeepsDistinct<V>(d: Dict<V>, ks: seq<string>, v: V)
    requires DistinctKeys(d)
    ensures DistinctKeys(PutAll(d, ks, v))
  {
    if ks != [] {
      PutAllKeepsDistinct(d, ks[..|ks| - 1], v);
      PutKeepsDistinct(PutAll(d, ks[..|ks| - 1], v), ks[|ks| - 1], v);
    }
  }

  /** `[str(y) for y in range(y1, y2 + 1)]` */
  function YearStrings(y1: nat, y2: int): (ws: seq<string>)
    ensures |ws| == if y2 < y1 then 0 else y2 - y1 + 1
    decreases y2 - y1
  {
    if y2 < y1 then [] else YearStrings(y1, y2 - 1) + [NatToString(y2)]
  }

  lemma {:induction false} YearStringsCover(y1: nat, y2: int, y: nat)
    ensures NatToString(y) in YearStrings(y1, y2) <==> y1 <= y <= y2
    decreases y2 - y1
  {
    if y2 >= y1 {
      YearStringsCover(y1, y2 - 1, y);
      if y == y2 {
        assert YearStrings(y1, y2)[|YearStrings(y1, y2)| - 1] == NatToString(y);
      } else if NatToString(y) == NatToString(y2) {
        NatToStringInjective(y, y2);
      }
    }
  }

  lemma {:induction false} YearStringsCanonical(y1: nat, y2: int)
    ensures forall s :: s in YearStrings(y1, y2) ==> Canonical(s)
    decreases y2 - y1
  {
    if y2 >= y1 {
      YearStringsCanonical(y1, y2 - 1);
      NatToStringCanonical(y2);
    }
  }

  /**
    The dict keys one (key, value) item writes, or the exception the loop body
    raises on it: `"-" in key` on an int is a TypeError; after `"-" in str(key)`
    a negative int has no `split` (AttributeError); a range that is not two
    digit strings around one dash fails in `int` or in the unpacking (ValueError).
  */
  function KeyWrites(key: Key, test: DashTest): Result<seq<string>> {
    match key
    case IntKey(n) =>
      if test == DashInKey then Err(TypeError)
      else if n < 0 then Err(AttributeError)
      else Ok([NatToString(n)])
    case StrKey(s) =>
      if '-' in s then
        match ParseRange(s)
        case None => Err(ValueError)
        case Some((y1, y2)) => Ok(YearStrings(y1, y2))
      else Ok([s])
  }

  /** The dict after one loop iteration writes `value` under the keys of `key`. */
  function WriteItem<V>(d: Dict<V>, key: Key, value: V, test: DashTest): Result<Dict<V>> {
    var ws :- KeyWrites(key, test);
    Ok(PutAll(d, ws, value))
  }

  /** The dict the expansion loop leaves after the items in order, or the first exception. */
  function Expand<V>(items: seq<(Key, V)>, test: DashTest): Result<Dict<V>> {
    if items == [] then Ok([])
    else
      var d :- Expand(items[..|items| - 1], test);
      WriteItem(d, items[|items| - 1].0, items[|items| - 1].1, test)
  }

  /** The value of the last item whose key writes `k`: the later item wins. */
  function LastWrite<V>(items: seq<(Key, V)>, test: DashTest, k: string): Option<V> {
    if items == [] then None
    else
      var w := KeyWrites(items[|items| - 1].0, test);
      if w.Ok? && k in w.value then Some(items[|items| - 1].1)
      else LastWrite(items[..|items| - 1], test, k)
  }

  /**
    The expansion loop: for each item, a range key writes every year of the
    range and any other key is written as-is.
  */
  method ExpandRanges<V>(items: seq<(Key, V)>, test: DashTest) returns (r: Result<Dict<V>>)
    ensures r == Expand(items, test)
  {
    var split: Dict<V> := [];
    var i := 0;
    while i < |items|
      invariant 0 <= i <= |items|
      invariant Expand(items[..i], test) == Ok(split)
    {
      assert items[..i + 1][..i] == items[..i];
      var next := ExpandItem(split, items[i].0, items[i].1, test);
      if next.Err? {
        ExpandStopsAtError(items, test, i + 1);
        return next;
      }
      split := next.value;
      i := i + 1;
    }
    assert items[..i] == items;
    return Ok(split);
  }

  /** The body of the expansion loop for one (key, value) item. */
  method ExpandItem<V>(split: Dict<V>, key: Key, value: V, test: DashTest) returns (r: Result<Dict<V>>)
    ensures r == WriteItem(split, key, value, test)
  {
    var dash := match key
      case IntKey(n) => test == DashInStrOfKey && n < 0
      case StrKey(s) => '-' in s;
    if key.IntKey? && test == DashInKey {
      return Err(TypeError);
    }
    if dash {
      if key.IntKey? {
        return Err(AttributeError);
      }
      var bounds := ParseRange(key.s);
      if bounds.None? {
        return Err(ValueError);
      }
      var (y1, y2) := bounds.value;
      var year: int := y1;
      var d := split;
      while year <= y2
        invariant y1 <= year <= if y2 < y1 then y1 else y2 + 1
        invariant d == PutAll(split, YearStrings(y1, year - 1), value)
      {
        d := Put(d, NatToString(year), value);
        year := year + 1;
      }
      return Ok(d);
    } else {
      var k := match key case IntKey(n) => NatToString(n) case StrKey(s) => s;
      assert KeyWrites(key, test) == Ok([k]);
      assert [k][..0] == [];
      assert PutAll(split, [k], value) == Put(split, k, value);
      return Ok(Put(split, k, value));
    }
  }

  /** Once a prefix of the items fails, the whole expansion fails with the same exception. */
  lemma {:induction false} ExpandStopsAtError<V>(items: seq<(Key, V)>, test: DashTest, n: nat)
    requires n <= |items| && Expand(items[..n], test).Err?
    ensures Expand(items, test) == Expand(items[..n], test)
    decreases |items| - n
  {
    if n < |items| {
      var m := n + 1;
      assert items[..m][..n] == items[..n];
      ExpandStopsAtError(items, test, m);
    } else {
      assert items[..n] == items;
    }
  }

  /** Later keys win: the expanded dict holds, for every key, the value of the last item that wrote it. */
  lemma {:induction false} ExpandLastWriteWins<V>(items: seq<(Key, V)>, test: DashTest, k: string)
    requires Expand(items, test).Ok?
    ensures Get(Expand(items, test).value, k) == LastWrite(items, test, k)
  {
    if items != [] {
      var init := items[..|items| - 1];
      ExpandLastWriteWins(init, test, k);
      var ws := KeyWrites(items[|items| - 1].0, test).value;
      GetPutAll(Expand(init, test).value, ws, items[|items| - 1].1, k);
    }
  }

  /** The expanded dict never holds a key twice. */
  lemma {:induction false} ExpandDistinct<V>(items: seq<(Key, V)>, test: DashTest)
    requires Expand(items, test).Ok?
    ensures DistinctKeys(Expand(items, test).value)
  {
    if items != [] {
      ExpandDistinct(items[..|items| - 1], test);
      PutAllKeepsDistinct(Expand(items[..|items| - 1], test).value,
                          KeyWrites(items[|items| - 1].0, test).value, items[|items| - 1].1);
    }
  }

  /** A range key writes exactly the years of its inclusive interval. */
  lemma RangeKeyWritesEveryYear(y1: nat, y2: nat, test: DashTest, y: nat)
    ensures KeyWrites(StrKey(NatToString(y1) + "-" + NatToString(y2)), test).Ok?
    ensures NatToString(y) in KeyWrites(StrKey(NatToString(y1) + "-" + NatToString(y2)), test).value
            <==> y1 <= y <= y2
  {
    RangeRoundTrip(y1, y2);
    assert '-' in NatToString(y1) + "-" + NatToString(y2) by {
      assert (NatToString(y1) + "-" + NatToString(y2))[|NatToString(y1)|] == '-';
    }
    YearStringsCover(y1, y2, y);
  }

  /**
    The first key of the expanded dict comes from the first item that writes
    anything, wherever later items' years fall: it is not the smallest year.
  */
  lemma {:induction false} ExpandFirstKey<V>(items: seq<(Key, V)>, test: DashTest)
    requires Expand(items, test).Ok?
    requires items != [] && KeyWrites(items[0].0, test).Ok? && KeyWrites(items[0].0, test).value != []
    ensures Expand(items, test).value != []
    ensures Expand(items, test).value[0].0 == KeyWrites(items[0].0, test).value[0]
  {
    if |items| > 1 {
      var init := items[..|items| - 1];
      assert init[0] == items[0];
      ExpandFirstKey(init, test);
    } else {
      assert items[..0] == [];
    }
  }

  lemma YearTexts()
    ensures NatToString(2000) == "2000" && NatToString(2001) == "2001" && NatToString(2002) == "2002"
  {
    assert NatToString(2) == "2" && NatToString(20) == "20" && NatToString(200) == "200";
  }

  lemma ExampleYearStrings()
    ensures YearStrings(2000, 2002) == [NatToString(2000), NatToString(2001), NatToString(2002)]
  {
    assert YearStrings(2000, 1999) == [];
    assert YearStrings(2000, 2000) == [NatToString(2000)];
    assert YearStrings(2000, 2001) == [NatToString(2000), NatToString(2001)];
  }

  lemma ExampleParseRange()
    ensures ParseRange("2000-2002") == Some((2000, 2002))
  {
    YearTexts();
    RangeRoundTrip(2000, 2002);
    assert NatToString(2000) + "-" + NatToString(2002) == "2000-2002";
  }

  lemma ExampleKeyWrites(test: DashTest)
    ensures KeyWrites(StrKey("2000-2002"), test) == Ok(["2000", "2001", "2002"])
  {
    ExampleParseRange();
    ExampleYearStrings();
    YearTexts();
    assert '-' in "2000-2002" by { assert "2000-2002"[4] == '-'; }
  }

  lemma ExamplePutAll()
    ensures PutAll([], ["2000", "2001", "2002"], 10) == [("2000", 10), ("2001", 10), ("2002", 10)]
  {
    var ws := ["2000", "2001", "2002"];
    assert ws[..2] == ["2000", "2001"];
    assert ["2000", "2001"][..1] == ["2000"];
    assert ["2000"][..0] == [];
    assert PutAll([], ["2000"], 10) == [("2000", 10)];
    assert "2000" != "2001" by { assert "2000"[3] != "2001"[3]; }
    assert "2000" != "2002" by { assert "2000"[3] != "2002"[3]; }
    assert "2001" != "2002" by { assert "2001"[3] != "2002"[3]; }
    assert Put([("2000", 10)], "2001", 10) == [("2000", 10), ("2001", 10)];
    assert PutAll([], ["2000", "2001"], 10) == [("2000", 10), ("2001", 10)];
    assert Put([("2000", 10), ("2001", 10)], "2002", 10) == [("2000", 10), ("2001", 10), ("2002", 10)];
  }

  /** `{"2000-2002": 10}` expands to years 2000, 2001 and 2002, each with 10. */
  lemma ExpandExample(test: DashTest)
    ensures Expand([(StrKey("2000-2002"), 10)], test) == Ok([("2000", 10), ("2001", 10), ("2002", 10)])
  {
    var items := [(StrKey("2000-2002"), 10)];
    ExampleKeyWrites(test);
    ExamplePutAll();
    assert items[..0] == [];
  }

  /** `astype(int)` on the expanded keys: every key must be a digit string. */
  function YearRows<V>(d: Dict<V>): (r: Result<seq<(int, V)>>)
    ensures r.Ok? ==> |r.value| == |d|
  {
    if d == [] then Ok([])
    else
      var rest :- YearRows(d[1..]);
      match ParseNat(d[0].0)
      case None => Err(ValueError)
      case Some(y) => Ok([(y as int, d[0].1)] + rest)
  }

  /** Every key the items write is canonical decimal text. */
  predicate CanonicalKeys<V>(items: seq<(Key, V)>, test: DashTest) {
    forall i, k :: 0 <= i < |items| && KeyWrites(items[i].0, test).Ok? && k in KeyWrites(items[i].0, test).value
      ==> Canonical(k)
  }

  /** First value listed for `year` (pandas' `.values[0]` on the matching rows). */
  function FirstForYear<V>(rows: seq<(int, V)>, year: int): Option<V> {
    if rows == [] then None
    else if rows[0].0 == year then Some(rows[0].1)
    else FirstForYear(rows[1..], year)
  }

  lemma {:induction false} YearRowsLookup<V>(d: Dict<V>, y: nat)
    requires YearRows(d).Ok?
    requires forall i :: 0 <= i < |d| ==> Canonical(d[i].0)
    ensures FirstForYear(YearRows(d).value, y) == Get(d, NatToString(y))
  {
    if d != [] {
      YearRowsLookup(d[1..], y);
      var p := ParseNat(d[0].0).value;
      if p == y {
        assert d[0].0 == NatToString(y);
      } else if d[0].0 == NatToString(y) {
        ParseNatOfString(y);
      }
    }
  }

  lemma {:induction false} ExpandKeysCanonical<V>(items: seq<(Key, V)>, test: DashTest)
    requires Expand(items, test).Ok?
    requires CanonicalKeys(items, test)
    ensures forall i :: 0 <= i < |Expand(items, test).value| ==> Canonical(Expand(items, test).value[i].0)
  {
    if items != [] {
      var init := items[..|items| - 1];
      assert CanonicalKeys(init, test) by {
        forall i, k | 0 <= i < |init| && KeyWrites(init[i].0, test).Ok? && k in KeyWrites(init[i].0, test).value
          ensures Canonical(k)
        {
          assert init[i] == items[i];
        }
      }
      ExpandKeysCanonical(init, test);
      var d := Expand(init, test).value;
      var ws := KeyWrites(items[|items| - 1].0, test).value;
      var v := items[|items| - 1].1;
      var r := PutAll(d, ws, v);
      forall i | 0 <= i < |r| ensures Canonical(r[i].0) {
        var k := r[i].0;
        GetPutAll(d, ws, v, k);
        GetMember(r, i);
        if k !in ws {
          GetIndex(d, k);
        }
      }
    }
  }

  lemma {:induction false} GetMember<V>(d: Dict<V>, i: nat)
    requires i < |d|
    ensures Get(d, d[i].0).Some?
  {
    if i > 0 && d[0].0 != d[i].0 {
      GetMember(d[1..], i - 1);
    }
  }

  lemma {:induction false} GetIndex<V>(d: Dict<V>, k: string)
    requires Get(d, k).Some?
    ensures exists j :: 0 <= j < |d| && d[j].0 == k
  {
    if d[0].0 != k {
      GetIndex(d[1..], k);
      var j :| 0 <= j < |d[1..]| && d[1..][j].0 == k;
      assert d[j + 1].0 == k;
    }
  }

  /**
    At the level of integer years: with canonical keys, the rate the table
    lists first for `year` is the value of the last item that covers `year`.
  */
  lemma ExpandedYearLookup<V>(items: seq<(Key, V)>, test: DashTest, year: nat)
    requires Expand(items, test).Ok? && YearRows(Expand(items, test).value).Ok?
    requires CanonicalKeys(items, test)
    ensures FirstForYear(YearRows(Expand(items, test).value).value, year) == LastWrite(items, test, NatToString(year))
  {
    ExpandKeysCanonical(items, test);
    YearRowsLookup(Expand(items, test).value, year);
    ExpandLastWriteWins(items, test, NatToString(year));
  }

  /** The items of a string-keyed dictionary, such as `material_ratios`, as the loops see them. */
  function MaterialItems<V>(ratios: Dict<V>): (r: seq<(Key, V)>)
    ensures |r| == |ratios|
    ensures forall i :: 0 <= i < |r| ==> r[i] == (StrKey(ratios[i].0), ratios[i].1)
  {
    if ratios == [] then [] else [(StrKey(ratios[0].0), ratios[0].1)] + MaterialItems(ratios[1..])
  }

  /** `list(d.keys())` */
  function Keys<V>(d: Dict<V>): (r: seq<string>)
    ensures |r| == |d|
    ensures forall i :: 0 <= i < |r| ==> r[i] == d[i].0
  {
    if d == [] then [] else [d[0].0] + Keys(d[1..])
  }

  /**
    `float(df.loc[df[key column] == key, value column].values[0])` on a table
    built from a dictionary: the value of the first row for `key`, an
    IndexError when no row has it.
  */
  function LocFirst<V>(table: Dict<V>, key: string): (r: Result<V>)
    ensures r.Ok? <==> exists i :: 0 <= i < |table| && table[i].0 == key
    ensures r.Ok? ==> Get(table, key) == Some(r.value)
    ensures r.Err? ==> r.error == IndexError
  {
    match Get(table, key)
    case Some(v) =>
      GetIndex(table, key);
      Ok(v)
    case None =>
      GetAbsent(table, key);
      Err(IndexError)
  }

  lemma {:induction false} GetAbsent<V>(table: Dict<V>, key: string)
    requires Get(table, key).None?
    ensures forall i :: 0 <= i < |table| ==> table[i].0 != key
  {
    if table != [] {
      GetAbsent(table[1..], key);
      forall i | 1 <= i < |table| ensures table[i].0 != key {
        assert table[i] == table[1..][i - 1];
      }
    }
  }

  /** A key of the table is always found. */
  lemma LocFirstOfKey<V>(table: Dict<V>, i: nat)
    requires i < |table|
    ensures LocFirst(table, table[i].0).Ok?
  {
  }
}
