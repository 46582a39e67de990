/**
  Data frames as `LFG.__init__` handles them: a frame is its named columns in
  order, each a column of cells. The constructor adds the missing declared
  fields as empty columns (or forgets the fields the frame lacks), fills the
  nulls of numeric fields with 0, turns the null spellings of text fields into
  nulls, and reorders the columns so that those named in `column_order` come
  first.
*/
module Frames {
  import opened Wrappers
  import opened YearRanges

  /** A cell: a null (None, NaN or NA), a number, an integer or a text. */
  datatype Cell = Null | Num(x: real) | Int(n: int) | Text(s: string)

  type Column = seq<Cell>

  /** A frame as its (name, column) pairs, in column order. */
  type Frame = seq<(string, Column)>

  /** `data.columns` */
  function Names(f: Frame): (r: seq<string>)
    ensures |r| == |f|
    ensures forall i :: 0 <= i < |f| ==> r[i] == f[i].0
  {
    if f == [] then [] else [f[0].0] + Names(f[1..])
  }

  predicate Distinct(names: seq<string>) {
    forall i, j :: 0 <= i < j < |names| ==> names[i] != names[j]
  }

  /** The number of rows: the length of the columns (0 for a frame without columns). */
  function Height(f: Frame): nat {
    if f == [] then 0 else |f[0].1|
  }

  /** `[x for x in xs if x in ys]` */
  function Keep(xs: seq<string>, ys: seq<string>): (r: seq<string>)
    ensures forall x :: x in r <==> x in xs && x in ys
    ensures |r| <= |xs|
  {
    if xs == [] then []
    else
      assert xs == [xs[0]] + xs[1..];
      (if xs[0] in ys then [xs[0]] else []) + Keep(xs[1..], ys)
  }

  /** `[x for x in xs if x not in ys]` */
  function Drop(xs: seq<string>, ys: seq<string>): (r: seq<string>)
    ensures forall x :: x in r <==> x in xs && x !in ys
    ensures |r| <= |xs|
  {
    if xs == [] then []
    else
      assert xs == [xs[0]] + xs[1..];
      (if xs[0] in ys then [] else [xs[0]]) + Drop(xs[1..], ys)
  }

  /** A column of nulls for every field the frame lacks, in the order of the fields. */
  function NullColumns(fields: seq<string>, names: seq<string>, height: nat): (r: Frame)
    ensures Names(r) == Drop(fields, names)
    ensures forall i :: 0 <= i < |r| ==> r[i].1 == seq(height, _ => Null)
  {
    if fields == [] then []
    else
      var rest := NullColumns(fields[1..], names, height);
      var head: Frame := if fields[0] in names then [] else [(fields[0], seq(height, _ => Null))];
      NamesAppend(head, rest);
      head + rest
  }

  lemma {:induction false} NamesAppend(a: Frame, b: Frame)
    ensures Names(a + b) == Names(a) + Names(b)
  {
  }

  /**
    `data.assign(**{field: None for field in fields if field not in data.columns})`:
    the frame keeps its columns, in place, and gains an all-null column for
    each missing field, in the order of the fields.
  */
  function AddMissingColumns(f: Frame, fields: seq<string>): (r: Frame)
    ensures Names(r) == Names(f) + Drop(fields, Names(f))
    ensures r[..|f|] == f
    ensures forall c :: c in fields ==> c in Names(r)
    ensures forall i :: |f| <= i < |r| ==> r[i].1 == seq(Height(f), _ => Null)
  {
    var added := NullColumns(fields, Names(f), Height(f));
    NamesAppend(f, added);
    assert (f + added)[..|f|] == f;
    f + added
  }

  /** `{k: v for k, v in fields.items() if k in data.columns}` */
  function PresentFields(fields: Dict<string>, names: seq<string>): (r: Dict<string>)
    ensures forall p :: p in r <==> p in fields && p.0 in names
  {
    if fields == [] then []
    else
      assert fields == [fields[0]] + fields[1..];
      (if fields[0].0 in names then [fields[0]] else []) + PresentFields(fields[1..], names)
  }

  /** The fill value of a field's nulls: 0 for an 'int' or 'float' field, a null otherwise. */
  function FillValue(dtype: string): Cell {
    if dtype == "int" || dtype == "float" then Int(0) else Null
  }

  /** The texts `replace` turns into a null in an 'object' field. */
  predicate NullSpelling(c: Cell) {
    c == Null || c == Text("nan") || c == Text("<NA>") || c == Text("None") || c == Text("")
  }

  /**
    One cell of a declared field after `fillna` and `replace`: a null of a
    numeric field becomes 0, a null spelling of an 'object' field becomes a null.
  */
  function CleanCell(dtype: string, c: Cell): (r: Cell)
    ensures c.Null? && (dtype == "int" || dtype == "float") ==> r == Int(0)
    ensures dtype == "object" && NullSpelling(c) ==> r == Null
    ensures !c.Null? && dtype != "object" ==> r == c
    ensures !NullSpelling(c) ==> r == c
  {
    var filled := if c.Null? then FillValue(dtype) else c;
    if dtype == "object" && NullSpelling(filled) then Null else filled
  }

  /** A column after cleaning: the cells of a declared field cleaned by its dtype, any other column as it is. */
  function CleanColumn(fields: Dict<string>, name: string, column: Column): (r: Column)
    ensures |r| == |column|
    ensures forall j :: 0 <= j < |column| ==>
              r[j] == match Get(fields, name) case None => column[j] case Some(d) => CleanCell(d, column[j])
  {
    match Get(fields, name)
    case None => column
    case Some(d) => seq(|column|, j requires 0 <= j < |column| => CleanCell(d, column[j]))
  }

  /** `data.fillna(fill_na_dict).replace(null_string_dict)`: the cleaning of every declared field's column. */
  function CleanColumns(f: Frame, fields: Dict<string>): (r: Frame)
    ensures |r| == |f|
    ensures forall i :: 0 <= i < |f| ==> r[i] == (f[i].0, CleanColumn(fields, f[i].0, f[i].1))
  {
    if f == [] then []
    else [(f[0].0, CleanColumn(fields, f[0].0, f[0].1))] + CleanColumns(f[1..], fields)
  }

  /** The column named `name` (the first, if several share it). */
  function ColumnNamed(f: Frame, name: string): (r: Option<Column>)
    ensures r.Some? <==> name in Names(f)
    ensures r.Some? ==> (name, r.value) in f
  {
    if f == [] then None
    else if f[0].0 == name then Some(f[0].1)
    else ColumnNamed(f[1..], name)
  }

  /**
    `data[names]` for names that are all columns. A repeated header is
    read from its first column, where pandas would return every column
    with that label; frames read by `read_csv` have distinct headers.
  */
  function Select(f: Frame, names: seq<string>): (r: Frame)
    requires forall n :: n in names ==> n in Names(f)
    ensures Names(r) == names
    ensures forall p :: p in r ==> p in f
  {
    if names == [] then []
    else
      var rest := Select(f, names[1..]);
      var head := [(names[0], ColumnNamed(f, names[0]).value)];
      NamesAppend(head, rest);
      assert names == [names[0]] + names[1..];
      head + rest
  }

  /** The column order `__init__` asks for: the listed columns present, in list order, then the others in frame order. */
  function OrderedNames(names: seq<string>, columnOrder: seq<string>): (r: seq<string>)
    ensures forall n :: n in r <==> n in names
  {
    Keep(columnOrder, names) + Drop(names, columnOrder)
  }

  /** The frame's columns in the order `OrderedNames` gives, as `__init__` selects them. */
  function ReorderColumns(f: Frame, columnOrder: seq<string>): (r: Frame)
    ensures Names(r) == OrderedNames(Names(f), columnOrder)
    ensures forall p :: p in r ==> p in f
  {
    Select(f, OrderedNames(Names(f), columnOrder))
  }

  /**
    The frame `__init__` stores: when there are declared fields, the missing
    ones added as null columns (or the fields restricted to the present
    columns) and the declared fields' columns cleaned; then the columns
    reordered when an order is given.
  */
  function InitialData(data: Option<Frame>, addMissingColumns: bool, fields: Option<Dict<string>>,
                       columnOrder: Option<seq<string>>): Option<Frame>
  {
    match data
    case None => None
    case Some(f) =>
      var filled := match fields
        case None => f
        case Some(fs) =>
          if addMissingColumns then CleanColumns(AddMissingColumns(f, Keys(fs)), fs)
          else CleanColumns(f, PresentFields(fs, Names(f)));
      match columnOrder
      case None => Some(filled)
      case Some(order) => Some(ReorderColumns(filled, order))
  }

  /** The cleaning keeps the column names. */
  lemma {:induction false} CleanKeepsNames(f: Frame, fields: Dict<string>)
    ensures Names(CleanColumns(f, fields)) == Names(f)
  {
    var r := CleanColumns(f, fields);
    assert forall i :: 0 <= i < |f| ==> Names(r)[i] == r[i].0 == f[i].0 == Names(f)[i];
  }

  /**
    A numeric field the frame lacked is, after the constructor adds and
    cleans it, a column of zeros.
  */
  lemma AddedNumericFieldIsZero(f: Frame, fields: Dict<string>, c: nat, j: nat)
    requires |f| <= c < |AddMissingColumns(f, Keys(fields))|
    requires Get(fields, AddMissingColumns(f, Keys(fields))[c].0) in [Some("int"), Some("float")]
    requires j < Height(f)
    ensures CleanColumns(AddMissingColumns(f, Keys(fields)), fields)[c].1[j] == Int(0)
  {
    var a := AddMissingColumns(f, Keys(fields));
    var d := Get(fields, a[c].0).value;
    assert d == "int" || d == "float";
    assert a[c].1[j] == Null;
    assert CleanColumns(a, fields)[c].1 == CleanColumn(fields, a[c].0, a[c].1);
    assert CleanColumn(fields, a[c].0, a[c].1)[j] == CleanCell(d, Null);
  }

  /** A column the frame already had keeps every cell that is not a null spelling. */
  lemma CleanKeepsValues(f: Frame, fields: Dict<string>, c: nat, j: nat)
    requires c < |f| && j < |f[c].1| && !NullSpelling(f[c].1[j])
    ensures CleanColumns(AddMissingColumns(f, Keys(fields)), fields)[c].1[j] == f[c].1[j]
  {
    var a := AddMissingColumns(f, Keys(fields));
    assert a[..|f|][c] == a[c];
  }

  /** Every element of a list without repeats occurs once in its multiset. */
  lemma {:induction false} DistinctCount(xs: seq<string>, x: string)
    requires Distinct(xs)
    ensures multiset(xs)[x] == if x in xs then 1 else 0
  {
    if xs != [] {
      assert xs == [xs[0]] + xs[1..];
      assert Distinct(xs[1..]) by {
        forall i, j | 0 <= i < j < |xs[1..]| ensures xs[1..][i] != xs[1..][j] {
          assert xs[1..][i] == xs[i + 1] && xs[1..][j] == xs[j + 1];
        }
      }
      DistinctCount(xs[1..], x);
      if x == xs[0] {
        assert x !in xs[1..] by {
          forall k | 0 <= k < |xs[1..]| ensures xs[1..][k] != x {
            assert xs[1..][k] == xs[k + 1];
          }
        }
      }
    }
  }

  lemma {:induction false} KeepDistinct(xs: seq<string>, ys: seq<string>)
    requires Distinct(xs)
    ensures Distinct(Keep(xs, ys))
  {
    if xs != [] {
      assert Distinct(xs[1..]) by {
        forall i, j | 0 <= i < j < |xs[1..]| ensures xs[1..][i] != xs[1..][j] {
          assert xs[1..][i] == xs[i + 1] && xs[1..][j] == xs[j + 1];
        }
      }
      KeepDistinct(xs[1..], ys);
      assert xs[0] !in xs[1..] by {
        forall k | 0 <= k < |xs[1..]| ensures xs[1..][k] != xs[0] {
          assert xs[1..][k] == xs[k + 1];
        }
      }
      var rest := Keep(xs[1..], ys);
      var r := Keep(xs, ys);
      if xs[0] in ys {
        assert r == [xs[0]] + rest;
        forall i, j | 0 <= i < j < |r| ensures r[i] != r[j] {
          if i == 0 {
            assert r[j] == rest[j - 1];
            assert rest[j - 1] in rest;
          } else {
            assert r[i] == rest[i - 1] && r[j] == rest[j - 1];
          }
        }
      }
    }
  }

  lemma {:induction false} DropDistinct(xs: seq<string>, ys: seq<string>)
    requires Distinct(xs)
    ensures Distinct(Drop(xs, ys))
  {
    if xs != [] {
      assert Distinct(xs[1..]) by {
        forall i, j | 0 <= i < j < |xs[1..]| ensures xs[1..][i] != xs[1..][j] {
          assert xs[1..][i] == xs[i + 1] && xs[1..][j] == xs[j + 1];
        }
      }
      DropDistinct(xs[1..], ys);
      assert xs[0] !in xs[1..] by {
        forall k | 0 <= k < |xs[1..]| ensures xs[1..][k] != xs[0] {
          assert xs[1..][k] == xs[k + 1];
        }
      }
      var rest := Drop(xs[1..], ys);
      var r := Drop(xs, ys);
      if xs[0] !in ys {
        assert r == [xs[0]] + rest;
        forall i, j | 0 <= i < j < |r| ensures r[i] != r[j] {
          if i == 0 {
            assert r[j] == rest[j - 1];
            assert rest[j - 1] in rest;
          } else {
            assert r[i] == rest[i - 1] && r[j] == rest[j - 1];
          }
        }
      }
    }
  }

  /**
    With distinct column names and a column order without repeats, the
    reorder is a permutation of the columns: every name occurs exactly as
    often as before, and every column keeps its contents.
  */
  lemma ReorderIsPermutation(f: Frame, columnOrder: seq<string>)
    requires Distinct(Names(f)) && Distinct(columnOrder)
    ensures multiset(Names(ReorderColumns(f, columnOrder))) == multiset(Names(f))
    ensures forall p :: p in ReorderColumns(f, columnOrder) ==> p in f
  {
    var names := Names(f);
    var kept := Keep(columnOrder, names);
    var rest := Drop(names, columnOrder);
    KeepDistinct(columnOrder, names);
    DropDistinct(names, columnOrder);
    forall x
      ensures multiset(kept + rest)[x] == multiset(names)[x]
    {
      DistinctCount(kept, x);
      DistinctCount(rest, x);
      DistinctCount(names, x);
    }
    assert multiset(kept + rest) == multiset(names);
  }

  /** The listed columns come first, in the order of the list. */
  lemma ReorderPutsListedFirst(f: Frame, columnOrder: seq<string>)
    ensures Names(ReorderColumns(f, columnOrder))[..|Keep(columnOrder, Names(f))|] == Keep(columnOrder, Names(f))
  {
    var kept := Keep(columnOrder, Names(f));
    assert (kept + Drop(Names(f), columnOrder))[..|kept|] == kept;
  }
}
