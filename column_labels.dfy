/**
  The column labels of the `reduce` of outer merges at the end of
  `calculate_lfg_emissions`: every material's `df_agg` has the group keys
  Year, landfillOperationYear and Scenario and its three sums, and the frames
  are merged on the first two only, so pandas' rule for the columns both
  sides share decides the labels, and whether the merge raises.
*/
module ColumnLabels {
  import opened Wrappers
  import opened Frames

  /** The names a material's three columns get in its `df_agg`. */
  function GenerationLabel(material: string): string { material + " Methane Generation" }
  function CaptureLabel(material: string): string { material + " Methane Capture" }
  function EmittedLabel(material: string): string { material + " Methane Emitted" }

  /** `on=['Year', 'landfillOperationYear']` */
  const MergeKeys: seq<string> := ["Year", "landfillOperationYear"]

  /** A material's Scenario column, under the label it has at that point, and its three sums. */
  function MaterialPart(scenario: string, material: string): seq<string> {
    [scenario, GenerationLabel(material), CaptureLabel(material), EmittedLabel(material)]
  }

  /** The columns of a material's `df_agg`: the group keys, then its renamed sums. */
  function AggColumns(material: string): seq<string> {
    MergeKeys + MaterialPart("Scenario", material)
  }

  /** The columns in `columns` that `other` also has take the suffix. */
  function Renamed(columns: seq<string>, other: seq<string>, suffix: string): (r: seq<string>)
    ensures |r| == |columns|
    ensures forall i :: 0 <= i < |r| ==> r[i] == (if columns[i] in other then columns[i] + suffix else columns[i])
  {
    seq(|columns|, i requires 0 <= i < |columns| => if columns[i] in other then columns[i] + suffix else columns[i])
  }

  /**
    A label that the suffix turned into a duplicate although the column it
    came from was not one already: the case in which pandas raises a
    MergeError.
  */
  predicate SuffixClash(columns: seq<string>, renamed: seq<string>)
    requires |renamed| == |columns|
  {
    exists i :: 0 <= i < |renamed| && renamed[i] in renamed[..i] && columns[i] !in columns[..i]
  }

  /**
    The column labels of `pd.merge(left, right, on=MergeKeys, how='outer')`
    with the default suffixes: the right frame's key columns are dropped,
    the columns both sides still share get "_x" on the left and "_y" on the
    right, and a duplicate made by a suffix is a MergeError (a ValueError).
  */
  function MergeLabels(left: seq<string>, right: seq<string>): Result<seq<string>> {
    var rest := Drop(right, MergeKeys);
    var l := Renamed(left, rest, "_x");
    var r := Renamed(rest, left, "_y");
    if SuffixClash(left, l) || SuffixClash(rest, r) then Err(ValueError) else Ok(l + r)
  }

  /** `reduce` of `MergeLabels` over the frames' columns, from the left. */
  function ReduceLabels(frames: seq<seq<string>>): Result<seq<string>>
    requires frames != []
  {
    if |frames| == 1 then Ok(frames[0])
    else
      var acc :- ReduceLabels(frames[..|frames| - 1]);
      MergeLabels(acc, frames[|frames| - 1])
  }

  function MaterialLabels(materials: seq<string>): (r: seq<seq<string>>)
    ensures |r| == |materials|
  {
    seq(|materials|, i requires 0 <= i < |materials| => AggColumns(materials[i]))
  }

  /** A label ends in the last character of its suffix. */
  lemma LastOfConcat(s: string, t: string)
    requires t != []
    ensures (s + t)[|s + t| - 1] == t[|t| - 1]
  {
  }

  /** `material + suffix` determines the material. */
  lemma ConcatInjective(s: string, s': string, t: string)
    requires s + t == s' + t
    ensures s == s'
  {
    assert |s| == |s'|;
    assert s == (s + t)[..|s|];
    assert s' == (s' + t)[..|s'|];
  }

  /**
    The labels of a material end in 'n', 'e' and 'd', which tells them apart
    from each other and from the keys and Scenario labels (ending in 'r',
    'o', 'x', 'y').
  */
  lemma LabelEnds(m: string)
    ensures GenerationLabel(m) != [] && GenerationLabel(m)[|GenerationLabel(m)| - 1] == 'n'
    ensures CaptureLabel(m) != [] && CaptureLabel(m)[|CaptureLabel(m)| - 1] == 'e'
    ensures EmittedLabel(m) != [] && EmittedLabel(m)[|EmittedLabel(m)| - 1] == 'd'
  {
    LastOfConcat(m, " Methane Generation");
    LastOfConcat(m, " Methane Capture");
    LastOfConcat(m, " Methane Emitted");
  }

  /** Labels of one kind are equal only for equal materials. */
  lemma LabelsInjective(m: string, m': string)
    requires m != m'
    ensures GenerationLabel(m) != GenerationLabel(m')
    ensures CaptureLabel(m) != CaptureLabel(m')
    ensures EmittedLabel(m) != EmittedLabel(m')
  {
    if GenerationLabel(m) == GenerationLabel(m') { ConcatInjective(m, m', " Methane Generation"); }
    if CaptureLabel(m) == CaptureLabel(m') { ConcatInjective(m, m', " Methane Capture"); }
    if EmittedLabel(m) == EmittedLabel(m') { ConcatInjective(m, m', " Methane Emitted"); }
  }

  /** Columns that are not keys survive `Drop`. */
  lemma {:induction false} DropNone(xs: seq<string>, ys: seq<string>)
    requires forall i :: 0 <= i < |xs| ==> xs[i] !in ys
    ensures Drop(xs, ys) == xs
  {
    if xs != [] {
      DropNone(xs[1..], ys);
      assert xs == [xs[0]] + xs[1..];
    }
  }

  /** Leading key columns go. */
  lemma {:induction false} DropLeading(ks: seq<string>, xs: seq<string>, ys: seq<string>)
    requires forall i :: 0 <= i < |ks| ==> ks[i] in ys
    ensures Drop(ks + xs, ys) == Drop(xs, ys)
  {
    if ks != [] {
      DropLeading(ks[1..], xs, ys);
      assert (ks + xs)[0] == ks[0];
      assert (ks + xs)[1..] == ks[1..] + xs;
    } else {
      assert ks + xs == xs;
    }
  }

  /** The right frame of a merge loses its key columns. */
  lemma DropMergeKeys(m: string)
    ensures Drop(AggColumns(m), MergeKeys) == MaterialPart("Scenario", m)
  {
    PartHasNoKeys(m);
    DropLeading(MergeKeys, MaterialPart("Scenario", m), MergeKeys);
    DropNone(MaterialPart("Scenario", m), MergeKeys);
  }

  /** No column of a material's part is a merge key. */
  lemma PartHasNoKeys(m: string)
    ensures forall i :: 0 <= i < 4 ==> MaterialPart("Scenario", m)[i] !in MergeKeys
  {
    LabelEnds(m);
  }

  /** Renaming nothing changes nothing. */
  lemma RenamedNone(columns: seq<string>, other: seq<string>, suffix: string)
    requires forall i :: 0 <= i < |columns| ==> columns[i] !in other
    ensures Renamed(columns, other, suffix) == columns
  {
  }

  /** A merge that renames nothing cannot clash. */
  lemma NoClashUnchanged(columns: seq<string>)
    ensures !SuffixClash(columns, columns)
  {
  }

  /** Distinct labels cannot clash. */
  lemma DistinctNoClash(columns: seq<string>, renamed: seq<string>)
    requires |renamed| == |columns| && Distinct(renamed)
    ensures !SuffixClash(columns, renamed)
  {
  }

  /** The columns after the first merge: Scenario_x, the first material, Scenario_y, the second. */
  function TwoLabels(m1: string, m2: string): seq<string> {
    MergeKeys + MaterialPart("Scenario_x", m1) + MaterialPart("Scenario_y", m2)
  }

  /** The columns after the second merge: the third material's Scenario keeps its name. */
  function ThreeLabels(m1: string, m2: string, m3: string): seq<string> {
    TwoLabels(m1, m2) + MaterialPart("Scenario", m3)
  }

  /** The left side of the first merge: only Scenario is shared, and becomes Scenario_x. */
  lemma FirstMergeLeft(m1: string, m2: string)
    requires m1 != m2
    ensures Renamed(AggColumns(m1), MaterialPart("Scenario", m2), "_x") == MergeKeys + MaterialPart("Scenario_x", m1)
  {
    LabelEnds(m1);
    LabelEnds(m2);
    LabelsInjective(m1, m2);
    var l := Renamed(AggColumns(m1), MaterialPart("Scenario", m2), "_x");
    var lx := MergeKeys + MaterialPart("Scenario_x", m1);
    assert "Scenario" + "_x" == "Scenario_x";
    forall i | 0 <= i < 6 ensures l[i] == lx[i] {
    }
  }

  /** The columns after the first merge's renaming are distinct. */
  lemma FirstMergeLeftDistinct(m1: string)
    ensures Distinct(MergeKeys + MaterialPart("Scenario_x", m1))
  {
    LabelEnds(m1);
  }

  /** The right side of the first merge: Scenario becomes Scenario_y. */
  lemma FirstMergeRight(m1: string, m2: string)
    requires m1 != m2
    ensures Renamed(MaterialPart("Scenario", m2), AggColumns(m1), "_y") == MaterialPart("Scenario_y", m2)
    ensures Distinct(MaterialPart("Scenario_y", m2))
  {
    LabelEnds(m1);
    LabelEnds(m2);
    LabelsInjective(m1, m2);
    assert "Scenario" + "_y" == "Scenario_y";
  }

  /** The first merge shares only Scenario, which becomes Scenario_x and Scenario_y. */
  lemma FirstMerge(m1: string, m2: string)
    requires m1 != m2
    ensures MergeLabels(AggColumns(m1), AggColumns(m2)) == Ok(TwoLabels(m1, m2))
  {
    DropMergeKeys(m2);
    FirstMergeLeft(m1, m2);
    FirstMergeRight(m1, m2);
    FirstMergeLeftDistinct(m1);
    DistinctNoClash(AggColumns(m1), MergeKeys + MaterialPart("Scenario_x", m1));
    DistinctNoClash(MaterialPart("Scenario", m2), MaterialPart("Scenario_y", m2));
  }

  /** The second merge shares no column: the third material's Scenario keeps its name. */
  lemma SecondMerge(m1: string, m2: string, m3: string)
    requires m1 != m3 && m2 != m3
    ensures MergeLabels(TwoLabels(m1, m2), AggColumns(m3)) == Ok(ThreeLabels(m1, m2, m3))
  {
    LabelEnds(m1);
    LabelEnds(m2);
    LabelEnds(m3);
    LabelsInjective(m1, m3);
    LabelsInjective(m2, m3);
    DropMergeKeys(m3);
    var left := TwoLabels(m1, m2);
    var rest := MaterialPart("Scenario", m3);
    RenamedNone(left, rest, "_x");
    RenamedNone(rest, left, "_y");
    NoClashUnchanged(left);
    NoClashUnchanged(rest);
  }

  /** After the first merge no column is labelled Scenario any more. */
  lemma NoPlainScenario(m1: string, m2: string)
    ensures "Scenario" !in TwoLabels(m1, m2)
  {
    LabelEnds(m1);
    LabelEnds(m2);
  }

  /** The third material's Scenario is the first column the third merge shares. */
  lemma ThirdMergeShares(m1: string, m2: string, m3: string, m4: string)
    ensures var left := ThreeLabels(m1, m2, m3);
      && left[2] == "Scenario_x" && left[2] !in MaterialPart("Scenario", m4)
      && left[10] == "Scenario" && left[10] in MaterialPart("Scenario", m4)
      && left[..10] == TwoLabels(m1, m2)
  {
    LabelEnds(m4);
  }

  /** The third merge renames the third material's Scenario to Scenario_x, which the first merge already made. */
  lemma ThirdMerge(m1: string, m2: string, m3: string, m4: string)
    ensures MergeLabels(ThreeLabels(m1, m2, m3), AggColumns(m4)) == Err(ValueError)
  {
    DropMergeKeys(m4);
    ThirdMergeShares(m1, m2, m3, m4);
    NoPlainScenario(m1, m2);
    var left := ThreeLabels(m1, m2, m3);
    var l := Renamed(left, MaterialPart("Scenario", m4), "_x");
    assert l[10] == l[2] == "Scenario" + "_x";
    assert l[10] in l[..10];
    assert SuffixClash(left, l);
  }

  /** The `reduce` over n frames is the merge of the `reduce` over the first n - 1 with the last frame. */
  lemma ReduceStep(materials: seq<string>)
    requires |materials| > 1 && Distinct(materials)
    ensures var n := |materials|;
      && Distinct(materials[..n - 1])
      && ReduceLabels(MaterialLabels(materials)) ==
         match ReduceLabels(MaterialLabels(materials[..n - 1]))
         case Err(e) => Err(e)
         case Ok(acc) => MergeLabels(acc, AggColumns(materials[n - 1]))
  {
    var n := |materials|;
    assert MaterialLabels(materials)[..n - 1] == MaterialLabels(materials[..n - 1]);
  }

  /**
    With distinct materials, the `reduce` as written fails exactly when there
    are four or more: its third merge makes a second Scenario_x. With one to
    three materials the columns are the frame's, `TwoLabels` and `ThreeLabels`.
  */
  lemma {:induction false} ReduceFailsFromFourMaterials(materials: seq<string>)
    requires materials != [] && Distinct(materials)
    ensures ReduceLabels(MaterialLabels(materials)).Err? <==> |materials| >= 4
    ensures |materials| >= 4 ==> ReduceLabels(MaterialLabels(materials)) == Err(ValueError)
    ensures |materials| == 1 ==> ReduceLabels(MaterialLabels(materials)) == Ok(AggColumns(materials[0]))
    ensures |materials| == 2 ==> ReduceLabels(MaterialLabels(materials)) == Ok(TwoLabels(materials[0], materials[1]))
    ensures |materials| == 3 ==>
      ReduceLabels(MaterialLabels(materials)) == Ok(ThreeLabels(materials[0], materials[1], materials[2]))
    decreases |materials|
  {
    var n := |materials|;
    if n > 1 {
      var prefix := materials[..n - 1];
      ReduceStep(materials);
      ReduceFailsFromFourMaterials(prefix);
      if n == 2 {
        FirstMerge(materials[0], materials[1]);
      } else if n == 3 {
        SecondMerge(materials[0], materials[1], materials[2]);
      } else if n == 4 {
        ThirdMerge(materials[0], materials[1], materials[2], materials[3]);
      }
    }
  }

}
