/**
 * The batch-testing driver of the server: generating a control-variates test
 * tree for one food entity, the estimate pass that skips captures already
 * estimated, and the clean pass that deletes estimation outputs.
 */
module BatchTest {
  import opened Wrappers
  import opened Json
  import opened PyPath
  import opened TestCases
  import opened Analysis

  /** The keys of the variate table, in order: no variate, then the five varied attributes. */
  const Variates: seq<Option<string>> :=
    [None, Some("height"), Some("pitch"), Some("roll"), Some("deviation"), Some("background")]

  /**
   * `VARIATE_ACCESSES[variate]`: the factor the plots read out of a case's
   * metadata. The key `None` holds `None`, each of the five varied attributes
   * a lookup, and any other name raises `KeyError`.
   */
  function Access(variate: Option<string>, metadata: Json<real>): (r: Result<Option<Json<real>>, string>)
    ensures r.Failure? <==> variate !in Variates
    ensures r.Failure? ==> r.error == "KeyError"
    ensures r == Success(None) <==> variate == None
    ensures r.Success? && r.value.Some? <==> variate in Variates[1..]
  {
    match variate
    case None => Success(None)
    case Some(v) =>
      if v == "height" then Success(Some(Get(metadata, "height")))
      else if v == "pitch" then Success(Some(Get(Get(metadata, "angle"), "pitch")))
      else if v == "roll" then Success(Some(Get(Get(metadata, "angle"), "roll")))
      else if v == "deviation" then Success(Some(Get(metadata, "center_deviation")))
      else if v == "background" then Success(Some(Get(metadata, "background")))
      else Failure("KeyError")
  }

  /**
   * The cases `get_control_variates_cases` returns: one per value, indexed
   * from 0, each given the value under the variate's name when there is a
   * variate.
   */
  function ControlVariates(foodName: string, weight: real, name: Option<string>, values: seq<Json<real>>): (cases: seq<TestCase>)
    ensures |cases| == |values|
    ensures forall i :: 0 <= i < |cases| ==> cases[i].caseIndex == i
  {
    seq(|values|, i requires 0 <= i < |values| =>
      if name.None? then NewCase(foodName, weight, i) else SetAttr(NewCase(foodName, weight, i), name.value, values[i]))
  }

  /** `get_control_variates_cases`: build the cases, then assign each its value in turn. */
  method GetControlVariatesCases(foodName: string, weight: real, name: Option<string>, values: seq<Json<real>>)
    returns (cases: seq<TestCase>)
    ensures cases == ControlVariates(foodName, weight, name, values)
  {
    cases := seq(|values|, i requires 0 <= i < |values| => NewCase(foodName, weight, i));
    if name.None? {
      return;
    }
    var i := 0;
    while i < |cases|
      invariant 0 <= i <= |cases| == |values|
      invariant forall k :: 0 <= k < i ==> cases[k] == SetAttr(NewCase(foodName, weight, k), name.value, values[k])
      invariant forall k :: i <= k < |cases| ==> cases[k] == NewCase(foodName, weight, k)
    {
      cases := cases[i := SetAttr(cases[i], name.value, values[i])];
      i := i + 1;
    }
  }

  /** Without a variate every case keeps its defaults. */
  lemma NoVariateKeepsDefaults(foodName: string, weight: real, values: seq<Json<real>>)
    ensures forall i :: 0 <= i < |values| ==>
      ToJson(ControlVariates(foodName, weight, None, values)[i]) == ToJson(NewCase(foodName, weight, 0))
  {
  }

  /** A value of the kind its variate's attribute holds. */
  predicate FitsVariate(name: string, v: Json<real>) {
    if name == "background" then v.JStr? else v.JNum?
  }

  /** For height, pitch, roll and background, the plots read back exactly the value each case was given. */
  lemma {:induction false} VariateReadsBack(foodName: string, weight: real, name: string, values: seq<Json<real>>)
    requires name in {"height", "pitch", "roll", "background"}
    requires forall i :: 0 <= i < |values| ==> FitsVariate(name, values[i])
    ensures forall i :: 0 <= i < |values| ==>
      Access(Some(name), ToJson(ControlVariates(foodName, weight, Some(name), values)[i])) == Success(Some(values[i]))
  {
    forall i | 0 <= i < |values|
      ensures Access(Some(name), ToJson(ControlVariates(foodName, weight, Some(name), values)[i])) == Success(Some(values[i]))
    {
      SetRecordedAttribute(NewCase(foodName, weight, i), name, values[i]);
    }
  }

  /**
   * As written, the `deviation` variate is assigned to an attribute the
   * metadata never records, so every case of that group reads back the
   * default centre deviation 0.0 instead of its value.
   */
  lemma DeviationVariateIgnored(foodName: string, weight: real, values: seq<Json<real>>)
    ensures forall i :: 0 <= i < |values| ==>
      Access(Some("deviation"), ToJson(ControlVariates(foodName, weight, Some("deviation"), values)[i])) == Success(Some(JNum(0.0)))
  {
    forall i | 0 <= i < |values|
      ensures Access(Some("deviation"), ToJson(ControlVariates(foodName, weight, Some("deviation"), values)[i])) == Success(Some(JNum(0.0)))
    {
      SetOtherAttribute(NewCase(foodName, weight, i), "deviation", values[i]);
      ToJsonReadsBack(NewCase(foodName, weight, i));
    }
  }

  /** A concrete deviation group whose read-back factors differ from the values it was meant to vary. */
  lemma DeviationCounterexample()
    ensures Access(Some("deviation"), ToJson(ControlVariates("burger", 1.0, Some("deviation"), [JNum(0.02)])[0])) != Success(Some(JNum(0.02)))
  {
    DeviationVariateIgnored("burger", 1.0, [JNum(0.02)]);
  }

  /** The attribute a variate is meant to vary: the centre deviation for `deviation`, the attribute of the same name otherwise. */
  function AttributeOf(variate: string): (a: string)
    ensures variate in {"height", "pitch", "roll", "deviation", "background"} ==> a in RecordedAttributes
  {
    if variate == "deviation" then "center_deviation" else variate
  }

  /** The cases with each value assigned to the attribute its variate is read back from. */
  function ControlVariatesFixed(foodName: string, weight: real, name: Option<string>, values: seq<Json<real>>): (cases: seq<TestCase>)
    ensures |cases| == |values|
    ensures forall i :: 0 <= i < |cases| ==> cases[i].caseIndex == i
  {
    ControlVariates(foodName, weight, if name.None? then None else Some(AttributeOf(name.value)), values)
  }

  /** With the corrected assignment, every variate of the table reads back exactly the value each case was given. */
  lemma {:induction false} FixedVariatesReadBack(foodName: string, weight: real, name: string, values: seq<Json<real>>)
    requires Some(name) in Variates[1..]
    requires forall i :: 0 <= i < |values| ==> FitsVariate(name, values[i])
    ensures forall i :: 0 <= i < |values| ==>
      Access(Some(name), ToJson(ControlVariatesFixed(foodName, weight, Some(name), values)[i])) == Success(Some(values[i]))
  {
    forall i | 0 <= i < |values|
      ensures Access(Some(name), ToJson(ControlVariatesFixed(foodName, weight, Some(name), values)[i])) == Success(Some(values[i]))
    {
      SetRecordedAttribute(NewCase(foodName, weight, i), AttributeOf(name), values[i]);
    }
  }

  function Nums(xs: seq<real>): (r: seq<Json<real>>)
    ensures |r| == |xs| && forall i :: 0 <= i < |r| ==> r[i] == JNum(xs[i])
  {
    seq(|xs|, i requires 0 <= i < |xs| => JNum(xs[i]))
  }

  function Strs(xs: seq<string>): (r: seq<Json<real>>)
    ensures |r| == |xs| && forall i :: 0 <= i < |r| ==> r[i] == JStr(xs[i])
  {
    seq(|xs|, i requires 0 <= i < |xs| => JStr(xs[i]))
  }

  const HeightValues: seq<real> := [0.4, 0.5, 0.55, 0.6]
  const AngleValues: seq<real> := [-2.0, -4.0, -6.0, -8.0, -10.0, -15.0, -20.0, -25.0, -30.0,
                                   2.0, 4.0, 6.0, 8.0, 10.0, 15.0, 20.0, 25.0, 30.0]
  const DeviationValues: seq<real> := [0.02, 0.04, 0.06, 0.08, 0.1]
  const BackgroundValues: seq<string> := ["Wood table 76-660", "Cupboard 76-651", "Dining table 76-651", "Window table 76-651"]

  /** The value lists of the five variates, in table order. */
  function VariateValues(): (r: seq<seq<Json<real>>>)
    ensures |r| == 5
    ensures forall k :: 0 <= k < 5 ==> forall i :: 0 <= i < |r[k]| ==> FitsVariate(Variates[k + 1].value, r[k][i])
  {
    [Nums(HeightValues), Nums(AngleValues), Nums(AngleValues), Nums(DeviationValues), Strs(BackgroundValues)]
  }

  /** The group of variate `k` of the table, 1 to 5, built as `get_control_variates_cases` builds it. */
  function VariateGroup(foodName: string, weight: real, k: nat): (r: seq<TestCase>)
    requires 1 <= k <= 5
    ensures |r| == |VariateValues()[k - 1]| && forall i :: 0 <= i < |r| ==> r[i].caseIndex == i
  {
    ControlVariates(foodName, weight, Variates[k], VariateValues()[k - 1])
  }

  /** The keys of the entity directory: `reference`, then the five variate names. */
  const GroupKeys: seq<string> := ["reference", "height", "pitch", "roll", "deviation", "background"]

  /** The cases of each group, in key order: the reference case without a variate, then one group per variate. */
  function GroupCases(foodName: string, weight: real): (r: seq<seq<TestCase>>)
    ensures |r| == 6
    ensures forall k :: 0 <= k < 6 ==> DistinctIndices(r[k])
  {
    [ControlVariates(foodName, weight, Variates[0], [JNull])] +
    seq(5, k requires 0 <= k < 5 => VariateGroup(foodName, weight, k + 1))
  }

  /**
   * In a generated tree the height, pitch, roll and background groups record
   * their values, while every case of the deviation group records the
   * default centre deviation.
   */
  lemma GeneratedGroupsRecord(foodName: string, weight: real)
    ensures forall k, i :: k in {1, 2, 3, 5} && 0 <= i < |GroupCases(foodName, weight)[k]| ==>
      Access(Variates[k], ToJson(GroupCases(foodName, weight)[k][i])) == Success(Some(VariateValues()[k - 1][i]))
    ensures forall i :: 0 <= i < |GroupCases(foodName, weight)[4]| ==>
      Access(Some("deviation"), ToJson(GroupCases(foodName, weight)[4][i])) == Success(Some(JNum(0.0)))
  {
    var gs := GroupCases(foodName, weight);
    forall k | k in {1, 2, 3, 5}
      ensures forall i :: 0 <= i < |gs[k]| ==> Access(Variates[k], ToJson(gs[k][i])) == Success(Some(VariateValues()[k - 1][i]))
    {
      assert gs[k] == VariateGroup(foodName, weight, k);
      VariateReadsBack(foodName, weight, Variates[k].value, VariateValues()[k - 1]);
    }
    assert gs[4] == VariateGroup(foodName, weight, 4);
    DeviationVariateIgnored(foodName, weight, VariateValues()[3]);
  }

  /** The corrected cases of each group: every variate assigned to the attribute it is read back from. */
  function CorrectedGroupCases(foodName: string, weight: real): (r: seq<seq<TestCase>>)
    ensures |r| == 6
    ensures forall k :: 0 <= k < 6 ==> DistinctIndices(r[k])
  {
    [ControlVariatesFixed(foodName, weight, Variates[0], [JNull])] +
    seq(5, k requires 0 <= k < 5 => ControlVariatesFixed(foodName, weight, Variates[k + 1], VariateValues()[k]))
  }

  /** With the corrected assignment every variate group, deviation included, records its values. */
  lemma CorrectedGroupsRecord(foodName: string, weight: real)
    ensures forall k, i :: 1 <= k <= 5 && 0 <= i < |CorrectedGroupCases(foodName, weight)[k]| ==>
      Access(Variates[k], ToJson(CorrectedGroupCases(foodName, weight)[k][i])) == Success(Some(VariateValues()[k - 1][i]))
  {
    var gs := CorrectedGroupCases(foodName, weight);
    forall k | 1 <= k <= 5
      ensures forall i :: 0 <= i < |gs[k]| ==> Access(Variates[k], ToJson(gs[k][i])) == Success(Some(VariateValues()[k - 1][i]))
    {
      assert gs[k] == ControlVariatesFixed(foodName, weight, Variates[k], VariateValues()[k - 1]);
      FixedVariatesReadBack(foodName, weight, Variates[k].value, VariateValues()[k - 1]);
    }
  }

  /** The dictionary of one entity over six case lists, one group under each key. */
  function EntityTree(entity: string, cases: seq<seq<TestCase>>): PathTree
    requires |cases| == 6
  {
    Dir([Entry(entity, Dir(seq(6, k requires 0 <= k < 6 => Entry(GroupKeys[k], Leaf(cases[k])))))])
  }

  /** The dictionary the generate option builds: the reference group and one group per variate. */
  function BatchTree(entity: string, foodName: string, weight: real): PathTree {
    EntityTree(entity, GroupCases(foodName, weight))
  }

  /** Walking an entity's tree yields its six groups, each in the entity directory joined with its key. */
  lemma {:induction false} BatchWalk(root: string, entity: string, cases: seq<seq<TestCase>>)
    requires |cases| == 6
    ensures var gs := PathGen(EntityTree(entity, cases), root, 0);
      |gs| == 6 && forall k :: 0 <= k < 6 ==> gs[k] == Group(cases[k], Join(Join(root, entity), GroupKeys[k]))
  {
    var t := EntityTree(entity, cases);
    var inner := t.entries[0].child;
    var dir := Join(root, entity);
    var expected := seq(6, k requires 0 <= k < 6 => Group(cases[k], Join(dir, GroupKeys[k])));
    var n := 6;
    while n > 0
      invariant 0 <= n <= 6
      invariant PathGen(inner, dir, n) == expected[n..]
    {
      n := n - 1;
      assert expected[n..] == [expected[n]] + expected[n + 1..];
    }
    assert PathGen(t, root, 1) == [];
  }

  /** Two relative keys that differ at some position give group directories that are apart. */
  lemma JoinKeysApart(dir: string, k1: string, k2: string, i: nat)
    requires !IsAbsolute(k1) && !IsAbsolute(k2) && i < |k1| && i < |k2| && k1[i] != k2[i]
    ensures Apart(Join(dir, k1), Join(dir, k2))
  {
    var p := if |dir| == 0 || dir[|dir| - 1] == Sep then dir else dir + [Sep];
    assert Join(dir, k1) == p + k1 && Join(dir, k2) == p + k2;
    DivergeApart(p, k1, k2, i);
  }

  /** Groups laid out under the six keys of an entity directory are in directories that are pairwise apart and can hold cases. */
  lemma GroupDirsApart(dir: string, gs: seq<Group>)
    requires |gs| == 6 && forall k :: 0 <= k < 6 ==> gs[k].path == Join(dir, GroupKeys[k])
    ensures forall a, b :: 0 <= a < b < |gs| ==> Apart(gs[a].path, gs[b].path)
    ensures forall a :: 0 <= a < |gs| ==> GroupDir(gs[a].path)
  {
    forall a, b | 0 <= a < b < |gs| ensures Apart(gs[a].path, gs[b].path) {
      if a == 0 && b == 3 {
        JoinKeysApart(dir, GroupKeys[a], GroupKeys[b], 1);
      } else {
        JoinKeysApart(dir, GroupKeys[a], GroupKeys[b], 0);
      }
    }
    forall a | 0 <= a < |gs| ensures GroupDir(gs[a].path) {
      var key := GroupKeys[a];
      JoinParts(dir, key);
      assert gs[a].path[|gs[a].path| - 1] == key[|key| - 1];
    }
  }

  /** Whatever the root and the entity name, every case of an entity's tree can be laid out after the ones before it. */
  lemma EntityLayout(root: string, entity: string, cases: seq<seq<TestCase>>)
    requires |cases| == 6 && forall k :: 0 <= k < 6 ==> DistinctIndices(cases[k])
    ensures Creatable(Placements(PathGen(EntityTree(entity, cases), root, 0)))
  {
    BatchWalk(root, entity, cases);
    var gs := PathGen(EntityTree(entity, cases), root, 0);
    GroupDirsApart(Join(root, entity), gs);
    DistinctLayout(gs);
  }

  /** In particular the generated tree, as written or with the corrected deviation group. */
  lemma BatchLayoutDistinct(root: string, entity: string, foodName: string, weight: real)
    ensures Creatable(Placements(PathGen(BatchTree(entity, foodName, weight), root, 0)))
    ensures Creatable(Placements(PathGen(EntityTree(entity, CorrectedGroupCases(foodName, weight)), root, 0)))
  {
    EntityLayout(root, entity, GroupCases(foodName, weight));
    EntityLayout(root, entity, CorrectedGroupCases(foodName, weight));
  }

  /**
   * The generate option: lay the entity's tree out under the root given on
   * the command line. It never meets a directory twice, so every case gets
   * its metadata.
   */
  method GeneratePass(root: string, entity: string, foodName: string, weight: real)
    returns (files: map<string, Json<real>>, clash: Option<string>)
    ensures clash.None?
    ensures AllWritten(Placements(PathGen(BatchTree(entity, foodName, weight), root, 0)), files)
    ensures OnlyPlacements(Placements(PathGen(BatchTree(entity, foodName, weight), root, 0)), files)
  {
    BatchLayoutDistinct(root, entity, foodName, weight);
    files, clash := Generate(PathGen(BatchTree(entity, foodName, weight), root, 0));
  }

  /**
   * The estimate pass: a directory that already holds `result.json` is
   * skipped; otherwise the estimate is written there, unless it fails with a
   * value error, which only skips that directory.
   */
  method EstimatePass(dirs: seq<string>, hasResult: set<string>, estimate: string -> Option<seq<(real, real)>>)
    returns (written: map<string, Json<real>>)
    ensures forall d :: d in written <==> (d in dirs && d !in hasResult && estimate(d).Some?)
    ensures forall d :: d in written ==> written[d] == FormatResult(estimate(d).value)
  {
    written := map[];
    var i := 0;
    while i < |dirs|
      invariant 0 <= i <= |dirs|
      invariant forall d :: d in written <==> (d in dirs[..i] && d !in hasResult && estimate(d).Some?)
      invariant forall d :: d in written ==> written[d] == FormatResult(estimate(d).value)
    {
      var d := dirs[i];
      assert dirs[..i + 1] == dirs[..i] + [d];
      if d in hasResult || d in written {
        i := i + 1;
        continue;
      }
      var result := estimate(d);
      if result.Some? {
        written := written[d := FormatResult(result.value)];
      }
      i := i + 1;
    }
    assert dirs[..i] == dirs;
  }

  /** The files the clean pass deletes. */
  predicate IsEstimateOutput(name: string) {
    name == "result.json" || name == "food_pc.npy" || name == "full_pc.npy" || name == "mask.jpg" || name == "projection.jpg"
  }

  /**
   * The clean pass over a directory walk, each step a directory and the
   * names of the files in it: exactly the estimation outputs are removed.
   */
  method CleanPass(walk: seq<(string, seq<string>)>) returns (removed: set<(string, string)>)
    ensures forall r :: r in removed <==>
      (IsEstimateOutput(r.1) && exists i :: 0 <= i < |walk| && walk[i].0 == r.0 && r.1 in walk[i].1)
  {
    removed := {};
    var wi := 0;
    while wi < |walk|
      invariant 0 <= wi <= |walk|
      invariant forall r :: r in removed <==>
        (IsEstimateOutput(r.1) && exists i :: 0 <= i < wi && walk[i].0 == r.0 && r.1 in walk[i].1)
    {
      var root := walk[wi].0;
      var files := walk[wi].1;
      var fi := 0;
      while fi < |files|
        invariant 0 <= fi <= |files|
        invariant forall r :: r in removed <==>
          (IsEstimateOutput(r.1) &&
           ((exists i :: 0 <= i < wi && walk[i].0 == r.0 && r.1 in walk[i].1) || (r.0 == root && r.1 in files[..fi])))
      {
        assert files[..fi + 1] == files[..fi] + [files[fi]];
        if IsEstimateOutput(files[fi]) {
          removed := removed + {(root, files[fi])};
        }
        fi := fi + 1;
      }
      assert files[..fi] == files;
      wi := wi + 1;
    }
  }

  /** The walk lists `result.json` in directory `d`. */
  predicate ListsResult(walk: seq<(string, seq<string>)>, d: string) {
    exists i :: 0 <= i < |walk| && walk[i].0 == d && "result.json" in walk[i].1
  }

  /**
   * A clean pass followed by an estimate pass: the clean pass deletes the
   * `result.json` files the walk lists, so every directory whose result was
   * deleted is estimated again, and one whose result was not listed is still
   * skipped.
   */
  method CleanThenEstimate(walk: seq<(string, seq<string>)>, hasResult: set<string>, dirs: seq<string>,
                           estimate: string -> Option<seq<(real, real)>>)
    returns (written: map<string, Json<real>>)
    ensures forall d :: d in written <==> (d in dirs && estimate(d).Some? && (d !in hasResult || ListsResult(walk, d)))
    ensures forall d :: d in written ==> written[d] == FormatResult(estimate(d).value)
  {
    var removed := CleanPass(walk);
    var left := set d | d in hasResult && (d, "result.json") !in removed;
    assert forall d :: d in left <==> d in hasResult && !ListsResult(walk, d) by {
      forall d
        ensures d in left <==> d in hasResult && !ListsResult(walk, d)
      {
        assert (d, "result.json") in removed <==> ListsResult(walk, d);
      }
    }
    written := EstimatePass(dirs, left, estimate);
  }
}
