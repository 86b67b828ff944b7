/**
 * The stand-alone generator of an error-tolerance test tree: one food entity,
 * a reference case and five groups that vary one attribute each.
 */
module DirGenerator {
  import opened Wrappers
  import opened Json
  import opened PyPath
  import opened TestCases

  const FoodName: string := "McDouble"
  const FoodWeight: real := 0.132
  const Root: string := "/Volumes/tsanchen/carbs_estimate/error_tolerance_test"

  const Heights: seq<real> := [0.4, 0.5, 0.55, 0.6]
  /** The pitch and the roll groups use the same angles, in degrees. */
  const Angles: seq<real> := [-2.0, -4.0, -6.0, -8.0, -10.0, -15.0, -20.0, -25.0, -30.0,
                              2.0, 4.0, 6.0, 8.0, 10.0, 15.0, 20.0, 25.0, 30.0]
  const Backgrounds: seq<string> := ["Wood table 76-660", "Cupboard 76-651", "Dining table 76-651", "Window table 76-651"]
  const Deviations: seq<real> := [0.02, 0.04, 0.06, 0.08, 0.10]

  /** The case with index `i` and every attribute at its default. */
  function Base(i: nat): TestCase {
    NewCase(FoodName, FoodWeight, i)
  }

  function Reference(): seq<TestCase> {
    [Base(0)]
  }

  function HeightVar(): (r: seq<TestCase>)
    ensures |r| == 4 && forall i :: 0 <= i < |r| ==> r[i].caseIndex == i
  {
    seq(|Heights|, i requires 0 <= i < |Heights| => Base(i).(height := Heights[i]))
  }

  function PitchVar(): (r: seq<TestCase>)
    ensures |r| == 18 && forall i :: 0 <= i < |r| ==> r[i].caseIndex == i
  {
    seq(|Angles|, i requires 0 <= i < |Angles| => Base(i).(pitch := Angles[i]))
  }

  function RollVar(): (r: seq<TestCase>)
    ensures |r| == 18 && forall i :: 0 <= i < |r| ==> r[i].caseIndex == i
  {
    seq(|Angles|, i requires 0 <= i < |Angles| => Base(i).(roll := Angles[i]))
  }

  function BackgroundVar(): (r: seq<TestCase>)
    ensures |r| == 4 && forall i :: 0 <= i < |r| ==> r[i].caseIndex == i
  {
    seq(|Backgrounds|, i requires 0 <= i < |Backgrounds| => Base(i).(background := Backgrounds[i]))
  }

  function PositionVar(): (r: seq<TestCase>)
    ensures |r| == 5 && forall i :: 0 <= i < |r| ==> r[i].caseIndex == i
  {
    seq(|Deviations|, i requires 0 <= i < |Deviations| => Base(i).(centerDeviation := Deviations[i]))
  }

  /** The `angle_var` dictionary: the pitch group, then the roll group. */
  function AngleDir(): PathTree {
    Dir([Entry("pitch", Leaf(PitchVar())), Entry("roll", Leaf(RollVar()))])
  }

  /** The `burger` dictionary: the reference case and the five variate groups. */
  function BurgerDir(): PathTree {
    Dir([
      Entry("reference", Leaf(Reference())),
      Entry("height_var", Leaf(HeightVar())),
      Entry("angle_var", AngleDir()),
      Entry("background_var", Leaf(BackgroundVar())),
      Entry("position_var", Leaf(PositionVar()))])
  }

  /** The dictionary the script walks: `burger` over the six groups, pitch and roll nested under `angle_var`. */
  function BurgerTree(): PathTree {
    Dir([Entry("burger", BurgerDir())])
  }

  const Burger: string := Root + "/burger"

  /** The groups the walk yields, in the order the dictionary lists them. */
  function BurgerGroups(): seq<Group> {
    [Group(Reference(), Burger + "/reference"),
     Group(HeightVar(), Burger + "/height_var"),
     Group(PitchVar(), Burger + "/angle_var/pitch"),
     Group(RollVar(), Burger + "/angle_var/roll"),
     Group(BackgroundVar(), Burger + "/background_var"),
     Group(PositionVar(), Burger + "/position_var")]
  }

  /** An `angle_var` dictionary over any two case lists yields its pitch group, then its roll group. */
  lemma AngleWalk(pitch: seq<TestCase>, roll: seq<TestCase>)
    ensures PathGen(Dir([Entry("pitch", Leaf(pitch)), Entry("roll", Leaf(roll))]), Burger + "/angle_var", 0) ==
      [Group(pitch, Burger + "/angle_var/pitch"), Group(roll, Burger + "/angle_var/roll")]
  {
    var angle := Dir([Entry("pitch", Leaf(pitch)), Entry("roll", Leaf(roll))]);
    var anglePath := Burger + "/angle_var";
    assert Join(anglePath, "pitch") == Burger + "/angle_var/pitch";
    assert Join(anglePath, "roll") == Burger + "/angle_var/roll";
    assert PathGen(angle, anglePath, 2) == [];
    assert PathGen(angle, anglePath, 1) == [Group(roll, Burger + "/angle_var/roll")];
  }

  /** The keys of the `burger` dictionary joined onto its directory. */
  lemma BurgerJoins()
    ensures Join(Burger, "reference") == Burger + "/reference"
    ensures Join(Burger, "height_var") == Burger + "/height_var"
    ensures Join(Burger, "angle_var") == Burger + "/angle_var"
    ensures Join(Burger, "background_var") == Burger + "/background_var"
    ensures Join(Burger, "position_var") == Burger + "/position_var"
  {
  }

  /** A `burger` dictionary of this shape over any six case lists yields its groups in dictionary order. */
  lemma BurgerWalkOf(reference: seq<TestCase>, height: seq<TestCase>, pitch: seq<TestCase>,
                     roll: seq<TestCase>, background: seq<TestCase>, position: seq<TestCase>)
    ensures PathGen(Dir([
        Entry("reference", Leaf(reference)),
        Entry("height_var", Leaf(height)),
        Entry("angle_var", Dir([Entry("pitch", Leaf(pitch)), Entry("roll", Leaf(roll))])),
        Entry("background_var", Leaf(background)),
        Entry("position_var", Leaf(position))]), Burger, 0) ==
      [Group(reference, Burger + "/reference"), Group(height, Burger + "/height_var"),
       Group(pitch, Burger + "/angle_var/pitch"), Group(roll, Burger + "/angle_var/roll"),
       Group(background, Burger + "/background_var"), Group(position, Burger + "/position_var")]
  {
    var burger := Dir([
      Entry("reference", Leaf(reference)),
      Entry("height_var", Leaf(height)),
      Entry("angle_var", Dir([Entry("pitch", Leaf(pitch)), Entry("roll", Leaf(roll))])),
      Entry("background_var", Leaf(background)),
      Entry("position_var", Leaf(position))]);
    var g0 := Group(reference, Burger + "/reference");
    var g1 := Group(height, Burger + "/height_var");
    var g2 := Group(pitch, Burger + "/angle_var/pitch");
    var g3 := Group(roll, Burger + "/angle_var/roll");
    var g4 := Group(background, Burger + "/background_var");
    var g5 := Group(position, Burger + "/position_var");
    AngleWalk(pitch, roll);
    BurgerJoins();
    assert PathGen(burger, Burger, 5) == [];
    assert PathGen(burger, Burger, 4) == [g5];
    assert PathGen(burger, Burger, 3) == [g4, g5];
    assert PathGen(burger, Burger, 2) == [g2, g3] + [g4, g5];
    assert PathGen(burger, Burger, 1) == [g1] + [g2, g3, g4, g5];
    assert PathGen(burger, Burger, 0) == [g0] + [g1, g2, g3, g4, g5];
  }

  lemma BurgerWalk()
    ensures PathGen(BurgerDir(), Burger, 0) == BurgerGroups()
  {
    BurgerWalkOf(Reference(), HeightVar(), PitchVar(), RollVar(), BackgroundVar(), PositionVar());
  }

  /** Walking the tree from the script's root yields exactly these six groups. */
  lemma WalkYieldsBurgerGroups()
    ensures PathGen(BurgerTree(), Root, 0) == BurgerGroups()
  {
    BurgerWalk();
    assert Join(Root, "burger") == Burger;
    assert PathGen(BurgerTree(), Root, 1) == [];
  }

  lemma IndicesAreDistinct(cases: seq<TestCase>)
    requires forall i :: 0 <= i < |cases| ==> cases[i].caseIndex == i
    ensures DistinctIndices(cases)
  {
  }

  /** The group directories, relative to the entity directory. */
  const Suffixes: seq<string> := ["/reference", "/height_var", "/angle_var/pitch", "/angle_var/roll", "/background_var", "/position_var"]

  /** No group directory of the tree is another one or lies inside another one. */
  lemma GroupPathsApart()
    ensures forall a, b :: 0 <= a < b < |BurgerGroups()| ==> Apart(BurgerGroups()[a].path, BurgerGroups()[b].path)
  {
    var gs := BurgerGroups();
    forall a, b | 0 <= a < b < |gs| ensures Apart(gs[a].path, gs[b].path) {
      assert gs[a].path == Burger + Suffixes[a] && gs[b].path == Burger + Suffixes[b];
      if a == 2 && b == 3 {
        assert Suffixes[2][11] == 'p' && Suffixes[3][11] == 'r';
        DivergeApart(Burger, Suffixes[a], Suffixes[b], 11);
      } else {
        assert Suffixes[0][1] == 'r' && Suffixes[1][1] == 'h' && Suffixes[2][1] == 'a';
        assert Suffixes[3][1] == 'a' && Suffixes[4][1] == 'b' && Suffixes[5][1] == 'p';
        DivergeApart(Burger, Suffixes[a], Suffixes[b], 1);
      }
    }
  }

  lemma GroupsWellFormed()
    ensures forall a :: 0 <= a < |BurgerGroups()| ==>
      GroupDir(BurgerGroups()[a].path) && DistinctIndices(BurgerGroups()[a].cases)
  {
    var gs := BurgerGroups();
    IndicesAreDistinct(HeightVar());
    IndicesAreDistinct(PitchVar());
    IndicesAreDistinct(RollVar());
    IndicesAreDistinct(BackgroundVar());
    IndicesAreDistinct(PositionVar());
    forall a | 0 <= a < |gs| ensures GroupDir(gs[a].path) {
      assert gs[a].path == Burger + Suffixes[a];
      assert gs[a].path[|gs[a].path| - 1] == Suffixes[a][|Suffixes[a]| - 1];
    }
  }

  /**
   * Every case of the tree can be laid out after the ones before it, so the
   * run writes one `metadata.json` per case.
   */
  lemma BurgerLayoutDistinct()
    ensures Creatable(Placements(PathGen(BurgerTree(), Root, 0)))
  {
    WalkYieldsBurgerGroups();
    GroupPathsApart();
    GroupsWellFormed();
    DistinctLayout(BurgerGroups());
  }

  /** The first case visited is the reference case, laid out in `burger/reference/case_0`. */
  lemma FirstPlacement()
    ensures |Placements(BurgerGroups())| > 0
    ensures Placements(BurgerGroups())[0] == (Burger + "/reference/case_0", Base(0))
  {
    var gs := BurgerGroups();
    PlacementsPrefix(gs, 1);
    assert gs[..1][..0] == [];
    assert Placements(gs[..1]) == Placements([]) + GroupPlacements(gs[0]);
    assert DirName(Base(0)) == "case_0";
    assert CaseDir(gs[0].path, Base(0)) == Burger + "/reference/case_0";
  }

  lemma ReferenceMetadataPath(x: string)
    ensures MetadataPath(x + "/reference/case_0") == x + "/reference/case_0/metadata.json"
  {
    var d := "/reference/case_0";
    assert (x + d)[|x + d| - 1] == '0';
    assert d + [Sep] + "metadata.json" == "/reference/case_0/metadata.json";
    assert x + d + [Sep] + "metadata.json" == x + (d + [Sep] + "metadata.json");
  }

  /** The script's run makes every directory once and writes the reference case's document first. */
  method RunGenerator() returns (files: map<string, Json<real>>, clash: Option<string>)
    ensures clash.None?
    ensures Burger + "/reference/case_0/metadata.json" in files
    ensures files[Burger + "/reference/case_0/metadata.json"] == ToJson(Base(0))
  {
    BurgerLayoutDistinct();
    WalkYieldsBurgerGroups();
    files, clash := Generate(PathGen(BurgerTree(), Root, 0));
    FirstPlacement();
    var first := Placements(BurgerGroups())[0];
    assert MetadataPath(first.0) in files && files[MetadataPath(first.0)] == ToJson(first.1);
    ReferenceMetadataPath(Burger);
  }
}
