/**
 * The test-case records of the batch-testing scripts, the nested directory
 * tree they are grouped in, the walk over that tree, and the loop that lays
 * each case out as `<group path>/case_<i>/metadata.json`.
 */
module TestCases {
  import opened Wrappers
  import opened Json
  import opened Text
  import opened PyPath

  /**
   * A test case: the eight attributes its constructor sets, and every other
   * attribute a script assigns to it afterwards.
   */
  datatype TestCase = TestCase(
    foodName: string,
    weight: real,
    caseIndex: nat,
    background: string,
    height: real,
    pitch: real,
    roll: real,
    centerDeviation: real,
    extra: map<string, Json<real>>)

  /** `TestCase(food_name, weight, case_index)`, every keyword argument at its default. */
  function NewCase(foodName: string, weight: real, caseIndex: nat): TestCase {
    TestCase(foodName, weight, caseIndex, "Paper", 0.45, 0.0, 0.0, 0.0, map[])
  }

  /**
   * `setattr(case, name, v)`. A constructor attribute takes a value of its own
   * kind; any other assignment becomes an attribute of its own, which nothing
   * else reads.
   */
  function SetAttr(c: TestCase, name: string, v: Json<real>): (r: TestCase)
    ensures r.caseIndex == c.caseIndex
  {
    if name == "food_name" && v.JStr? then c.(foodName := v.s)
    else if name == "weight" && v.JNum? then c.(weight := v.n)
    else if name == "background" && v.JStr? then c.(background := v.s)
    else if name == "height" && v.JNum? then c.(height := v.n)
    else if name == "pitch" && v.JNum? then c.(pitch := v.n)
    else if name == "roll" && v.JNum? then c.(roll := v.n)
    else if name == "center_deviation" && v.JNum? then c.(centerDeviation := v.n)
    else c.(extra := c.extra[name := v])
  }

  /** The members of `metadata.json`. */
  const MetadataKeys: set<string> := {"food_name", "weight", "background", "height", "angle", "center_deviation"}

  /** The attributes `to_json_string` serialises, pitch and roll nested under `angle`. */
  const RecordedAttributes: set<string> := {"food_name", "weight", "background", "height", "pitch", "roll", "center_deviation"}

  /** The document `to_json_string` serialises; the case index and later-added attributes are not in it. */
  function ToJson(c: TestCase): (j: Json<real>)
    ensures j.JObj? && j.fields.Keys == MetadataKeys
    ensures Get(j, "angle").JObj? && Get(j, "angle").fields.Keys == {"pitch", "roll"}
  {
    JObj(map[
      "food_name" := JStr(c.foodName),
      "weight" := JNum(c.weight),
      "background" := JStr(c.background),
      "height" := JNum(c.height),
      "angle" := JObj(map["pitch" := JNum(c.pitch), "roll" := JNum(c.roll)]),
      "center_deviation" := JNum(c.centerDeviation)])
  }

  /** Every recorded attribute reads back out of the document. */
  lemma ToJsonReadsBack(c: TestCase)
    ensures Str(Get(ToJson(c), "food_name")) == Some(c.foodName)
    ensures Double(Get(ToJson(c), "weight")) == Some(c.weight)
    ensures Str(Get(ToJson(c), "background")) == Some(c.background)
    ensures Double(Get(ToJson(c), "height")) == Some(c.height)
    ensures Double(Get(Get(ToJson(c), "angle"), "pitch")) == Some(c.pitch)
    ensures Double(Get(Get(ToJson(c), "angle"), "roll")) == Some(c.roll)
    ensures Double(Get(ToJson(c), "center_deviation")) == Some(c.centerDeviation)
  {
  }

  /** Two cases have the same document exactly when they agree on the seven recorded attributes. */
  lemma ToJsonDeterminedByRecorded(c1: TestCase, c2: TestCase)
    ensures ToJson(c1) == ToJson(c2) <==>
      (c1.foodName == c2.foodName && c1.weight == c2.weight && c1.background == c2.background &&
       c1.height == c2.height && c1.pitch == c2.pitch && c1.roll == c2.roll &&
       c1.centerDeviation == c2.centerDeviation)
  {
    if ToJson(c1) == ToJson(c2) {
      ToJsonReadsBack(c1);
      ToJsonReadsBack(c2);
    }
  }

  /** A freshly constructed case serialises its defaults: a paper background, a height of 0.45 and no tilt or deviation. */
  lemma NewCaseDocument(foodName: string, weight: real, caseIndex: nat)
    ensures var j := ToJson(NewCase(foodName, weight, caseIndex));
      Str(Get(j, "background")) == Some("Paper") && Double(Get(j, "height")) == Some(0.45) &&
      Double(Get(Get(j, "angle"), "pitch")) == Some(0.0) && Double(Get(Get(j, "angle"), "roll")) == Some(0.0) &&
      Double(Get(j, "center_deviation")) == Some(0.0) &&
      Str(Get(j, "food_name")) == Some(foodName) && Double(Get(j, "weight")) == Some(weight)
  {
    ToJsonReadsBack(NewCase(foodName, weight, caseIndex));
  }

  /** Assigning a recorded attribute a value of its kind changes the document in that member only. */
  lemma SetRecordedAttribute(c: TestCase, name: string, v: Json<real>)
    requires name in RecordedAttributes
    requires if name == "food_name" || name == "background" then v.JStr? else v.JNum?
    ensures var j := ToJson(SetAttr(c, name, v));
      if name == "pitch" || name == "roll" then
        Get(Get(j, "angle"), name) == v && j == ToJson(c).(fields := ToJson(c).fields["angle" := Get(j, "angle")])
      else
        Get(j, name) == v && j == ToJson(c).(fields := ToJson(c).fields[name := v])
  {
  }

  /** Assigning any other attribute leaves the document as it was. */
  lemma SetOtherAttribute(c: TestCase, name: string, v: Json<real>)
    requires name !in RecordedAttributes
    ensures ToJson(SetAttr(c, name, v)) == ToJson(c)
  {
  }

  /** `dir_name()`: `case_` followed by the decimal case index. */
  function DirName(c: TestCase): (d: string)
    ensures |d| > 5 && d[..5] == "case_" && AllDigits(d[5..])
    ensures Sep !in d && d[|d| - 1] != Sep
  {
    var digits := NatToString(c.caseIndex);
    assert Sep !in digits by {
      forall k | 0 <= k < |digits| ensures digits[k] != Sep {
        assert IsDigit(digits[k]);
      }
    }
    "case_" + digits
  }

  /** The directory name gives the case index back, so distinct indices give distinct names. */
  lemma DirNameReadsBack(c: TestCase)
    ensures ParseNat(DirName(c)[5..]) == c.caseIndex
  {
    assert DirName(c)[5..] == NatToString(c.caseIndex);
    ParseNatToString(c.caseIndex);
  }

  lemma DirNameInjective(c1: TestCase, c2: TestCase)
    requires DirName(c1) == DirName(c2)
    ensures c1.caseIndex == c2.caseIndex
  {
    DirNameReadsBack(c1);
    DirNameReadsBack(c2);
  }

  /**
   * A nested dictionary of test groups: a directory maps keys, in insertion
   * order, to sub-dictionaries or to a group of cases.
   */
  datatype PathTree = Dir(entries: seq<Entry>) | Leaf(cases: seq<TestCase>)
  datatype Entry = Entry(key: string, child: PathTree)

  /** One item `path_gen` yields: a group of cases and the directory it goes in. */
  datatype Group = Group(cases: seq<TestCase>, path: string)

  /**
   * `path_gen(tree, root)`, from entry `i` of the directory on: a group is
   * yielded for each non-dictionary value, and a dictionary is walked under
   * its key.
   */
  function PathGen(t: PathTree, root: string, i: nat): seq<Group>
    requires t.Dir? && i <= |t.entries|
    decreases t, |t.entries| - i
  {
    if i == |t.entries| then []
    else
      var e := t.entries[i];
      var path := Join(root, e.key);
      (if e.child.Dir? then PathGen(e.child, path, 0) else [Group(e.child.cases, path)])
        + PathGen(t, root, i + 1)
  }

  /** The leaves of a directory from entry `i` on, each with the chain of keys that leads to it, in key order. */
  function LeafChains(t: PathTree, i: nat): seq<(seq<string>, seq<TestCase>)>
    requires t.Dir? && i <= |t.entries|
    decreases t, |t.entries| - i
  {
    if i == |t.entries| then []
    else
      var e := t.entries[i];
      (if e.child.Dir? then Prefixed(e.key, LeafChains(e.child, 0)) else [([e.key], e.child.cases)])
        + LeafChains(t, i + 1)
  }

  function Prefixed(key: string, chains: seq<(seq<string>, seq<TestCase>)>): (r: seq<(seq<string>, seq<TestCase>)>)
    ensures |r| == |chains|
    ensures forall k :: 0 <= k < |r| ==> r[k] == ([key] + chains[k].0, chains[k].1)
  {
    seq(|chains|, k requires 0 <= k < |chains| => ([key] + chains[k].0, chains[k].1))
  }

  /** The groups of a chain list: each leaf in the directory named by joining its key chain onto the root. */
  function AtChains(root: string, chains: seq<(seq<string>, seq<TestCase>)>): (r: seq<Group>)
    ensures |r| == |chains|
    ensures forall k :: 0 <= k < |r| ==> r[k] == Group(chains[k].1, JoinAll(root, chains[k].0))
  {
    seq(|chains|, k requires 0 <= k < |chains| => Group(chains[k].1, JoinAll(root, chains[k].0)))
  }

  lemma AtChainsConcat(root: string, a: seq<(seq<string>, seq<TestCase>)>, b: seq<(seq<string>, seq<TestCase>)>)
    ensures AtChains(root, a + b) == AtChains(root, a) + AtChains(root, b)
  {
  }

  /** Prefixing every chain with a key is the same as starting from the root joined with that key. */
  lemma AtChainsPrefixed(root: string, key: string, chains: seq<(seq<string>, seq<TestCase>)>)
    ensures AtChains(root, Prefixed(key, chains)) == AtChains(Join(root, key), chains)
  {
    forall k | 0 <= k < |chains|
      ensures JoinAll(root, Prefixed(key, chains)[k].0) == JoinAll(Join(root, key), chains[k].0)
    {
      assert ([key] + chains[k].0)[0] == key;
      assert ([key] + chains[k].0)[1..] == chains[k].0;
    }
  }

  /**
   * `path_gen` yields exactly one group per leaf, in key order, each in the
   * root joined with the keys leading to it.
   */
  lemma {:induction false} PathGenFollowsChains(t: PathTree, root: string, i: nat)
    requires t.Dir? && i <= |t.entries|
    ensures PathGen(t, root, i) == AtChains(root, LeafChains(t, i))
    decreases t, |t.entries| - i
  {
    if i < |t.entries| {
      var e := t.entries[i];
      var path := Join(root, e.key);
      PathGenFollowsChains(t, root, i + 1);
      var head := if e.child.Dir? then Prefixed(e.key, LeafChains(e.child, 0)) else [([e.key], e.child.cases)];
      assert LeafChains(t, i) == head + LeafChains(t, i + 1);
      AtChainsConcat(root, head, LeafChains(t, i + 1));
      if e.child.Dir? {
        PathGenFollowsChains(e.child, path, 0);
        AtChainsPrefixed(root, e.key, LeafChains(e.child, 0));
      } else {
        assert JoinAll(root, [e.key]) == JoinAll(path, []);
      }
    }
  }

  /** Where a case of a group is laid out: its directory name under the group's directory. */
  function CaseDir(path: string, c: TestCase): (d: string)
    ensures |d| > 0 && d[|d| - 1] != Sep
  {
    var d := Join(path, DirName(c));
    JoinParts(path, DirName(c));
    assert d[|d| - 1] == DirName(c)[|DirName(c)| - 1];
    d
  }

  /** The metadata file of a case directory. */
  function MetadataPath(dir: string): string {
    Join(dir, "metadata.json")
  }

  /** Every case of every group with its directory, in the order the driver visits them. */
  function Placements(groups: seq<Group>): seq<(string, TestCase)>
    decreases |groups|
  {
    if groups == [] then []
    else Placements(groups[..|groups| - 1]) + GroupPlacements(groups[|groups| - 1])
  }

  function GroupPlacements(g: Group): (r: seq<(string, TestCase)>)
    ensures |r| == |g.cases|
    ensures forall k :: 0 <= k < |r| ==> r[k] == (CaseDir(g.path, g.cases[k]), g.cases[k])
  {
    seq(|g.cases|, k requires 0 <= k < |g.cases| => (CaseDir(g.path, g.cases[k]), g.cases[k]))
  }

  /** No two placements share a directory. */
  predicate DistinctDirs(ps: seq<(string, TestCase)>) {
    forall i, j :: 0 <= i < j < |ps| ==> ps[i].0 != ps[j].0
  }

  lemma PlacementsStep(groups: seq<Group>, n: nat)
    requires n < |groups|
    ensures Placements(groups[..n + 1]) == Placements(groups[..n]) + GroupPlacements(groups[n])
  {
    assert groups[..n + 1][..n] == groups[..n];
  }

  lemma {:induction false} PlacementsPrefix(groups: seq<Group>, n: nat)
    requires n <= |groups|
    ensures Placements(groups[..n]) <= Placements(groups)
    decreases |groups| - n
  {
    if n < |groups| {
      PlacementsStep(groups, n);
      PlacementsPrefix(groups, n + 1);
    } else {
      assert groups[..n] == groups;
    }
  }

  /** Every placement directory is a non-empty path that does not end in a separator. */
  predicate CaseDirs(ps: seq<(string, TestCase)>) {
    forall k :: 0 <= k < |ps| ==> |ps[k].0| > 0 && ps[k].0[|ps[k].0| - 1] != Sep
  }

  lemma {:induction false} PlacementsAreCaseDirs(groups: seq<Group>)
    ensures CaseDirs(Placements(groups))
    decreases |groups|
  {
    if groups != [] {
      PlacementsAreCaseDirs(groups[..|groups| - 1]);
    }
  }

  /** `a` is a directory strictly above `d`: a proper prefix of `d` that a separator follows. */
  predicate Under(a: string, d: string) {
    0 < |a| < |d| && d[|a|] == Sep && d[..|a|] == a
  }

  /** What `os.makedirs(d)` leaves on disk: `d` and every directory above it. */
  function Footprint(d: string): (r: set<string>)
    ensures forall a :: a in r <==> a == d || Under(a, d)
  {
    {d} + set k | 0 < k < |d| && d[k] == Sep :: d[..k]
  }

  /**
   * Laying a case out in `d` fails once a case sits in `e`: `d` is `e` or a
   * directory above it, or it is `e`'s metadata file or lies below that file.
   */
  predicate Blocks(e: string, d: string) {
    d == e || Under(d, e) || d == MetadataPath(e) || Under(MetadataPath(e), d)
  }

  /** Every placement can be laid out after the ones before it. */
  predicate Creatable(ps: seq<(string, TestCase)>) {
    forall i, j :: 0 <= i < j < |ps| ==> !Blocks(ps[i].0, ps[j].0)
  }

  /** Laying a case out in `d` fails because of an earlier placement. */
  predicate Refused(ps: seq<(string, TestCase)>, d: string) {
    exists i, j :: 0 <= i < j < |ps| && ps[j].0 == d && Blocks(ps[i].0, d)
  }

  /** Placements that can all be laid out have distinct directories. */
  lemma CreatableDistinct(ps: seq<(string, TestCase)>)
    requires Creatable(ps)
    ensures DistinctDirs(ps)
  {
    forall i, j | 0 <= i < j < |ps| ensures ps[i].0 != ps[j].0 {
      assert !Blocks(ps[i].0, ps[j].0);
    }
  }

  /** The directories on disk after a sequence of placements. */
  function MadeOf(ps: seq<(string, TestCase)>): set<string>
    decreases |ps|
  {
    if ps == [] then {} else MadeOf(ps[..|ps| - 1]) + Footprint(ps[|ps| - 1].0)
  }

  /** The metadata files written for a sequence of placements, a later write replacing an earlier one. */
  function MetadataOf(ps: seq<(string, TestCase)>): map<string, Json<real>>
    decreases |ps|
  {
    if ps == [] then map[]
    else MetadataOf(ps[..|ps| - 1])[MetadataPath(ps[|ps| - 1].0) := ToJson(ps[|ps| - 1].1)]
  }

  lemma MadeOfAppend(ps: seq<(string, TestCase)>, x: (string, TestCase))
    ensures MadeOf(ps + [x]) == MadeOf(ps) + Footprint(x.0)
    ensures MetadataOf(ps + [x]) == MetadataOf(ps)[MetadataPath(x.0) := ToJson(x.1)]
  {
    assert (ps + [x])[..|ps|] == ps;
  }

  lemma {:induction false} InMadeOf(ps: seq<(string, TestCase)>, d: string)
    ensures d in MadeOf(ps) <==> exists k :: 0 <= k < |ps| && d in Footprint(ps[k].0)
    decreases |ps|
  {
    if ps != [] {
      var init := ps[..|ps| - 1];
      InMadeOf(init, d);
      if d in MadeOf(init) {
        var k :| 0 <= k < |init| && d in Footprint(init[k].0);
        assert ps[k] == init[k];
      }
      if exists k :: 0 <= k < |ps| && d in Footprint(ps[k].0) {
        var k :| 0 <= k < |ps| && d in Footprint(ps[k].0);
        if k < |init| {
          assert init[k] == ps[k];
        }
      }
    }
  }

  lemma {:induction false} InMetadataOf(ps: seq<(string, TestCase)>, p: string)
    ensures p in MetadataOf(ps) <==> exists k :: 0 <= k < |ps| && p == MetadataPath(ps[k].0)
    decreases |ps|
  {
    if ps != [] {
      var init := ps[..|ps| - 1];
      InMetadataOf(init, p);
      if p in MetadataOf(init) {
        var k :| 0 <= k < |init| && p == MetadataPath(init[k].0);
        assert ps[k] == init[k];
      }
      if exists k :: 0 <= k < |ps| && p == MetadataPath(ps[k].0) {
        var k :| 0 <= k < |ps| && p == MetadataPath(ps[k].0);
        if k < |init| {
          assert init[k] == ps[k];
        }
      }
    }
  }

  /** When the directories are distinct, every placement's file holds that placement's document. */
  lemma {:induction false} MetadataOfValues(ps: seq<(string, TestCase)>)
    requires DistinctDirs(ps) && CaseDirs(ps)
    ensures forall k :: 0 <= k < |ps| ==>
      MetadataPath(ps[k].0) in MetadataOf(ps) && MetadataOf(ps)[MetadataPath(ps[k].0)] == ToJson(ps[k].1)
    decreases |ps|
  {
    if ps != [] {
      var n := |ps| - 1;
      var init := ps[..n];
      assert DistinctDirs(init) && CaseDirs(init) by {
        forall k | 0 <= k < n ensures init[k] == ps[k] { }
      }
      MetadataOfValues(init);
      forall k | 0 <= k < n
        ensures MetadataPath(ps[k].0) != MetadataPath(ps[n].0)
      {
        if MetadataPath(ps[k].0) == MetadataPath(ps[n].0) {
          MetadataPathInjective(ps[k].0, ps[n].0);
        }
      }
      forall k | 0 <= k < n ensures init[k] == ps[k] { }
    }
  }

  /** The metadata paths of distinct case directories are distinct. */
  lemma MetadataPathInjective(d1: string, d2: string)
    requires |d1| > 0 && d1[|d1| - 1] != Sep && |d2| > 0 && d2[|d2| - 1] != Sep
    requires MetadataPath(d1) == MetadataPath(d2)
    ensures d1 == d2
  {
    var s := "metadata.json";
    assert MetadataPath(d1) == d1 + [Sep] + s;
    assert MetadataPath(d2) == d2 + [Sep] + s;
    assert |d1| == |d2|;
    assert d1 == MetadataPath(d1)[..|d1|];
  }

  /** Every placement's metadata file holds its case's document. */
  predicate AllWritten(ps: seq<(string, TestCase)>, files: map<string, Json<real>>) {
    forall i :: 0 <= i < |ps| ==> MetadataPath(ps[i].0) in files && files[MetadataPath(ps[i].0)] == ToJson(ps[i].1)
  }

  /** Every file written is the metadata file of some placement. */
  predicate OnlyPlacements(ps: seq<(string, TestCase)>, files: map<string, Json<real>>) {
    forall p :: p in files ==> exists i :: 0 <= i < |ps| && p == MetadataPath(ps[i].0)
  }

  lemma PrefixStep<T>(a: seq<T>, b: seq<T>, n: nat)
    requires n < |b|
    ensures a + b[..n] + [b[n]] == (a + b)[..|a| + n + 1]
    ensures a + b[..n] + [b[n]] == a + b[..n + 1]
  {
    assert b[..n] + [b[n]] == b[..n + 1];
  }

  /**
   * `os.makedirs(d)` raises when `d` is already on disk, as a directory or a
   * file, or when a file stands where a directory above `d` should go. The
   * metadata file opened next lies in a directory made just now, so nothing
   * is in its way.
   */
  function Refuses(made: set<string>, files: map<string, Json<real>>, d: string): bool {
    d in made || d in files || exists k :: 0 < k < |d| && d[k] == Sep && d[..k] in files
  }

  /** On the disk a sequence of placements leaves, `d` is refused exactly when an earlier placement blocks it. */
  lemma RefusesExactly(ps: seq<(string, TestCase)>, d: string)
    ensures Refuses(MadeOf(ps), MetadataOf(ps), d) <==> exists i :: 0 <= i < |ps| && Blocks(ps[i].0, d)
  {
    InMadeOf(ps, d);
    InMetadataOf(ps, d);
    if exists k :: 0 < k < |d| && d[k] == Sep && d[..k] in MetadataOf(ps) {
      var k :| 0 < k < |d| && d[k] == Sep && d[..k] in MetadataOf(ps);
      InMetadataOf(ps, d[..k]);
      var i :| 0 <= i < |ps| && d[..k] == MetadataPath(ps[i].0);
      assert Under(MetadataPath(ps[i].0), d);
    }
    if exists i :: 0 <= i < |ps| && Under(MetadataPath(ps[i].0), d) {
      var i :| 0 <= i < |ps| && Under(MetadataPath(ps[i].0), d);
      var k := |MetadataPath(ps[i].0)|;
      InMetadataOf(ps, d[..k]);
      assert d[..k] in MetadataOf(ps);
    }
  }

  /** Laying a case out where no earlier placement blocks it keeps the placements creatable. */
  lemma Extend(done: seq<(string, TestCase)>, x: (string, TestCase))
    requires Creatable(done)
    requires forall i :: 0 <= i < |done| ==> !Blocks(done[i].0, x.0)
    ensures Creatable(done + [x])
    ensures MadeOf(done + [x]) == MadeOf(done) + Footprint(x.0)
    ensures MetadataOf(done + [x]) == MetadataOf(done)[MetadataPath(x.0) := ToJson(x.1)]
  {
    MadeOfAppend(done, x);
    var ps := done + [x];
    forall i, j | 0 <= i < j < |ps| ensures !Blocks(ps[i].0, ps[j].0) {
      if j < |done| {
        assert ps[i] == done[i] && ps[j] == done[j];
        assert !Blocks(done[i].0, done[j].0);
      } else {
        assert ps[i] == done[i] && ps[j] == x;
        assert !Blocks(done[i].0, x.0);
      }
    }
  }

  lemma ClashInPrefix(ps: seq<(string, TestCase)>, done: seq<(string, TestCase)>, x: (string, TestCase))
    requires done + [x] <= ps
    requires exists i :: 0 <= i < |done| && Blocks(done[i].0, x.0)
    ensures Refused(ps, x.0) && !Creatable(ps)
  {
    var i :| 0 <= i < |done| && Blocks(done[i].0, x.0);
    assert ps[i] == done[i] && ps[|done|] == x;
  }

  lemma OnlyPlacementsOfPrefix(ps: seq<(string, TestCase)>, done: seq<(string, TestCase)>)
    requires done <= ps
    ensures OnlyPlacements(ps, MetadataOf(done))
  {
    forall p | p in MetadataOf(done)
      ensures exists i :: 0 <= i < |ps| && p == MetadataPath(ps[i].0)
    {
      InMetadataOf(done, p);
      var i :| 0 <= i < |done| && p == MetadataPath(done[i].0);
      assert ps[i] == done[i];
    }
  }

  /** One step of the inner loop: a case no earlier placement blocks is laid out, with its directories and its file. */
  lemma WriteStep(done: seq<(string, TestCase)>, g: Group, ci: nat)
    requires ci < |g.cases|
    requires Creatable(done + GroupPlacements(g)[..ci])
    requires forall i :: 0 <= i < |done + GroupPlacements(g)[..ci]| ==>
      !Blocks((done + GroupPlacements(g)[..ci])[i].0, GroupPlacements(g)[ci].0)
    ensures Creatable(done + GroupPlacements(g)[..ci + 1])
    ensures MadeOf(done + GroupPlacements(g)[..ci + 1]) ==
      MadeOf(done + GroupPlacements(g)[..ci]) + Footprint(GroupPlacements(g)[ci].0)
    ensures MetadataOf(done + GroupPlacements(g)[..ci + 1]) ==
      MetadataOf(done + GroupPlacements(g)[..ci])[MetadataPath(GroupPlacements(g)[ci].0) := ToJson(GroupPlacements(g)[ci].1)]
  {
    PrefixStep(done, GroupPlacements(g), ci);
    Extend(done + GroupPlacements(g)[..ci], GroupPlacements(g)[ci]);
  }

  /**
   * The inner loop of the driver, over the cases of one group: make each
   * case's directory with the directories above it and write its metadata,
   * stopping at the first case `os.makedirs` refuses.
   */
  method WriteGroup(g: Group, made: set<string>, files: map<string, Json<real>>, ghost done: seq<(string, TestCase)>)
    returns (made': set<string>, files': map<string, Json<real>>, clash: Option<string>, ghost n: nat)
    requires Creatable(done) && made == MadeOf(done) && files == MetadataOf(done)
    ensures n <= |g.cases|
    ensures files' == MetadataOf(done + GroupPlacements(g)[..n])
    ensures clash.None? ==> n == |g.cases| && Creatable(done + GroupPlacements(g))
    ensures clash.None? ==> made' == MadeOf(done + GroupPlacements(g)) && files' == MetadataOf(done + GroupPlacements(g))
    ensures clash.Some? ==> n < |g.cases| && clash.value == GroupPlacements(g)[n].0
    ensures clash.Some? ==> Creatable(done + GroupPlacements(g)[..n])
    ensures clash.Some? ==>
      exists i :: 0 <= i < |done + GroupPlacements(g)[..n]| && Blocks((done + GroupPlacements(g)[..n])[i].0, clash.value)
  {
    ghost var cur := done;
    made', files' := made, files;
    var ci := 0;
    while ci < |g.cases|
      invariant 0 <= ci <= |g.cases|
      invariant cur == done + GroupPlacements(g)[..ci]
      invariant Creatable(cur)
      invariant made' == MadeOf(cur) && files' == MetadataOf(cur)
    {
      var c := g.cases[ci];
      var dir := CaseDir(g.path, c);
      assert GroupPlacements(g)[ci] == (dir, c);
      RefusesExactly(cur, dir);
      if Refuses(made', files', dir) {
        clash, n := Some(dir), ci;
        return;
      }
      WriteStep(done, g, ci);
      made' := made' + Footprint(dir);
      files' := files'[MetadataPath(dir) := ToJson(c)];
      cur := done + GroupPlacements(g)[..ci + 1];
      ci := ci + 1;
    }
    assert GroupPlacements(g)[..ci] == GroupPlacements(g);
    clash, n := None, ci;
  }

  /** A case of group `gi` that an earlier placement blocks is refused, and the files written up to it belong to placements. */
  lemma RefusedInGroup(groups: seq<Group>, gi: nat, n: nat, d: string)
    requires gi < |groups| && n < |groups[gi].cases|
    requires d == GroupPlacements(groups[gi])[n].0
    requires var done := Placements(groups[..gi]) + GroupPlacements(groups[gi])[..n];
      exists i :: 0 <= i < |done| && Blocks(done[i].0, d)
    ensures Refused(Placements(groups), d) && !Creatable(Placements(groups))
    ensures OnlyPlacements(Placements(groups), MetadataOf(Placements(groups[..gi]) + GroupPlacements(groups[gi])[..n]))
  {
    var g := groups[gi];
    var done := Placements(groups[..gi]);
    PlacementsStep(groups, gi);
    PlacementsPrefix(groups, gi + 1);
    PrefixStep(done, GroupPlacements(g), n);
    ClashInPrefix(Placements(groups), done + GroupPlacements(g)[..n], GroupPlacements(g)[n]);
    OnlyPlacementsOfPrefix(Placements(groups), done + GroupPlacements(g)[..n]);
  }

  /** Element `n` of `b` inside a run that starts with `a + b` sits at `|a| + n`, after the run's first `|a| + n` elements `a + b[..n]`. */
  lemma PrefixAt<T>(all: seq<T>, a: seq<T>, b: seq<T>, n: nat)
    requires a + b <= all && n < |b|
    ensures |a| + n < |all| && all[|a| + n] == b[n]
    ensures all[..|a| + n] == a + b[..n]
  {
    assert all[..|a| + n] == (a + b)[..|a| + n];
    assert (a + b)[..|a| + n] == a + b[..n];
  }

  /**
   * The driver: for each group `path_gen` yields and each case in it, create
   * the case directory and the directories above it, then write the case's
   * document into `metadata.json`. A directory `os.makedirs` refuses raises,
   * which ends the run: the refused placement is the first one, and the files
   * are exactly those of the placements before it.
   */
  method Generate(groups: seq<Group>) returns (files: map<string, Json<real>>, clash: Option<string>)
    ensures clash.None? <==> Creatable(Placements(groups))
    ensures clash.Some? ==> Refused(Placements(groups), clash.value)
    ensures clash.Some? ==>
      (exists n :: 0 <= n < |Placements(groups)| &&
         Placements(groups)[n].0 == clash.value && Creatable(Placements(groups)[..n]) &&
         files == MetadataOf(Placements(groups)[..n]))
    ensures clash.None? ==> AllWritten(Placements(groups), files)
    ensures OnlyPlacements(Placements(groups), files)
  {
    ghost var done: seq<(string, TestCase)> := [];
    var made: set<string> := {};
    files := map[];
    var gi := 0;
    while gi < |groups|
      invariant 0 <= gi <= |groups|
      invariant done == Placements(groups[..gi])
      invariant Creatable(done)
      invariant made == MadeOf(done) && files == MetadataOf(done)
    {
      var g := groups[gi];
      ghost var n;
      made, files, clash, n := WriteGroup(g, made, files, done);
      PlacementsStep(groups, gi);
      PlacementsPrefix(groups, gi + 1);
      if clash.Some? {
        RefusedInGroup(groups, gi, n, clash.value);
        PrefixAt(Placements(groups), done, GroupPlacements(g), n);
        assert Placements(groups)[|done| + n].0 == clash.value;
        return;
      }
      done := done + GroupPlacements(g);
      gi := gi + 1;
    }
    assert groups[..gi] == groups;
    PlacementsAreCaseDirs(groups);
    CreatableDistinct(done);
    MetadataOfValues(done);
    OnlyPlacementsOfPrefix(done, done);
    clash := None;
  }

  /**
   * A group laid out in an earlier case's directory is refused: the second
   * group's case directory is made by the first group's `os.makedirs`.
   */
  lemma NestedGroupRefused()
    ensures var c := NewCase("a", 1.0, 0);
      var ps := Placements([Group([c], "r/x/case_0"), Group([c], "r/x")]);
      |ps| == 2 && ps[1].0 == "r/x/case_0" && Refused(ps, "r/x/case_0") && !Creatable(ps)
  {
    var c := NewCase("a", 1.0, 0);
    var gs := [Group([c], "r/x/case_0"), Group([c], "r/x")];
    assert NatToString(0) == "0";
    assert DirName(c) == "case_0";
    var d0, d1 := CaseDir(gs[0].path, c), CaseDir(gs[1].path, c);
    assert d0 == "r/x/case_0/case_0" && d1 == "r/x/case_0";
    assert gs[..1][..0] == [];
    assert Placements(gs[..1]) == [(d0, c)];
    var ps := Placements(gs);
    assert ps == [(d0, c), (d1, c)];
    assert d0[..|d1|] == d1;
    assert Under(d1, d0);
    assert Blocks(ps[0].0, ps[1].0);
  }


  /** Everything before the last separator of a path. */
  function Parent(d: string): string
    decreases |d|
  {
    if |d| == 0 then "" else if d[|d| - 1] == Sep then d[..|d| - 1] else Parent(d[..|d| - 1])
  }

  lemma {:induction false} ParentOfChild(p: string, name: string)
    requires Sep !in name
    ensures Parent(p + [Sep] + name) == p
    decreases |name|
  {
    var d := p + [Sep] + name;
    if name == [] {
      assert d[..|d| - 1] == p;
    } else {
      assert name[|name| - 1] in name;
      assert d[..|d| - 1] == p + [Sep] + name[..|name| - 1];
      ParentOfChild(p, name[..|name| - 1]);
    }
  }

  /** A directory a group can be laid out in: a non-empty path that does not end in a separator. */
  predicate GroupDir(p: string) {
    |p| > 0 && p[|p| - 1] != Sep
  }

  /** No two cases of a group share an index. */
  predicate DistinctIndices(cases: seq<TestCase>) {
    forall i, j :: 0 <= i < j < |cases| ==> cases[i].caseIndex != cases[j].caseIndex
  }

  function Paths(groups: seq<Group>): (r: seq<string>)
    ensures |r| == |groups| && forall a :: 0 <= a < |r| ==> r[a] == groups[a].path
  {
    seq(|groups|, a requires 0 <= a < |groups| => groups[a].path)
  }

  /** A case of a group sits directly under the group's directory. */
  lemma CaseDirUnderGroup(path: string, c: TestCase)
    requires GroupDir(path)
    ensures CaseDir(path, c) == path + [Sep] + DirName(c)
    ensures Parent(CaseDir(path, c)) == path
  {
    ParentOfChild(path, DirName(c));
  }

  /** Two group directories neither of which is, or lies inside, the other. */
  predicate Apart(p: string, q: string) {
    p != q && !Under(p, q) && !Under(q, p)
  }

  lemma UnderChild(a: string, p: string, n: string)
    requires Sep !in n && Under(a, p + [Sep] + n)
    ensures a == p || Under(a, p)
  {
    var d := p + [Sep] + n;
    if |a| == |p| {
      assert a == d[..|p|];
    } else if |a| < |p| {
      assert p[..|a|] == d[..|a|];
    }
  }

  lemma UnderChildOf(p: string, n: string)
    requires |p| > 0
    ensures Under(p, p + [Sep] + n)
  {
    assert (p + [Sep] + n)[..|p|] == p;
  }

  lemma UnderTrans(a: string, b: string, c: string)
    requires Under(a, b) && Under(b, c)
    ensures Under(a, c)
  {
    assert c[..|a|] == c[..|b|][..|a|];
  }

  lemma ChildEq(p: string, n: string, q: string, m: string)
    requires Sep !in n && Sep !in m && p + [Sep] + n == q + [Sep] + m
    ensures p == q && n == m
  {
    ParentOfChild(p, n);
    ParentOfChild(q, m);
    assert (p + [Sep] + n)[|p| + 1..] == n;
    assert (q + [Sep] + m)[|q| + 1..] == m;
  }

  /** A path that has a non-empty parent is that parent, a separator and a last part free of separators. */
  lemma {:induction false} ParentSplit(d: string)
    requires |Parent(d)| > 0
    ensures |Parent(d)| < |d| && d[..|Parent(d)|] == Parent(d) && d[|Parent(d)|] == Sep
    ensures Sep !in d[|Parent(d)| + 1..]
    decreases |d|
  {
    var init := d[..|d| - 1];
    if d[|d| - 1] != Sep {
      ParentSplit(init);
      var p := Parent(init);
      assert d[|p| + 1..] == init[|p| + 1..] + [d[|d| - 1]];
      assert d[..|p|] == init[..|p|];
    }
  }

  /**
   * Two case directories, in group directories that are apart or in the same
   * group directory under different names, never block one another.
   */
  lemma ChildrenApart(p: string, n: string, q: string, m: string)
    requires GroupDir(p) && GroupDir(q) && |n| > 0 && |m| > 0 && Sep !in n && Sep !in m
    requires Apart(p, q) || (p == q && n != m)
    ensures !Blocks(p + [Sep] + n, q + [Sep] + m)
  {
    var e, d := p + [Sep] + n, q + [Sep] + m;
    assert n[|n| - 1] in n;
    var meta := MetadataPath(e);
    assert e[|e| - 1] == n[|n| - 1];
    JoinAfter(e, "metadata.json");
    assert meta == e + [Sep] + "metadata.json";
    UnderChildOf(p, n);
    UnderChildOf(q, m);
    UnderChildOf(e, "metadata.json");
    if d == e {
      ChildEq(q, m, p, n);
    }
    if Under(d, e) {
      UnderChild(d, p, n);
      if d != p {
        UnderTrans(q, d, p);
      }
    }
    if d == meta {
      ChildEq(q, m, e, "metadata.json");
    }
    if Under(meta, d) {
      UnderChild(meta, q, m);
      UnderTrans(p, e, meta);
      if meta != q {
        UnderTrans(p, meta, q);
      }
    }
  }

  /** Two paths that extend a common prefix and differ at some position of the extensions are apart. */
  lemma DivergeApart(p: string, x: string, y: string, i: nat)
    requires i < |x| && i < |y| && x[i] != y[i]
    ensures Apart(p + x, p + y)
  {
    assert (p + x)[|p| + i] == x[i] && (p + y)[|p| + i] == y[i];
  }

  lemma CreatableConcat(a: seq<(string, TestCase)>, b: seq<(string, TestCase)>)
    requires Creatable(a) && Creatable(b)
    requires forall i, j :: 0 <= i < |a| && 0 <= j < |b| ==> !Blocks(a[i].0, b[j].0)
    ensures Creatable(a + b)
  {
    forall i, j | 0 <= i < j < |a + b| ensures !Blocks((a + b)[i].0, (a + b)[j].0) {
      if j < |a| {
        assert (a + b)[i] == a[i] && (a + b)[j] == a[j];
      } else if i >= |a| {
        assert (a + b)[i] == b[i - |a|] && (a + b)[j] == b[j - |a|];
      } else {
        assert (a + b)[i] == a[i] && (a + b)[j] == b[j - |a|];
      }
    }
  }

  /** Every case directory sits directly under its group's directory. */
  lemma {:induction false} PlacementsUnderGroups(groups: seq<Group>)
    requires forall a :: 0 <= a < |groups| ==> GroupDir(groups[a].path)
    ensures forall k :: 0 <= k < |Placements(groups)| ==> Parent(Placements(groups)[k].0) in Paths(groups)
    decreases |groups|
  {
    if groups != [] {
      var n := |groups| - 1;
      var init, g := groups[..n], groups[n];
      PlacementsUnderGroups(init);
      var a: seq<(string, TestCase)>, b: seq<(string, TestCase)> := Placements(init), GroupPlacements(g);
      forall k | 0 <= k < |a + b| ensures Parent((a + b)[k].0) in Paths(groups) {
        if k < |a| {
          var x :| 0 <= x < |init| && Paths(init)[x] == Parent(a[k].0);
          assert Paths(groups)[x] == groups[x].path == init[x].path;
        } else {
          assert (a + b)[k] == b[k - |a|];
          CaseDirUnderGroup(g.path, g.cases[k - |a|]);
          assert Paths(groups)[n] == g.path;
        }
      }
    }
  }

  /**
   * Groups whose directories are pairwise apart, each with distinct case
   * indices, can be laid out without `os.makedirs` refusing a case.
   */
  lemma {:induction false} DistinctLayout(groups: seq<Group>)
    requires forall a :: 0 <= a < |groups| ==> GroupDir(groups[a].path) && DistinctIndices(groups[a].cases)
    requires forall a, b :: 0 <= a < b < |groups| ==> Apart(groups[a].path, groups[b].path)
    ensures Creatable(Placements(groups))
    decreases |groups|
  {
    if groups != [] {
      var n := |groups| - 1;
      var init, g := groups[..n], groups[n];
      DistinctLayout(init);
      PlacementsUnderGroups(init);
      PlacementsAreCaseDirs(init);
      var a, b := Placements(init), GroupPlacements(g);
      forall j | 0 <= j < |b| ensures b[j].0 == g.path + [Sep] + DirName(g.cases[j]) {
        CaseDirUnderGroup(g.path, g.cases[j]);
      }
      assert Creatable(b) by {
        forall i, j | 0 <= i < j < |b| ensures !Blocks(b[i].0, b[j].0) {
          if DirName(g.cases[i]) == DirName(g.cases[j]) {
            DirNameInjective(g.cases[i], g.cases[j]);
          }
          ChildrenApart(g.path, DirName(g.cases[i]), g.path, DirName(g.cases[j]));
        }
      }
      forall i, j | 0 <= i < |a| && 0 <= j < |b| ensures !Blocks(a[i].0, b[j].0) {
        var x :| 0 <= x < |init| && Paths(init)[x] == Parent(a[i].0);
        assert groups[x] == init[x];
        var d := a[i].0;
        var p := Parent(d);
        ParentSplit(d);
        var name := d[|p| + 1..];
        assert d == p + [Sep] + name;
        assert |name| > 0;
        ChildrenApart(p, name, g.path, DirName(g.cases[j]));
      }
      CreatableConcat(a, b);
    }
  }
}
