/** Python's `os.path.join` on POSIX paths. */
module PyPath {
  const Sep: char := '/'

  predicate IsAbsolute(p: string) {
    |p| > 0 && p[0] == Sep
  }

  /** `os.path.join(a, b)`: an absolute `b` replaces `a`; otherwise a separator is put between unless `a` is empty or ends in one. */
  function Join(a: string, b: string): (p: string)
    ensures IsAbsolute(b) ==> p == b
    ensures !IsAbsolute(b) && (|a| == 0 || a[|a| - 1] == Sep) ==> p == a + b
    ensures !IsAbsolute(b) && |a| > 0 && a[|a| - 1] != Sep ==> p == a + [Sep] + b
  {
    if IsAbsolute(b) then b
    else if |a| == 0 || a[|a| - 1] == Sep then a + b
    else a + [Sep] + b
  }

  /** `os.path.join(a, *parts)`. */
  function JoinAll(a: string, parts: seq<string>): string
    decreases |parts|
  {
    if parts == [] then a else JoinAll(Join(a, parts[0]), parts[1..])
  }

  /** A joined path ends with its last part and, for a relative part, begins with the first. */
  lemma JoinParts(a: string, b: string)
    ensures |b| <= |Join(a, b)| && Join(a, b)[|Join(a, b)| - |b|..] == b
    ensures !IsAbsolute(b) ==> |a| <= |Join(a, b)| && Join(a, b)[..|a|] == a
  {
  }

  /** Three parts are joined one after another. */
  lemma JoinAllThree(a: string, x: string, y: string, z: string)
    ensures JoinAll(a, [x, y, z]) == Join(Join(Join(a, x), y), z)
  {
    var p1 := Join(a, x);
    var p2 := Join(p1, y);
    assert [x, y, z][1..] == [y, z];
    assert JoinAll(a, [x, y, z]) == JoinAll(p1, [y, z]);
    assert [y, z][1..] == [z];
    assert JoinAll(p1, [y, z]) == JoinAll(p2, [z]);
    assert [z][1..] == [];
    assert JoinAll(p2, [z]) == JoinAll(Join(p2, z), []);
  }

  /** Joining a relative part after a path that ends in a non-empty part gives a separator, and ends in that part. */
  lemma JoinAfter(p: string, b: string)
    requires |p| > 0 && p[|p| - 1] != Sep && !IsAbsolute(b)
    ensures Join(p, b) == p + [Sep] + b
  {
  }

  lemma LastOfAppend(p: string, x: string)
    requires |x| > 0
    ensures (p + x)[|p + x| - 1] == x[|x| - 1]
  {
  }

  /** Joining relative parts onto a directory ending in a separator puts one separator between each. */
  lemma JoinUnderDirectory(dir: string, x: string, y: string, z: string)
    requires |dir| > 0 && dir[|dir| - 1] == Sep
    requires |x| > 0 && |y| > 0 && !IsAbsolute(x) && !IsAbsolute(y) && !IsAbsolute(z)
    requires x[|x| - 1] != Sep && y[|y| - 1] != Sep
    ensures JoinAll(dir, [x, y, z]) == dir + x + [Sep] + y + [Sep] + z
  {
    JoinAllThree(dir, x, y, z);
    var p1 := dir + x;
    LastOfAppend(dir, x);
    var p2 := p1 + [Sep] + y;
    JoinAfter(p1, y);
    LastOfAppend(p1 + [Sep], y);
    JoinAfter(p2, z);
  }
}
