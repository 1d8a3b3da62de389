/**
 * Chains of navigation steps (`v["a"][0]["b"]`) and the paths they record.
 */
module Navigation {
  import opened Wrappers
  import opened Text
  import opened JJ

  /** One subscript: by key into a dictionary or by index into an array. */
  datatype Step = Key(key: string) | Index(index: Int64)

  /** The text a step adds to the path. */
  function Segment(s: Step): string {
    match s
    case Key(k) => "." + k
    case Index(i) => "[" + IntToString(i as int) + "]"
  }

  /** The step finds the container it expects. */
  predicate Fits(v: JJVal, s: Step) {
    match s
    case Key(_) => v.raw.Some? && v.raw.value.Obj?
    case Index(_) => v.raw.Some? && v.raw.value.Arr?
  }

  function Go(v: JJVal, s: Step): JJVal {
    match s
    case Key(k) => v.AtKey(k)
    case Index(i) => v.AtIndex(i)
  }

  /** The steps applied left to right. */
  function Walk(v: JJVal, steps: seq<Step>): JJVal
    decreases |steps|
  {
    if |steps| == 0 then v else Walk(Go(v, steps[0]), steps[1..])
  }

  /** The segments of the steps, each preceded by the nil marker. */
  function NilTrail(steps: seq<Step>): string
    decreases |steps|
  {
    if |steps| == 0 then "" else "<nil>" + Segment(steps[0]) + NilTrail(steps[1..])
  }

  /** The segments of the steps. */
  function Trail(steps: seq<Step>): string
    decreases |steps|
  {
    if |steps| == 0 then "" else Segment(steps[0]) + Trail(steps[1..])
  }

  /** A step appends its segment, after the nil marker when the container is not there. */
  lemma GoPath(v: JJVal, s: Step)
    ensures Fits(v, s) ==> Go(v, s).path == v.path + Segment(s)
    ensures !Fits(v, s) ==> Go(v, s).path == v.path + "<nil>" + Segment(s) && !Go(v, s).Exists()
  {
    match s
    case Key(k) =>
      assert "<nil>" + "." == "<nil>.";
      assert v.path + "<nil>" + ("." + k) == v.path + "<nil>." + k;
    case Index(i) =>
      var t := IntToString(i as int);
      assert "<nil>" + "[" == "<nil>[";
      assert v.path + "<nil>" + ("[" + t + "]") == v.path + "<nil>[" + t + "]";
  }

  /** A step from nothing finds nothing and marks the path. */
  lemma GoAbsent(v: JJVal, s: Step)
    requires !v.Exists()
    ensures Go(v, s) == JJVal(None, v.path + ("<nil>" + Segment(s)))
  {
    match s
    case Key(k) => NilKeyPath(v.path, k);
    case Index(i) => NilIndexPath(v.path, IntToString(i as int));
  }

  lemma NilKeyPath(p: string, k: string)
    ensures p + "<nil>." + k == p + ("<nil>" + ("." + k))
  {
    assert "<nil>" + ("." + k) == "<nil>." + k;
  }

  lemma NilIndexPath(p: string, t: string)
    ensures p + "<nil>[" + t + "]" == p + ("<nil>" + ("[" + t + "]"))
  {
    assert "<nil>" + ("[" + t + "]") == "<nil>[" + t + "]";
  }

  /** A step from an absent or mistyped value finds nothing, while a fitting step may. */
  lemma GoExists(v: JJVal, s: Step)
    ensures Go(v, s).Exists() ==> Fits(v, s)
    ensures s.Key? && Fits(v, s) ==> (Go(v, s).Exists() <==> s.key in v.raw.value.fields)
    ensures s.Index? && Fits(v, s) ==> (Go(v, s).Exists() <==> 0 <= s.index as int < |v.raw.value.items|)
  {
  }

  /** Paths only grow: each step adds at least one character. */
  lemma {:induction false} WalkExtendsPath(v: JJVal, steps: seq<Step>)
    ensures v.path <= Walk(v, steps).path
    ensures |Walk(v, steps).path| >= |v.path| + |steps|
    decreases |steps|
  {
    if |steps| > 0 {
      var w := Go(v, steps[0]);
      GoPath(v, steps[0]);
      WalkExtendsPath(w, steps[1..]);
      assert v.path <= w.path;
    }
  }

  /** Walking a concatenation is walking one part and then the other. */
  lemma {:induction false} WalkAppend(v: JJVal, a: seq<Step>, b: seq<Step>)
    ensures Walk(v, a + b) == Walk(Walk(v, a), b)
    decreases |a|
  {
    if |a| == 0 {
      assert a + b == b;
    } else {
      assert (a + b)[1..] == a[1..] + b;
      WalkAppend(Go(v, a[0]), a[1..], b);
    }
  }

  /** Once nothing is found, every further step finds nothing and only extends the path with nil-marked segments. */
  lemma {:induction false} AbsentWalk(v: JJVal, steps: seq<Step>)
    requires !v.Exists()
    ensures Walk(v, steps) == JJVal(None, v.path + NilTrail(steps))
    decreases |steps|
  {
    if |steps| == 0 {
      assert v.path + NilTrail(steps) == v.path;
    } else {
      GoAbsent(v, steps[0]);
      AbsentWalk(Go(v, steps[0]), steps[1..]);
      NilTrailStep(v.path, steps);
    }
  }

  /** The nil trail of a non-empty walk is its first marked segment followed by the rest. */
  lemma NilTrailStep(p: string, steps: seq<Step>)
    requires |steps| > 0
    ensures (p + ("<nil>" + Segment(steps[0]))) + NilTrail(steps[1..]) == p + NilTrail(steps)
  {
  }

  /** A walk that finds something went through fitting containers only, so its path has no nil marker. */
  lemma {:induction false} PresentWalk(v: JJVal, steps: seq<Step>)
    requires Walk(v, steps).Exists()
    ensures v.Exists()
    ensures Walk(v, steps).path == v.path + Trail(steps)
    decreases |steps|
  {
    if |steps| > 0 {
      var w := Go(v, steps[0]);
      if !w.Exists() {
        AbsentWalk(w, steps[1..]);
        assert false;
      }
      PresentWalk(w, steps[1..]);
      GoExists(v, steps[0]);
      GoPath(v, steps[0]);
      assert v.path + Segment(steps[0]) + Trail(steps[1..]) == v.path + Trail(steps);
    }
  }

  /**
   * The path of any chain: the plain segments while something is found, then
   * the first step that finds nothing (after the nil marker if its container
   * was not there), then a nil-marked segment for every further step.
   */
  lemma MixedWalk(v: JJVal, found: seq<Step>, s: Step, rest: seq<Step>)
    requires Walk(v, found).Exists() && !Go(Walk(v, found), s).Exists()
    ensures !Walk(v, found + [s] + rest).Exists()
    ensures Fits(Walk(v, found), s) ==>
              Walk(v, found + [s] + rest).path == v.path + Trail(found) + Segment(s) + NilTrail(rest)
    ensures !Fits(Walk(v, found), s) ==>
              Walk(v, found + [s] + rest).path == v.path + Trail(found) + "<nil>" + Segment(s) + NilTrail(rest)
  {
    var w := Walk(v, found);
    assert found + [s] + rest == found + ([s] + rest);
    WalkAppend(v, found, [s] + rest);
    assert ([s] + rest)[1..] == rest;
    assert Walk(w, [s] + rest) == Walk(Go(w, s), rest);
    PresentWalk(v, found);
    GoPath(w, s);
    AbsentWalk(Go(w, s), rest);
  }

  /** A key mapped to null exists and is null; a missing key does not exist and is not null. */
  lemma NullVersusAbsent(o: JJObj, key: string)
    ensures o.At(key).Exists() <==> key in o.raw
    ensures o.At(key).IsNull() <==> key in o.raw && o.raw[key] == Null
    ensures key !in o.raw ==> !o.At(key).IsNull()
  {
  }

  /** Views over a confirmed container always exist; the optional views exist exactly when they hold one. */
  lemma ViewExistence(a: JJArr, o: JJObj, ma: JJMaybeArr, mo: JJMaybeObj)
    ensures a.Exists() && o.Exists()
    ensures ma.Exists() <==> ma.Raw().Some?
    ensures mo.Exists() <==> mo.Raw().Some?
    ensures ma.Exists() ==> ma.Raw() == Some(ma.inner.value.raw)
    ensures mo.Exists() ==> mo.Raw() == Some(mo.inner.value.raw)
  {
  }

  /** Different indices into the same array are recorded under different paths. */
  lemma IndexPathsDistinct(a: JJArr, i: Int64, j: Int64)
    requires i != j
    ensures a.At(i).path != a.At(j).path
  {
    var si := IntToString(i as int);
    var sj := IntToString(j as int);
    if a.At(i).path == a.At(j).path {
      var p := a.path + "[";
      assert a.At(i).path == p + (si + "]");
      assert a.At(j).path == p + (sj + "]");
      assert si + "]" == sj + "]" by {
        assert (p + (si + "]"))[|p|..] == si + "]";
        assert (p + (sj + "]"))[|p|..] == sj + "]";
      }
      assert si == (si + "]")[..|si|];
      assert sj == (sj + "]")[..|sj|];
      assert si == sj;
      IntToStringInjective(i as int, j as int);
    }
  }

  /** Different keys into the same dictionary are recorded under different paths. */
  lemma KeyPathsDistinct(o: JJObj, k1: string, k2: string)
    requires k1 != k2
    ensures o.At(k1).path != o.At(k2).path
  {
    var p := o.path + ".";
    assert o.At(k1).path == p + k1 && o.At(k2).path == p + k2;
    assert (p + k1)[|p|..] == k1 && (p + k2)[|p|..] == k2;
  }

  /** The index a path records can be read back from it. */
  lemma IndexReadBack(a: JJArr, i: Int64)
    ensures var p := a.At(i).path;
            |p| >= |a.path| + 2 &&
            ParseInt(p[|a.path| + 1..|p| - 1]) == Some(i as int)
  {
    var s := IntToString(i as int);
    var p := a.At(i).path;
    assert p == a.path + "[" + s + "]";
    assert p[|a.path| + 1..|p| - 1] == s;
    IntToStringRoundTrip(i as int);
  }
}
