/**
 * First-success search over an ordered list of candidate paths: the policy
 * both loaders in sys_main.cpp follow within one search (try each candidate
 * in turn, stop at the first that opens).
 */
module Search {
  import opened Wrappers
  import opened NativeLib

  /** Index of the first candidate that loads, if any. */
  function FirstLoadable(cands: seq<Path>, loadable: set<Path>): (r: Option<nat>)
    ensures r.Some? ==>
      r.value < |cands| && cands[r.value] in loadable
      && forall j :: 0 <= j < r.value ==> cands[j] !in loadable
    ensures r.None? <==> forall j :: 0 <= j < |cands| ==> cands[j] !in loadable
  {
    if cands == [] then None
    else if cands[0] in loadable then Some(0)
    else match FirstLoadable(cands[1..], loadable)
      case None => None
      case Some(i) => Some(i + 1)
  }

  /** The candidates actually opened: up to and including the first success, else all. */
  function Tried(cands: seq<Path>, loadable: set<Path>): seq<Path>
  {
    match FirstLoadable(cands, loadable)
    case None => cands
    case Some(i) => cands[..i + 1]
  }

  /** Tried is an ordered prefix of the candidates, every attempt but the last
      fails, and the last succeeds exactly when some candidate loads. */
  lemma TriedPrefix(cands: seq<Path>, loadable: set<Path>)
    ensures var t := Tried(cands, loadable);
      t <= cands
      && (cands != [] ==> t != [])
      && (forall j :: 0 <= j < |t| - 1 ==> t[j] !in loadable)
      && (t != [] ==> (t[|t| - 1] in loadable <==> FirstLoadable(cands, loadable).Some?))
  {
  }

  /** The search fails exactly when every attempted open failed. */
  lemma TriedAllFailIff(cands: seq<Path>, loadable: set<Path>)
    ensures FirstLoadable(cands, loadable).None? <==>
      forall j :: 0 <= j < |Tried(cands, loadable)| ==> Tried(cands, loadable)[j] !in loadable
  {
    match FirstLoadable(cands, loadable)
    case None =>
    case Some(i) =>
      assert Tried(cands, loadable)[i] == cands[i];
  }

  /** A candidate after a loadable one is never attempted. */
  lemma {:induction false} TriedStopsAtSuccess(cands: seq<Path>, loadable: set<Path>, k: nat)
    requires k < |cands| && cands[k] in loadable
    ensures |Tried(cands, loadable)| <= k + 1
  {
    if k > 0 && cands[0] !in loadable {
      TriedStopsAtSuccess(cands[1..], loadable, k - 1);
    }
  }

  /** Searching two lists one after the other is searching their concatenation. */
  lemma {:induction false} FirstLoadableAppend(a: seq<Path>, b: seq<Path>, loadable: set<Path>)
    ensures FirstLoadable(a + b, loadable) ==
      match FirstLoadable(a, loadable)
      case Some(i) => Some(i)
      case None => match FirstLoadable(b, loadable)
        case None => None
        case Some(k) => Some(|a| + k)
  {
    if a != [] {
      assert (a + b)[1..] == a[1..] + b;
      FirstLoadableAppend(a[1..], b, loadable);
    } else {
      assert a + b == b;
    }
  }

  /** The attempts of a search over `a + b`: those over `a`, and only when
      all of `a` failed, those over `b`. */
  lemma {:induction false} TriedAppend(a: seq<Path>, b: seq<Path>, loadable: set<Path>)
    ensures Tried(a + b, loadable) ==
      if FirstLoadable(a, loadable).Some? then Tried(a, loadable) else a + Tried(b, loadable)
  {
    FirstLoadableAppend(a, b, loadable);
    var fa := FirstLoadable(a, loadable);
    var fb := FirstLoadable(b, loadable);
    if fa.Some? {
      var i := fa.value;
      assert Tried(a + b, loadable) == (a + b)[..i + 1];
      assert (a + b)[..i + 1] == a[..i + 1];
    } else if fb.Some? {
      var k := fb.value;
      assert Tried(a + b, loadable) == (a + b)[..|a| + k + 1];
      assert (a + b)[..|a| + k + 1] == a + b[..k + 1];
    } else {
      assert Tried(a + b, loadable) == a + b;
    }
  }
}
