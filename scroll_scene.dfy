/** Scene selection in the scroll-driven 3D view (portfolio/src/components/ScrollBased3D.tsx):
    scroll progress picks one of four scenes, which decides the scene rendered and the
    indicator dot lit. */
module ScrollScene {
  /** `getCurrentScene`: the if-chain on the scroll progress. */
  function CurrentScene(progress: real): int {
    if progress < 0.25 then 1
    else if progress < 0.5 then 2
    else if progress < 0.75 then 3
    else 4
  }

  /** The scene boundaries, in increasing order. */
  const Thresholds: seq<real> := [0.25, 0.5, 0.75]

  /** How many of the boundaries the progress has reached. */
  function Reached(ts: seq<real>, progress: real): (n: nat)
    ensures n <= |ts|
  {
    if ts == [] then 0 else (if ts[0] <= progress then 1 else 0) + Reached(ts[1..], progress)
  }

  lemma {:induction false} ReachedMonotone(ts: seq<real>, p: real, q: real)
    requires p <= q
    ensures Reached(ts, p) <= Reached(ts, q)
    decreases |ts|
  {
    if ts != [] {
      ReachedMonotone(ts[1..], p, q);
    }
  }

  /** The scene is one more than the number of boundaries the progress has reached: each
      boundary value already belongs to the later scene. */
  lemma SceneCountsBoundaries(progress: real)
    ensures CurrentScene(progress) == 1 + Reached(Thresholds, progress)
  {
    var t1, t2, t3 := Thresholds[1..], Thresholds[2..], Thresholds[3..];
    assert t1 == [0.5, 0.75] && t1[1..] == t2;
    assert t2 == [0.75] && t2[1..] == t3;
    assert Reached(t3, progress) == 0;
    assert Reached(t2, progress) == if 0.75 <= progress then 1 else 0;
    assert Reached(t1, progress) == (if 0.5 <= progress then 1 else 0) + Reached(t2, progress);
  }

  /** The scene is in 1..4 for every progress, including negative progress and progress
      beyond 1, and it never goes back as the progress grows. */
  lemma SceneRangeAndOrder(p: real, q: real)
    ensures 1 <= CurrentScene(p) <= 4
    ensures p <= q ==> CurrentScene(p) <= CurrentScene(q)
  {
    SceneCountsBoundaries(p);
    SceneCountsBoundaries(q);
    if p <= q {
      ReachedMonotone(Thresholds, p, q);
    }
  }

  /** The four intervals, with each boundary in the later scene. */
  lemma SceneIntervals(p: real)
    ensures CurrentScene(p) == 1 <==> p < 0.25
    ensures CurrentScene(p) == 2 <==> 0.25 <= p < 0.5
    ensures CurrentScene(p) == 3 <==> 0.5 <= p < 0.75
    ensures CurrentScene(p) == 4 <==> 0.75 <= p
    ensures CurrentScene(0.25) == 2 && CurrentScene(0.5) == 3 && CurrentScene(0.75) == 4
  {
  }

  /** The scene numbers the view can render and the indicator lists, in order. */
  const SceneNumbers: seq<int> := [1, 2, 3, 4]

  /** The scenes whose `currentScene === k` guard holds. */
  function RenderedScenes(current: int): seq<int> {
    Filtered(SceneNumbers, current)
  }

  function Filtered(xs: seq<int>, current: int): (r: seq<int>)
    ensures forall x :: x in r <==> x in xs && x == current
  {
    if xs == [] then [] else (if xs[0] == current then [xs[0]] else []) + Filtered(xs[1..], current)
  }

  /** The indicator: one flag per dot, set when the dot is the current scene. */
  function Highlighted(current: int): (lit: seq<bool>)
    ensures |lit| == |SceneNumbers|
  {
    seq(|SceneNumbers|, k requires 0 <= k < |SceneNumbers| => SceneNumbers[k] == current)
  }

  /** For every progress exactly one scene is rendered, the current one, and exactly one
      dot is lit, the one at the current scene's position. */
  lemma ExactlyOneSceneShown(progress: real)
    ensures RenderedScenes(CurrentScene(progress)) == [CurrentScene(progress)]
    ensures var lit := Highlighted(CurrentScene(progress));
            lit[CurrentScene(progress) - 1]
            && forall k :: 0 <= k < |lit| && k != CurrentScene(progress) - 1 ==> !lit[k]
  {
    var c := CurrentScene(progress);
    assert SceneNumbers[1..] == [2, 3, 4];
    assert SceneNumbers[2..] == [3, 4];
    assert SceneNumbers[3..] == [4];
    assert SceneNumbers[1..][1..] == SceneNumbers[2..];
    assert SceneNumbers[2..][1..] == SceneNumbers[3..];
    assert SceneNumbers[3..][1..] == [];
  }
}
