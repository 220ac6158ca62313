/** The render budget of `FiguraModelPart.pushVerticesImmediate`: a part
    walks its texture slots in order and hands each slot's faces to the
    renderer until the complexity budget shared by all parts runs out. */
module RenderBudget {
  import JavaInt

  /** One `pushFaces(slot, count)` call to the renderer. */
  datatype Push = Push(slot: nat, count: int)

  /** What walking one part leaves behind: the calls made, in order, and the
      budget left for the next part. */
  datatype WalkResult = WalkResult(pushes: seq<Push>, remaining: int)

  function Sum(s: seq<int>): int {
    if s == [] then 0 else Sum(s[..|s| - 1]) + s[|s| - 1]
  }

  /** The budget left before slot `i` once every earlier slot has been
      charged its full face count. */
  function Before(faces: seq<int>, budget: int, i: nat): int
    requires i <= |faces|
  {
    budget - Sum(faces[..i])
  }

  lemma BeforeStep(faces: seq<int>, budget: int, i: nat)
    requires i < |faces|
    ensures Before(faces, budget, i + 1) == Before(faces, budget, i) - faces[i]
  {
    assert faces[..i + 1][..i] == faces[..i];
  }

  /** Each push `j` of `pushes`, made at slot `i + j`, was reached with a
      positive budget and pushes `min(faces, budget before)`. */
  predicate PushesFrom(faces: seq<int>, budget: int, i: nat, pushes: seq<Push>)
    requires i + |pushes| <= |faces|
  {
    forall j :: 0 <= j < |pushes| ==> PushAt(faces, budget, i, pushes, j)
  }

  predicate PushAt(faces: seq<int>, budget: int, i: nat, pushes: seq<Push>, j: nat)
    requires i + |pushes| <= |faces| && j < |pushes|
  {
    && Before(faces, budget, i + j) > 0
    && pushes[j] == Push(i + j, JavaInt.Min(faces[i + j], Before(faces, budget, i + j)))
  }

  /** The loop of `pushVerticesImmediate` from slot `i` on, with `rem` the
      budget left: a slot is reached only while the budget is positive; it is
      charged all its faces and pushes its faces less the overdraft. */
  function WalkFrom(faces: seq<int>, i: nat, rem: int): WalkResult
    requires i <= |faces|
    decreases |faces| - i
  {
    if i == |faces| || rem <= 0 then WalkResult([], rem)
    else
      var next := rem - faces[i];
      var r := WalkFrom(faces, i + 1, next);
      WalkResult([Push(i, faces[i] + JavaInt.Min(next, 0))] + r.pushes, r.remaining)
  }

  /** One step of the walk with a positive budget, after the pushes
      `done` made so far: push at slot `i`, then walk on from `i + 1` with
      what is left. */
  lemma WalkFromStep(faces: seq<int>, i: nat, rem: int, done: seq<Push>)
    requires i < |faces| && rem > 0
    ensures done + WalkFrom(faces, i, rem).pushes
         == (done + [Push(i, faces[i] + JavaInt.Min(rem - faces[i], 0))]) + WalkFrom(faces, i + 1, rem - faces[i]).pushes
    ensures WalkFrom(faces, i, rem).remaining == WalkFrom(faces, i + 1, rem - faces[i]).remaining
  {
    var p := Push(i, faces[i] + JavaInt.Min(rem - faces[i], 0));
    var rest := WalkFrom(faces, i + 1, rem - faces[i]).pushes;
    assert done + ([p] + rest) == (done + [p]) + rest;
  }

  /** The walk from slot `i`, reached with the budget `Before(i)`, stops at
      the first slot met with a budget of at most 0, pushes
      `min(faces, budget before)` at every slot before it, and leaves the
      budget before the slot it stopped at. */
  lemma {:induction false} WalkFromSpec(faces: seq<int>, budget: int, i: nat)
    requires i <= |faces|
    ensures var r := WalkFrom(faces, i, Before(faces, budget, i));
      && i + |r.pushes| <= |faces|
      && PushesFrom(faces, budget, i, r.pushes)
      && (i + |r.pushes| == |faces| || Before(faces, budget, i + |r.pushes|) <= 0)
      && r.remaining == Before(faces, budget, i + |r.pushes|)
    decreases |faces| - i
  {
    var rem := Before(faces, budget, i);
    if i < |faces| && rem > 0 {
      BeforeStep(faces, budget, i);
      WalkFromSpec(faces, budget, i + 1);
      var r := WalkFrom(faces, i + 1, Before(faces, budget, i + 1));
      var rest := r.pushes;
      var p := WalkFrom(faces, i, Before(faces, budget, i)).pushes;
      assert faces[i] + JavaInt.Min(rem - faces[i], 0) == JavaInt.Min(faces[i], rem);
      assert p == [Push(i, JavaInt.Min(faces[i], rem))] + rest;
      assert WalkFrom(faces, i, rem).remaining == r.remaining;
      assert i + |p| == (i + 1) + |rest|;
      forall j | 0 <= j < |p|
        ensures PushAt(faces, budget, i, p, j)
      {
        if j > 0 {
          assert PushesFrom(faces, budget, i + 1, rest);
          assert PushAt(faces, budget, i + 1, rest, j - 1);
          assert p[j] == rest[j - 1] && i + j == (i + 1) + (j - 1);
        }
      }
      assert PushesFrom(faces, budget, i, p);
    }
  }

  /** `pushVerticesImmediate` on one part with the given budget. */
  function Walk(faces: seq<int>, budget: int): (r: WalkResult)
    ensures |r.pushes| <= |faces|
  {
    assert faces[..0] == [];
    WalkFromSpec(faces, budget, 0);
    WalkFrom(faces, 0, budget)
  }

  /** Exactly the slots before the first one met with a budget of at most 0
      push; each pushes `min(faces, budget before it)`, never more than its
      face count; the budget left is the starting budget minus all faces of
      the slots reached. */
  lemma WalkSpec(faces: seq<int>, budget: int)
    ensures var r := Walk(faces, budget);
      && |r.pushes| <= |faces|
      && (forall j :: 0 <= j < |r.pushes| ==>
            && Before(faces, budget, j) > 0
            && r.pushes[j] == Push(j, JavaInt.Min(faces[j], Before(faces, budget, j))))
      && (|r.pushes| == |faces| || Before(faces, budget, |r.pushes|) <= 0)
      && r.remaining == Before(faces, budget, |r.pushes|)
  {
    assert faces[..0] == [];
    assert Before(faces, budget, 0) == budget;
    WalkFromSpec(faces, budget, 0);
    var r := Walk(faces, budget);
    forall j | 0 <= j < |r.pushes|
      ensures Before(faces, budget, j) > 0
              && r.pushes[j] == Push(j, JavaInt.Min(faces[j], Before(faces, budget, j)))
    {
      var r0 := WalkFrom(faces, 0, Before(faces, budget, 0));
      assert PushesFrom(faces, budget, 0, r0.pushes);
      assert PushAt(faces, budget, 0, r0.pushes, j);
      assert r0.pushes[j] == r.pushes[j] && 0 + j == j;
    }
  }

  /** A part reached with no budget left pushes nothing and leaves the budget
      as it is: once one part exhausts the budget, every later part is
      skipped. */
  lemma ExhaustedBudgetSkips(faces: seq<int>, budget: int)
    requires budget <= 0
    ensures Walk(faces, budget) == WalkResult([], budget)
  {
  }

  /** No push exceeds its slot's face count, and with a positive budget and
      non-negative face counts no push is empty or negative. */
  lemma PushesBounded(faces: seq<int>, budget: int)
    requires forall i :: 0 <= i < |faces| ==> faces[i] >= 0
    ensures forall j :: 0 <= j < |Walk(faces, budget).pushes| ==>
              0 <= Walk(faces, budget).pushes[j].count <= faces[j]
  {
    WalkSpec(faces, budget);
  }

  /** The total of all pushes. */
  function Pushed(p: seq<Push>): int {
    if p == [] then 0 else Pushed(p[..|p| - 1]) + p[|p| - 1].count
  }

  /** With non-negative face counts and a positive budget, the faces pushed
      by one part add up to the smaller of the budget and the faces of the
      slots it reached: a part never pushes more than the budget allows. */
  lemma {:induction false} PushedTotal(faces: seq<int>, budget: int, k: nat)
    requires forall i :: 0 <= i < |faces| ==> faces[i] >= 0
    requires budget > 0
    requires k <= |Walk(faces, budget).pushes|
    ensures Pushed(Walk(faces, budget).pushes[..k]) == JavaInt.Min(budget, budget - Before(faces, budget, k))
  {
    WalkSpec(faces, budget);
    var p := Walk(faces, budget).pushes;
    if k > 0 {
      PushedTotal(faces, budget, k - 1);
      assert p[..k][..k - 1] == p[..k - 1];
      assert faces[..k][..k - 1] == faces[..k - 1];
      BeforeStep(faces, budget, k - 1);
    }
  }
}
