/** A blocked task is skipped, and so is everything that waits for it.  The
    database does this layer by layer until an UPDATE changes no row; the
    specification is reachability along the dependency edges. */
module SkipPropagation {
  import opened Common
  import opened WorkflowModel

  predicate Waiting(ts: Tasks, scope: set<Id>, d: Id) {
    d in ts && ts[d].def.episode in scope && ts[d].status.Pending?
  }

  /** The rows one UPDATE of the loop touches. */
  function Layer(ts: Tasks, scope: set<Id>): (ids: set<Id>) {
    set d | d in ts && Waiting(ts, scope, d) && exists u :: u in ts && DependsOn(ts, d, u) && ts[u].status.Blocking()
  }

  /** p walks dependency edges through waiting rows and ends in a blocking row. */
  ghost predicate BlockedPath(ts: Tasks, scope: set<Id>, p: seq<Id>) {
    && |p| >= 2
    && (forall i :: 0 <= i < |p| ==> p[i] in ts)
    && (forall i :: 0 <= i < |p| - 1 ==> Waiting(ts, scope, p[i]))
    && (forall i :: 0 <= i < |p| - 1 ==> DependsOn(ts, p[i], p[i + 1]))
    && ts[p[|p| - 1]].status.Blocking()
  }

  ghost predicate Blocked(ts: Tasks, scope: set<Id>, d: Id) {
    exists p :: BlockedPath(ts, scope, p) && p[0] == d
  }

  ghost function BlockedSet(ts: Tasks, scope: set<Id>): set<Id> {
    set d | d in ts && Blocked(ts, scope, d)
  }

  /** The specification: skip exactly the blocked rows, each once. */
  ghost function SkipBlocked(ts: Tasks, scope: set<Id>): Tasks {
    Finish(ts, BlockedSet(ts, scope), Skipped)
  }

  lemma LayerIsBlocked(ts: Tasks, scope: set<Id>)
    ensures Layer(ts, scope) <= BlockedSet(ts, scope)
  {
    forall d | d in Layer(ts, scope) ensures Blocked(ts, scope, d) {
      var u :| u in ts && DependsOn(ts, d, u) && ts[u].status.Blocking();
      assert BlockedPath(ts, scope, [d, u]);
    }
  }

  /** A path found after one layer was skipped exists before it, one edge longer
      when it ends in a row of that layer. */
  lemma PathBeforeLayer(ts: Tasks, scope: set<Id>, p: seq<Id>)
    requires BlockedPath(Finish(ts, Layer(ts, scope), Skipped), scope, p)
    ensures Blocked(ts, scope, p[0])
  {
    var last := p[|p| - 1];
    if last in Layer(ts, scope) {
      var u :| u in ts && DependsOn(ts, last, u) && ts[u].status.Blocking();
      var q := p + [u];
      forall i | 0 <= i < |q| - 1 ensures Waiting(ts, scope, q[i]) && DependsOn(ts, q[i], q[i + 1]) {
        if i < |p| - 1 {
          assert q[i] == p[i] && q[i + 1] == p[i + 1];
          assert DependsOn(Finish(ts, Layer(ts, scope), Skipped), p[i], p[i + 1]);
          assert Waiting(Finish(ts, Layer(ts, scope), Skipped), scope, p[i]);
        }
      }
      assert BlockedPath(ts, scope, q) && q[0] == p[0];
    } else {
      forall i | 0 <= i < |p| - 1 ensures Waiting(ts, scope, p[i]) && DependsOn(ts, p[i], p[i + 1]) {
        assert DependsOn(Finish(ts, Layer(ts, scope), Skipped), p[i], p[i + 1]);
        assert Waiting(Finish(ts, Layer(ts, scope), Skipped), scope, p[i]);
      }
      assert BlockedPath(ts, scope, p);
    }
  }

  /** A path of the old table, cut at its first row in the layer. */
  lemma {:induction false} PathAfterLayer(ts: Tasks, scope: set<Id>, p: seq<Id>)
    requires BlockedPath(ts, scope, p) && p[0] !in Layer(ts, scope)
    ensures Blocked(Finish(ts, Layer(ts, scope), Skipped), scope, p[0])
    decreases |p|
  {
    var after := Finish(ts, Layer(ts, scope), Skipped);
    assert |p| > 2 by {
      if |p| == 2 {
        assert DependsOn(ts, p[0], p[1]) && Waiting(ts, scope, p[0]);
      }
    }
    assert DependsOn(ts, p[0], p[1]) && Waiting(ts, scope, p[0]) && Waiting(ts, scope, p[1]);
    if p[1] in Layer(ts, scope) {
      assert BlockedPath(after, scope, [p[0], p[1]]);
    } else {
      var tail := p[1..];
      assert BlockedPath(ts, scope, tail) by {
        forall i | 0 <= i < |tail| - 1 ensures Waiting(ts, scope, tail[i]) && DependsOn(ts, tail[i], tail[i + 1]) {
          assert tail[i] == p[i + 1] && tail[i + 1] == p[i + 2];
        }
      }
      PathAfterLayer(ts, scope, tail);
      var q :| BlockedPath(after, scope, q) && q[0] == p[1];
      var r := [p[0]] + q;
      forall i | 0 <= i < |r| - 1 ensures Waiting(after, scope, r[i]) && DependsOn(after, r[i], r[i + 1]) {
        if i > 0 {
          assert r[i] == q[i - 1] && r[i + 1] == q[i];
        }
      }
      assert BlockedPath(after, scope, r) && r[0] == p[0];
    }
  }

  /** One round of the loop does not change what the loop computes. */
  lemma LayerKeepsMeaning(ts: Tasks, scope: set<Id>)
    ensures SkipBlocked(Finish(ts, Layer(ts, scope), Skipped), scope) == SkipBlocked(ts, scope)
  {
    var layer := Layer(ts, scope);
    var after := Finish(ts, layer, Skipped);
    LayerIsBlocked(ts, scope);
    forall d | d in ts ensures Blocked(ts, scope, d) <==> d in layer || Blocked(after, scope, d) {
      if Blocked(after, scope, d) {
        var p :| BlockedPath(after, scope, p) && p[0] == d;
        PathBeforeLayer(ts, scope, p);
      }
      if Blocked(ts, scope, d) && d !in layer {
        var p :| BlockedPath(ts, scope, p) && p[0] == d;
        PathAfterLayer(ts, scope, p);
      }
    }
    forall d | d in ts ensures Blocked(after, scope, d) ==> d !in layer {
      if Blocked(after, scope, d) {
        var p :| BlockedPath(after, scope, p) && p[0] == d;
        assert Waiting(after, scope, p[0]);
      }
    }
  }

  lemma SomethingBlockedFillsLayer(ts: Tasks, scope: set<Id>, d: Id)
    requires Blocked(ts, scope, d)
    ensures Layer(ts, scope) != {}
  {
    var p :| BlockedPath(ts, scope, p) && p[0] == d;
    var k := |p| - 2;
    assert Waiting(ts, scope, p[k]) && DependsOn(ts, p[k], p[k + 1]);
    assert p[k] in Layer(ts, scope);
  }

  /** When an UPDATE touches nothing, nothing is left to skip. */
  lemma EmptyLayerIsFixpoint(ts: Tasks, scope: set<Id>)
    requires Layer(ts, scope) == {}
    ensures SkipBlocked(ts, scope) == ts
  {
    forall d | d in ts && Blocked(ts, scope, d) ensures false {
      SomethingBlockedFillsLayer(ts, scope, d);
    }
  }

  /** The loop of claim, complete and recover: UPDATE until ROW_COUNT = 0. */
  method PropagateSkips(ts: Tasks, scope: set<Id>) returns (out: Tasks)
    ensures out == SkipBlocked(ts, scope)
  {
    out := ts;
    var changed := Layer(out, scope);
    while changed != {}
      invariant changed == Layer(out, scope)
      invariant SkipBlocked(out, scope) == SkipBlocked(ts, scope)
      decreases set d | d in out && Waiting(out, scope, d)
    {
      LayerKeepsMeaning(out, scope);
      ghost var before := set d | d in out && Waiting(out, scope, d);
      ghost var d :| d in changed;
      ghost var prev := out;
      out := Finish(out, changed, Skipped);
      assert (set x | x in out && Waiting(out, scope, x)) < before by {
        assert d in before && !Waiting(out, scope, d);
        assert forall x :: x in out && Waiting(out, scope, x) ==> Waiting(prev, scope, x);
      }
      changed := Layer(out, scope);
    }
    EmptyLayerIsFixpoint(out, scope);
  }

  lemma BlockedThrough(ts: Tasks, scope: set<Id>, d: Id, u: Id)
    requires Waiting(ts, scope, d) && DependsOn(ts, d, u)
    requires ts[u].status.Blocking() || Blocked(ts, scope, u)
    ensures Blocked(ts, scope, d)
  {
    if ts[u].status.Blocking() {
      assert BlockedPath(ts, scope, [d, u]);
    } else {
      var p :| BlockedPath(ts, scope, p) && p[0] == u;
      var q := [d] + p;
      forall i | 0 <= i < |q| - 1 ensures Waiting(ts, scope, q[i]) && DependsOn(ts, q[i], q[i + 1]) {
        if i > 0 {
          assert q[i] == p[i - 1] && q[i + 1] == p[i];
        }
      }
      assert BlockedPath(ts, scope, q) && q[0] == d;
    }
  }

  /** After propagation no waiting row has a blocking dependency. */
  lemma SkipBlockedSettles(ts: Tasks, scope: set<Id>, d: Id, u: Id)
    requires var after := SkipBlocked(ts, scope);
             Waiting(after, scope, d) && DependsOn(after, d, u)
    ensures !SkipBlocked(ts, scope)[u].status.Blocking()
  {
    assert Waiting(ts, scope, d) && DependsOn(ts, d, u);
    if ts[u].status.Blocking() || Blocked(ts, scope, u) {
      BlockedThrough(ts, scope, d, u);
    }
  }
}
