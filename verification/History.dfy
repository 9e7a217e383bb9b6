/** Logs of two opposite edges of one flag. */
module History {

  /** Two up-edges always have a down-edge between them, and the flag is up exactly while the
      last edge is an up-edge. */
  ghost predicate Alternates<T>(log: seq<T>, up: T, down: T, flag: bool) {
    && (forall i, j :: 0 <= i < j < |log| && log[i] == up && log[j] == up ==>
          exists k :: i < k < j && log[k] == down)
    && (forall i :: 0 <= i < |log| ==> log[i] == up || log[i] == down)
    && (flag <==> log != [] && log[|log| - 1] == up)
  }

  lemma UpEdge<T>(log: seq<T>, up: T, down: T)
    requires up != down && Alternates(log, up, down, false)
    ensures Alternates(log + [up], up, down, true)
  {
    var more, last := log + [up], |log|;
    forall i, j | 0 <= i < j < |more| && more[i] == up && more[j] == up
      ensures exists k :: i < k < j && more[k] == down
    {
      if j == last {
        assert more[last - 1] == down;
      } else {
        var k :| i < k < j && log[k] == down;
        assert more[k] == down;
      }
    }
  }

  lemma DownEdge<T>(log: seq<T>, up: T, down: T, flag: bool)
    requires up != down && Alternates(log, up, down, flag)
    ensures Alternates(log + [down], up, down, false)
  {
    var more := log + [down];
    forall i, j | 0 <= i < j < |more| && more[i] == up && more[j] == up
      ensures exists k :: i < k < j && more[k] == down
    {
      var k :| i < k < j && log[k] == down;
      assert more[k] == down;
    }
  }
}
