/**
 * A loop that handles its items in turn and stops at the first that
 * raises: the values of the items so far, or the first item's error.
 */
module Results {
  import opened Wrappers

  /** The values of `rs`, in order, up to the first error. */
  function Gather<T, E>(rs: seq<Result<T, E>>): Result<seq<T>, E>
  {
    if rs == [] then Ok([])
    else
      match Gather(rs[..|rs| - 1])
        case Err(f) => Err(f)
        case Ok(vs) =>
          match rs[|rs| - 1]
            case Err(f) => Err(f)
            case Ok(v) => Ok(vs + [v])
  }

  /** One more item: its error, or its value appended. */
  lemma {:induction false} GatherStep<T, E>(rs: seq<Result<T, E>>, i: nat, vs: seq<T>)
    requires i < |rs| && Gather(rs[..i]) == Ok(vs)
    ensures rs[i].Err? ==> Gather(rs[..i + 1]) == Err(rs[i].error)
    ensures rs[i].Ok? ==> Gather(rs[..i + 1]) == Ok(vs + [rs[i].value])
  {
    assert rs[..i + 1][..i] == rs[..i];
  }

  /** Once an item fails, the whole loop fails with its error. */
  lemma {:induction false} GatherStop<T, E>(rs: seq<Result<T, E>>, i: nat)
    requires 0 < i <= |rs| && Gather(rs[..i]).Err?
    ensures Gather(rs) == Gather(rs[..i])
    decreases |rs|
  {
    if i < |rs| {
      var pre := rs[..|rs| - 1];
      assert pre[..i] == rs[..i];
      GatherStop(pre, i);
    } else {
      assert rs[..i] == rs;
    }
  }

  /**
   * The loop succeeds exactly when every item does, with one value per
   * item in order; otherwise it fails with the error of the first item
   * that fails.
   */
  lemma {:induction false} GatherFirst<T, E>(rs: seq<Result<T, E>>)
    ensures Gather(rs).Ok? <==> forall i :: 0 <= i < |rs| ==> rs[i].Ok?
    ensures Gather(rs).Ok? ==> |Gather(rs).value| == |rs| && forall i :: 0 <= i < |rs| ==> Gather(rs).value[i] == rs[i].value
    ensures Gather(rs).Err? ==> exists i :: 0 <= i < |rs| && rs[i] == Err(Gather(rs).error) && forall j :: 0 <= j < i ==> rs[j].Ok?
    decreases |rs|
  {
    if rs != [] {
      var pre := rs[..|rs| - 1];
      GatherFirst(pre);
      assert forall j :: 0 <= j < |pre| ==> pre[j] == rs[j];
      if Gather(pre).Err? {
        var i :| 0 <= i < |pre| && pre[i] == Err(Gather(pre).error) && forall j :: 0 <= j < i ==> pre[j].Ok?;
        assert rs[i] == pre[i];
      }
    }
  }
}
