/** Option and Outcome values used across the model. */
module Wrappers {

  /** A value that may be absent: JavaScript `null`/`undefined` or a missing optional field. */
  datatype Option<+T> = None | Some(value: T) {
    function GetOr(default: T): T {
      match this
      case Some(v) => v
      case None => default
    }
  }

  /** The settled state of an awaited promise: it resolved with a value or it rejected. */
  datatype Outcome<+T> = Done(value: T) | Threw

  /** `Promise.all` over one call per item: every result in item order, or a rejection if any call throws. */
  function RunAll<A, B>(items: seq<A>, run: A -> Outcome<B>): (r: Outcome<seq<B>>)
    ensures r.Threw? <==> exists i :: 0 <= i < |items| && run(items[i]).Threw?
    ensures r.Done? ==> |r.value| == |items| && forall i :: 0 <= i < |items| ==> r.value[i] == run(items[i]).value
  {
    if items == [] then Done([])
    else
      var last := run(items[|items| - 1]);
      match RunAll(items[..|items| - 1], run)
      case Threw => Threw
      case Done(rs) => if last.Threw? then Threw else Done(rs + [last.value])
  }
}
