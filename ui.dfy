/**
 * What the editors observe of the outside world. An awaited call is an input
 * (it resolved, or it rejected with an error message), and what a handler
 * sets in motion is recorded as an effect: a call to the data-access layer,
 * or the parent's `onDataChange` refresh. Alerts and console output are not
 * recorded.
 */
module Ui {
  import NeonApi

  /** How an awaited promise settled; a rejection carries the error's `message`. */
  datatype Awaited = Resolved | Rejected(message: string)

  datatype Effect =
    | Api(call: NeonApi.Call)   // an accessor of the data-access layer was called
    | DataChanged               // the parent's `onDataChange` ran

  /**
   * `handleApiCall(promise)`, as the skills and social-links editors share it:
   * the accessor is called, and the parent refreshes only if its promise
   * resolves.
   */
  function ApiCallEffects(call: NeonApi.Call, outcome: Awaited): (r: seq<Effect>)
    ensures |r| >= 1 && r[0] == Api(call)
    ensures DataChanged in r <==> outcome.Resolved?
    ensures forall i :: 1 <= i < |r| ==> r[i] == DataChanged
  {
    if outcome.Resolved? then [Api(call), DataChanged] else [Api(call)]
  }

  /** Number of refreshes in an effect log. */
  function Refreshes(log: seq<Effect>): nat {
    if log == [] then 0
    else Refreshes(log[..|log| - 1]) + (if log[|log| - 1] == DataChanged then 1 else 0)
  }

  /** `handleApiCall` refreshes exactly once on success and never on failure. */
  lemma ApiCallRefreshesOnce(call: NeonApi.Call, outcome: Awaited)
    ensures Refreshes(ApiCallEffects(call, outcome)) == if outcome.Resolved? then 1 else 0
  {
    assert [Api(call)][..0] == [];
    assert Refreshes([Api(call)]) == 0;
    if outcome.Resolved? {
      assert [Api(call), DataChanged][..1] == [Api(call)];
      assert Refreshes([Api(call), DataChanged]) == 1;
    }
  }
}
