/** The joining of settled asynchronous results, as `Promise.all` does it. */
module Promises {
  import opened Wrappers

  /**
   * `Promise.all` over outcomes that have already settled: it succeeds with every
   * value, in the order the outcomes were pushed, when all of them succeed, and
   * otherwise fails with the error of a failed one (the first in push order).
   */
  function All<T, E>(outcomes: seq<Result<T, E>>): (r: Result<seq<T>, E>)
    ensures r.Success? <==> forall i :: 0 <= i < |outcomes| ==> outcomes[i].Success?
    ensures r.Success? ==>
      |r.value| == |outcomes| && forall i :: 0 <= i < |outcomes| ==> outcomes[i] == Success(r.value[i])
    ensures r.Failure? ==>
      exists i :: 0 <= i < |outcomes| && outcomes[i] == Failure(r.error) &&
        forall j :: 0 <= j < i ==> outcomes[j].Success?
  {
    if outcomes == [] then Success([])
    else
      match outcomes[0]
      case Failure(e) => Failure(e)
      case Success(v) =>
        var rest := All(outcomes[1..]);
        match rest
        case Failure(e) =>
          assert exists i :: (1 <= i < |outcomes| && outcomes[i] == Failure(e) &&
                               forall j :: 1 <= j < i ==> outcomes[j].Success?) by {
            var k :| 0 <= k < |outcomes[1..]| && outcomes[1..][k] == Failure(e) &&
              forall j :: 0 <= j < k ==> outcomes[1..][j].Success?;
            assert outcomes[k + 1] == Failure(e);
            forall j | 1 <= j < k + 1 ensures outcomes[j].Success? {
              assert outcomes[j] == outcomes[1..][j - 1];
            }
          }
          Failure(e)
        case Success(vs) =>
          assert forall i :: 1 <= i < |outcomes| ==> outcomes[i] == outcomes[1..][i - 1];
          Success([v] + vs)
  }
}
