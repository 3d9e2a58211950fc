/** First success in an ordered list of attempts.

    Every fallback chain of the agent (selector candidates, click retries,
    send mechanisms, keystrokes of a typed text, candidate file paths) tries
    its alternatives in list order and stops at the first one that succeeds.
    Given the outcome each alternative would have, `FirstTrue` is the winner
    and `Tried` the number of alternatives that get attempted. */
module Search {

  datatype Option<T> = None | Some(value: T)

  /** The index of the first true outcome, if there is one. */
  function FirstTrue(bs: seq<bool>): (r: Option<nat>)
    ensures r.Some? ==> r.value < |bs| && bs[r.value]
    decreases |bs|
  {
    if |bs| == 0 then None
    else if bs[0] then Some(0)
    else match FirstTrue(bs[1..])
      case Some(k) => Some(k + 1)
      case None => None
  }

  /** How many alternatives are attempted: up to and including the first
      success, or all of them when none succeeds. */
  function Tried(bs: seq<bool>): (n: nat)
    ensures n <= |bs|
  {
    match FirstTrue(bs)
    case Some(k) => k + 1
    case None => |bs|
  }

  /** The winner is preceded by failures only, and there is no winner
      exactly when every alternative fails. */
  lemma {:induction false} FirstTrueIsFirst(bs: seq<bool>)
    ensures FirstTrue(bs).Some? ==> forall j :: 0 <= j < FirstTrue(bs).value ==> !bs[j]
    ensures FirstTrue(bs).None? <==> forall j :: 0 <= j < |bs| ==> !bs[j]
    decreases |bs|
  {
    if |bs| > 0 && !bs[0] {
      FirstTrueIsFirst(bs[1..]);
      assert forall j :: 0 < j < |bs| ==> bs[j] == bs[1..][j - 1];
    }
  }

  /** If alternative k is the first that succeeds, exactly alternatives
      0..k are attempted. */
  lemma {:induction false} FirstSuccessBoundsAttempts(bs: seq<bool>, k: nat)
    requires k < |bs| && bs[k]
    requires forall j :: 0 <= j < k ==> !bs[j]
    ensures FirstTrue(bs) == Some(k)
    ensures Tried(bs) == k + 1
    decreases k
  {
    if k > 0 {
      assert !bs[0];
      FirstSuccessBoundsAttempts(bs[1..], k - 1);
    }
  }

  /** When no alternative succeeds, all of them are attempted. */
  lemma {:induction false} NoSuccessTriesAll(bs: seq<bool>)
    requires forall j :: 0 <= j < |bs| ==> !bs[j]
    ensures FirstTrue(bs) == None
    ensures Tried(bs) == |bs|
    decreases |bs|
  {
    if |bs| > 0 {
      NoSuccessTriesAll(bs[1..]);
    }
  }
}
