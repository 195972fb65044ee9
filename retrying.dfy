/**
 * The gateway's replies and the `retry(2)` operator every store mutation applies to them.
 */
module Retrying {
  import opened Errors

  /** What one request to the gateway produced: a value, or a thrown error. */
  datatype Reply<+T> = Ok(value: T) | Fail(error: Thrown)

  /** Re-subscriptions `retry(2)` makes after a failed request: three requests in all. */
  const Retries: nat := 2

  /**
   * What a subscriber to `request.pipe(retry(retries))` receives, where `replies[i]` is
   * what the (i+1)-th request would produce.
   */
  function Retry<T>(replies: seq<Reply<T>>, retries: nat): Reply<T>
    requires retries < |replies|
  {
    if replies[0].Ok? || retries == 0 then replies[0] else Retry(replies[1..], retries - 1)
  }

  /**
   * The call succeeds iff one of the first retries + 1 requests succeeds; it then
   * delivers the value of the first successful one, and otherwise the error of the last request.
   */
  lemma {:induction false} RetrySettles<T>(replies: seq<Reply<T>>, retries: nat)
    requires retries < |replies|
    ensures Retry(replies, retries).Ok? <==> exists i :: 0 <= i <= retries && replies[i].Ok?
    ensures forall k :: 0 <= k <= retries && replies[k].Ok? && (forall j :: 0 <= j < k ==> replies[j].Fail?) ==>
      Retry(replies, retries) == replies[k]
    ensures (forall i :: 0 <= i <= retries ==> replies[i].Fail?) ==> Retry(replies, retries) == replies[retries]
  {
    if replies[0].Ok? || retries == 0 {
    } else {
      RetrySettles(replies[1..], retries - 1);
      assert forall i :: 1 <= i <= retries ==> replies[i] == replies[1..][i - 1];
    }
  }

  /** Only the first retries + 1 replies matter: a fourth request is never made. */
  lemma {:induction false} RetryIgnoresLaterReplies<T>(a: seq<Reply<T>>, b: seq<Reply<T>>, retries: nat)
    requires retries < |a| && retries < |b|
    requires a[..retries + 1] == b[..retries + 1]
    ensures Retry(a, retries) == Retry(b, retries)
  {
    assert a[0] == a[..retries + 1][0];
    if a[0].Ok? || retries == 0 {
    } else {
      assert a[1..][..retries] == a[..retries + 1][1..];
      assert b[1..][..retries] == b[..retries + 1][1..];
      RetryIgnoresLaterReplies(a[1..], b[1..], retries - 1);
    }
  }
}
