/** The byte loop that reads a proxy's answer to CONNECT. */
module Proxy {
  import opened Bytes
  import opened Wrappers

  const MAX_PROXY_RESPONSE_BYTES: nat := 16 * 1024

  const END_OF_HEAD: Data := [13, 10, 13, 10]

  datatype ReadError = ClosedEarly | TooLong

  predicate EndsWith(s: Data, suffix: Data) {
    |suffix| <= |s| && s[|s| - |suffix|..] == suffix
  }

  /** `n` is the length of the shortest prefix of `s` that ends a head. */
  ghost predicate IsHeadLength(s: Data, n: nat) {
    n <= |s| && EndsWith(s[..n], END_OF_HEAD) && forall k :: 0 <= k < n ==> !EndsWith(s[..k], END_OF_HEAD)
  }

  lemma NothingEndsAHead(s: Data)
    ensures !EndsWith(s[..0], END_OF_HEAD)
  {
  }

  /** Byte `i` of the stream is read only after all before it; `used` is how many are gone from
      it afterwards, whatever the outcome. */
  method ReadConnectResponse(stream: Data) returns (r: Result<Data, ReadError>, used: nat)
    ensures used <= |stream| && used <= MAX_PROXY_RESPONSE_BYTES + 1
    ensures r.Ok? <==> exists n: nat :: n <= MAX_PROXY_RESPONSE_BYTES && IsHeadLength(stream, n)
    ensures r.Ok? ==> IsHeadLength(stream, used) && r.value == stream[..used]
    ensures r == Err(ClosedEarly) <==>
              && |stream| <= MAX_PROXY_RESPONSE_BYTES
              && forall n :: 0 <= n <= |stream| ==> !EndsWith(stream[..n], END_OF_HEAD)
    ensures r == Err(ClosedEarly) ==> used == |stream|
    ensures r == Err(TooLong) ==> used == MAX_PROXY_RESPONSE_BYTES + 1
  {
    NothingEndsAHead(stream);
    hide EndsWith;
    var buf: Data := [];
    used := 0;
    while true
      invariant used <= |stream| && used <= MAX_PROXY_RESPONSE_BYTES && buf == stream[..used]
      invariant forall k :: 0 <= k <= used ==> !EndsWith(stream[..k], END_OF_HEAD)
      decreases |stream| - used
    {
      if used == |stream| {
        return Err(ClosedEarly), used;
      }
      buf := buf + [stream[used]];
      used := used + 1;
      assert buf == stream[..used];
      if |buf| > MAX_PROXY_RESPONSE_BYTES {
        return Err(TooLong), used;
      }
      if EndsWith(buf, END_OF_HEAD) {
        assert IsHeadLength(stream, used);
        return Ok(buf), used;
      }
    }
  }

  /** What follows the head is left in the stream for the tunnel: the outcome does not depend on
      it. */
  lemma HeadIsPrefixFree(head: Data, tunnel: Data, n: nat)
    requires IsHeadLength(head, |head|)
    ensures IsHeadLength(head + tunnel, n) <==> n == |head|
  {
    var s := head + tunnel;
    assert s[..|head|] == head[..|head|];
    forall k | 0 <= k < |head|
      ensures !EndsWith(s[..k], END_OF_HEAD)
    {
      assert s[..k] == head[..k];
    }
  }
}
