/**
 The fail-fast shape shared by every setup and set operation of the LED
 driver: a fixed list of driver calls is issued in order, the first call
 that does not answer ESP_OK ends the operation and its status is returned,
 and nothing already done is undone.
 */
module FailFast {
  import opened LedTypes
  import opened LedcDriver

  /** What one operation did: the calls it issued and the status it returned. */
  datatype Run = Run(issued: seq<Call>, status: EspErr)

  /** Issue `calls` in order, the first of them as call number `n` of the
      driver's trace, stopping after the first one that does not succeed. */
  function Chain(calls: seq<Call>, replies: seq<EspErr>, n: nat): (run: Run)
    ensures |run.issued| <= |calls|
    ensures run.issued == [] <==> calls == []
    ensures run.issued != [] ==> run.issued[0] == calls[0]
    decreases |calls|
  {
    if calls == [] then Run([], ESP_OK)
    else if Reply(replies, n) != ESP_OK then Run([calls[0]], Reply(replies, n))
    else
      var rest := Chain(calls[1..], replies, n + 1);
      Run([calls[0]] + rest.issued, rest.status)
  }

  /** The calls issued are a prefix of the planned calls, and at least one
      call is issued whenever one is planned. */
  lemma {:induction false} ChainIssuesPrefix(calls: seq<Call>, replies: seq<EspErr>, n: nat)
    ensures Chain(calls, replies, n).issued <= calls
    ensures calls != [] ==> Chain(calls, replies, n).issued != []
    decreases |calls|
  {
    if calls != [] && Reply(replies, n) == ESP_OK {
      ChainIssuesPrefix(calls[1..], replies, n + 1);
      assert calls == [calls[0]] + calls[1..];
    }
  }

  /** If every call up to the k-th succeeds and the k-th fails, exactly the
      calls up to and including the k-th are issued, and the k-th status is
      returned. */
  lemma {:induction false} ChainStopsAt(calls: seq<Call>, replies: seq<EspErr>, n: nat, k: nat)
    requires k < |calls|
    requires forall i :: n <= i < n + k ==> Reply(replies, i) == ESP_OK
    requires Reply(replies, n + k) != ESP_OK
    ensures Chain(calls, replies, n) == Run(calls[..k + 1], Reply(replies, n + k))
    decreases k
  {
    if k > 0 {
      assert Reply(replies, n) == ESP_OK;
      ChainStopsAt(calls[1..], replies, n + 1, k - 1);
      assert calls[..k + 1] == [calls[0]] + calls[1..][..k];
    }
  }

  /** If every call succeeds, all of them are issued and ESP_OK is returned. */
  lemma {:induction false} ChainAllSucceed(calls: seq<Call>, replies: seq<EspErr>, n: nat)
    requires forall i :: n <= i < n + |calls| ==> Reply(replies, i) == ESP_OK
    ensures Chain(calls, replies, n) == Run(calls, ESP_OK)
    decreases |calls|
  {
    if calls != [] {
      assert Reply(replies, n) == ESP_OK;
      ChainAllSucceed(calls[1..], replies, n + 1);
      assert calls == [calls[0]] + calls[1..];
    }
  }

  /** ESP_OK is returned exactly when every planned call succeeds, and then
      every planned call has been issued. */
  lemma {:induction false} ChainOkIff(calls: seq<Call>, replies: seq<EspErr>, n: nat)
    ensures Chain(calls, replies, n).status == ESP_OK
        <==> forall i :: n <= i < n + |calls| ==> Reply(replies, i) == ESP_OK
    ensures Chain(calls, replies, n).status == ESP_OK ==> Chain(calls, replies, n).issued == calls
    decreases |calls|
  {
    if calls != [] {
      ChainOkIff(calls[1..], replies, n + 1);
      if Reply(replies, n) == ESP_OK {
        assert calls == [calls[0]] + calls[1..];
      }
    }
  }

  /** A failing status is the reply to the last call issued, and every call
      before that one succeeded. */
  lemma {:induction false} ChainFailureIsLastCall(calls: seq<Call>, replies: seq<EspErr>, n: nat)
    requires Chain(calls, replies, n).status != ESP_OK
    ensures var run := Chain(calls, replies, n);
      && run.issued != []
      && run.status == Reply(replies, n + |run.issued| - 1)
      && forall i :: n <= i < n + |run.issued| - 1 ==> Reply(replies, i) == ESP_OK
    decreases |calls|
  {
    if Reply(replies, n) == ESP_OK {
      ChainFailureIsLastCall(calls[1..], replies, n + 1);
    }
  }

  /** A call is issued only after every call before it has succeeded. */
  lemma {:induction false} ChainIssuedAfterSuccess(calls: seq<Call>, replies: seq<EspErr>, n: nat, k: nat)
    requires k < |Chain(calls, replies, n).issued|
    ensures forall i :: n <= i < n + k ==> Reply(replies, i) == ESP_OK
    decreases k
  {
    if k > 0 {
      ChainIssuedAfterSuccess(calls[1..], replies, n + 1, k - 1);
    }
  }
}
