/**
 * The receive side of the subscription stream in client/client.go: what successive
 * `stream.Recv()` calls return, which updates reach the handler, and how the loop ends.
 */
module Receive {

  /** An update envelope; the client passes it to the handler without looking inside. */
  datatype SubscribeUpdate = AccountUpdate(pubkey: string) | TransactionUpdate(signature: string) | OtherUpdate

  /** One `Recv` result: an update, `io.EOF`, or any other error. */
  datatype RecvResult = Update(update: SubscribeUpdate) | Eof | RecvError(error: string)

  /**
   * How a run ends: `nil`, a returned error, or still blocked in `Recv` once the
   * modelled results are used up.
   */
  datatype Outcome = Success | Error(error: string) | Blocked

  /** The results of a stream that delivers `us` in order. */
  function AsResults(us: seq<SubscribeUpdate>): (s: seq<RecvResult>)
    ensures |s| == |us|
    ensures forall k :: 0 <= k < |s| ==> s[k] == Update(us[k])
  {
    if us == [] then [] else [Update(us[0])] + AsResults(us[1..])
  }

  /** The updates handed to the handler: those before the first `EOF` or error, in order. */
  function Delivered(s: seq<RecvResult>): seq<SubscribeUpdate>
  {
    if s == [] then []
    else match s[0]
      case Update(u) => [u] + Delivered(s[1..])
      case _ => []
  }

  /** How the receive loop ends for the results `s`. */
  function StreamOutcome(s: seq<RecvResult>): Outcome
  {
    if s == [] then Blocked
    else match s[0]
      case Update(_) => StreamOutcome(s[1..])
      case Eof => Success
      case RecvError(err) => Error(err)
  }

  /**
   * The handler sees a prefix of the results, every one of them an update, and that
   * prefix stops at the first result that is not an update, if there is one.
   */
  lemma {:induction false} DeliveredIsUpdatePrefix(s: seq<RecvResult>)
    ensures |Delivered(s)| <= |s|
    ensures forall k :: 0 <= k < |Delivered(s)| ==> s[k] == Update(Delivered(s)[k])
    ensures |Delivered(s)| < |s| ==> !s[|Delivered(s)|].Update?
  {
    if s != [] && s[0].Update? {
      DeliveredIsUpdatePrefix(s[1..]);
      assert Delivered(s) == [s[0].update] + Delivered(s[1..]);
    }
  }

  /**
   * The loop ends with the first result that is not an update: success on `EOF`, that
   * error otherwise, and still blocked when every result was an update.
   */
  lemma {:induction false} OutcomeAtFirstEnd(s: seq<RecvResult>)
    ensures |Delivered(s)| == |s| ==> StreamOutcome(s) == Blocked
    ensures |Delivered(s)| < |s| && s[|Delivered(s)|] == Eof ==> StreamOutcome(s) == Success
    ensures |Delivered(s)| < |s| && s[|Delivered(s)|].RecvError? ==>
      StreamOutcome(s) == Error(s[|Delivered(s)|].error)
  {
    if s != [] && s[0].Update? {
      OutcomeAtFirstEnd(s[1..]);
      assert Delivered(s) == [s[0].update] + Delivered(s[1..]);
    }
  }

  /** Updates before any other result are all delivered, and do not change how the stream ends. */
  lemma {:induction false} DeliveredAfterUpdates(us: seq<SubscribeUpdate>, rest: seq<RecvResult>)
    ensures Delivered(AsResults(us) + rest) == us + Delivered(rest)
    ensures StreamOutcome(AsResults(us) + rest) == StreamOutcome(rest)
  {
    if us == [] {
      assert AsResults(us) + rest == rest;
    } else {
      var tail := AsResults(us[1..]) + rest;
      assert AsResults(us) + rest == [Update(us[0])] + tail by {
        assert AsResults(us) == [Update(us[0])] + AsResults(us[1..]);
      }
      DeliveredAfterUpdates(us[1..], rest);
      AfterOneUpdate(us[0], tail);
      assert us == [us[0]] + us[1..];
    }
  }

  lemma AfterOneUpdate(u: SubscribeUpdate, tail: seq<RecvResult>)
    ensures Delivered([Update(u)] + tail) == [u] + Delivered(tail)
    ensures StreamOutcome([Update(u)] + tail) == StreamOutcome(tail)
  {
    assert ([Update(u)] + tail)[1..] == tail;
  }

  /** N updates then end-of-stream: the handler sees exactly those N, in order, and the run succeeds. */
  lemma UpdatesThenEof(us: seq<SubscribeUpdate>, later: seq<RecvResult>)
    ensures Delivered(AsResults(us) + [Eof] + later) == us
    ensures StreamOutcome(AsResults(us) + [Eof] + later) == Success
  {
    DeliveredAfterUpdates(us, [Eof] + later);
    assert AsResults(us) + [Eof] + later == AsResults(us) + ([Eof] + later);
  }

  /** N updates then an error: the handler sees exactly those N and the error is returned. */
  lemma UpdatesThenError(us: seq<SubscribeUpdate>, err: string, later: seq<RecvResult>)
    ensures Delivered(AsResults(us) + [RecvError(err)] + later) == us
    ensures StreamOutcome(AsResults(us) + [RecvError(err)] + later) == Error(err)
  {
    DeliveredAfterUpdates(us, [RecvError(err)] + later);
    assert AsResults(us) + [RecvError(err)] + later == AsResults(us) + ([RecvError(err)] + later);
  }

  /** Once the loop has ended, nothing received later reaches the handler or changes the outcome. */
  lemma {:induction false} NothingAfterEnd(s: seq<RecvResult>, later: seq<RecvResult>)
    requires StreamOutcome(s) != Blocked
    ensures Delivered(s + later) == Delivered(s)
    ensures StreamOutcome(s + later) == StreamOutcome(s)
  {
    assert s != [];
    assert (s + later)[0] == s[0];
    if s[0].Update? {
      NothingAfterEnd(s[1..], later);
      assert (s + later)[1..] == s[1..] + later;
    }
  }

  /** A stream that is still blocked has delivered every result it has, all of them updates. */
  lemma {:induction false} BlockedDeliversAll(s: seq<RecvResult>)
    requires StreamOutcome(s) == Blocked
    ensures AsResults(Delivered(s)) == s
  {
    var d := Delivered(s);
    DeliveredIsUpdatePrefix(s);
    OutcomeAtFirstEnd(s);
    assert |AsResults(d)| == |s|;
    assert forall k :: 0 <= k < |s| ==> AsResults(d)[k] == s[k];
  }
}
