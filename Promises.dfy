/** `AggregateException`: the rejection raised when too many of a batch of promises fail. */
module Promises {
  import opened Wrappers
  import opened PhpValues

  /** The exception's `reasons` (kept by the parent RejectionException) and its message. */
  datatype AggregateException<R> = AggregateException(reasons: seq<R>, message: string)

  const RejectedSuffix: string := " rejected promises"

  /** A decimal numeral as `%d` writes it read back: digits only, no leading zero unless
      the numeral is "0"; None for anything else. */
  function ParseDecimal(s: string): (n: Option<nat>)
    ensures n.Some? ==> |s| > 0 && AllDigits(s) && (s[0] == '0' ==> s == "0")
  {
    if s != [] && AllDigits(s) && (s[0] != '0' || |s| == 1) then Some(DigitsValue(s)) else None
  }

  /** The count in a message laid out as `<msg>; <count> rejected promises`, where `<msg>`
      is `msgLength` characters long; None when the message has another layout. */
  function RejectedCount(message: string, msgLength: nat): Option<nat> {
    if |message| >= msgLength + 2 + |RejectedSuffix|
       && message[msgLength..msgLength + 2] == "; "
       && message[|message| - |RejectedSuffix|..] == RejectedSuffix
    then ParseDecimal(message[msgLength + 2..|message| - |RejectedSuffix|])
    else None
  }

  /** The constructor: `sprintf('%s; %d rejected promises', $msg, count($reasons))`, with the
      reasons handed on unchanged. */
  function NewAggregateException<R>(msg: string, reasons: seq<R>): (e: AggregateException<R>)
    ensures e.reasons == reasons
    ensures |e.message| > |msg| && e.message[..|msg|] == msg
    ensures RejectedCount(e.message, |msg|) == Some(|reasons|)
  {
    var count := Decimal(|reasons|);
    var message := msg + "; " + count + RejectedSuffix;
    DecimalRoundTrip(|reasons|);
    assert message[..|msg|] == msg;
    assert message[|msg|..|msg| + 2] == "; ";
    assert message[|message| - |RejectedSuffix|..] == RejectedSuffix;
    assert message[|msg| + 2..|message| - |RejectedSuffix|] == count;
    AggregateException(reasons, message)
  }

  /** No reasons: the message is `<msg>; 0 rejected promises`. */
  lemma NoReasonsMessage<R>(msg: string)
    ensures NewAggregateException<R>(msg, []).message == msg + "; 0 rejected promises"
  {
    assert Decimal(0) == "0";
    var tail := "; " + "0" + RejectedSuffix;
    assert tail == "; 0 rejected promises";
    assert msg + "; " + "0" + RejectedSuffix == msg + tail;
  }

  /** Batches with different numbers of rejections never get the same message. */
  lemma MessageDeterminesCount<R>(msg: string, a: seq<R>, b: seq<R>)
    requires NewAggregateException(msg, a).message == NewAggregateException(msg, b).message
    ensures |a| == |b|
  {
  }

  /** A zero-padded count is not the layout `%d` produces. */
  lemma PaddedCountRejected()
    ensures RejectedCount("m; 05 rejected promises", 1) == None
  {
    var message := "m; 05 rejected promises";
    assert message[3..|message| - |RejectedSuffix|] == "05";
  }
}
