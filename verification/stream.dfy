/**
 A program's sequence of `log` calls and the records they leave on standard
 error, in order. Each call writes its record or nothing; no call affects
 another, because the threshold is a compile-time constant.
 */
module Stream {
  import opened Wrappers
  import opened Levels
  import opened Logger

  /** One executed `log` call with its message already rendered. */
  datatype Call = Call(level: int, site: CallSite, msg: string)

  /** How many of the calls reach the threshold. */
  function CountEmitting(threshold: int, calls: seq<Call>): nat
  {
    if |calls| == 0 then 0
    else (if Emits(calls[0].level, threshold) then 1 else 0) + CountEmitting(threshold, calls[1..])
  }

  /** What a single call writes: its record, or nothing. */
  function Written(threshold: int, call: Call): (out: seq<string>)
    ensures |out| == if Emits(call.level, threshold) then 1 else 0
  {
    match Log(call.level, threshold, call.site, call.msg)
    case None => []
    case Some(rec) => [rec]
  }

  /** The records written by `calls`, in call order. */
  function Records(threshold: int, calls: seq<Call>): (out: seq<string>)
    ensures |out| == CountEmitting(threshold, calls)
    ensures |out| <= |calls|
    ensures (forall i :: 0 <= i < |calls| ==> Emits(calls[i].level, threshold)) ==> |out| == |calls|
  {
    if |calls| == 0 then []
    else Written(threshold, calls[0]) + Records(threshold, calls[1..])
  }

  /** Running two stretches of calls one after the other writes the records of
      the first stretch followed by those of the second. */
  lemma {:induction false} RecordsAppend(threshold: int, a: seq<Call>, b: seq<Call>)
    ensures Records(threshold, a + b) == Records(threshold, a) + Records(threshold, b)
  {
    if |a| == 0 {
      assert a + b == b;
    } else {
      assert (a + b)[0] == a[0];
      assert (a + b)[1..] == a[1..] + b;
      RecordsAppend(threshold, a[1..], b);
      var w := Written(threshold, a[0]);
      assert w + (Records(threshold, a[1..]) + Records(threshold, b))
          == (w + Records(threshold, a[1..])) + Records(threshold, b);
    }
  }

  /** Calls below the threshold contribute nothing to the output. */
  lemma {:induction false} SuppressedCallsSilent(threshold: int, calls: seq<Call>)
    requires forall i :: 0 <= i < |calls| ==> !Emits(calls[i].level, threshold)
    ensures Records(threshold, calls) == []
  {
    if |calls| > 0 {
      SuppressedCallsSilent(threshold, calls[1..]);
    }
  }

  /** Running a single call writes what that call writes. */
  lemma RecordsOne(threshold: int, call: Call)
    ensures Records(threshold, [call]) == Written(threshold, call)
  {
    assert [call][1..] == [];
  }

  /** When every call reaches the threshold, the k-th record is what the k-th call writes. */
  lemma {:induction false} RecordsAllEmit(threshold: int, calls: seq<Call>)
    requires forall i :: 0 <= i < |calls| ==> Emits(calls[i].level, threshold)
    ensures |Records(threshold, calls)| == |calls|
    ensures forall k :: 0 <= k < |calls| ==> [Records(threshold, calls)[k]] == Written(threshold, calls[k])
  {
    if |calls| > 0 {
      RecordsAllEmit(threshold, calls[1..]);
      var rest, all := Records(threshold, calls[1..]), Records(threshold, calls);
      var w := Written(threshold, calls[0]);
      assert |w| == 1 && all == w + rest;
      assert [all[0]] == w;
      forall k | 1 <= k < |calls|
        ensures [all[k]] == Written(threshold, calls[k])
      {
        assert all[k] == rest[k - 1];
        assert calls[1..][k - 1] == calls[k];
      }
    }
  }
}
