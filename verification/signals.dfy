/**
 * The signal extractor: `position2signal` turns a position series (1 = holding
 * the asset, 0 = flat) into entry (+1), exit (-1) and no-change (0) events.
 *
 * Signals are the first differences of the positions, so prefix sums decode
 * them again; for 0/1 positions the nonzero signals alternate, starting with
 * an entry, which is what lets the evaluator keep a single open trade.
 */
module Signals {

  /** A position series whose every entry is 0 or 1. */
  predicate Binary(pos: seq<int>) {
    forall i :: 0 <= i < |pos| ==> pos[i] == 0 || pos[i] == 1
  }

  /** The signal the extractor emits on day `i`; defined for every integer series. */
  function SignalAt(pos: seq<int>, i: nat): (r: int)
    requires i < |pos|
    ensures -1 <= r <= 1
    ensures r == 1 <==> (if i == 0 then pos[0] == 1 else pos[i] - pos[i - 1] == 1)
    ensures r == -1 <==> (i > 0 && pos[i] - pos[i - 1] == -1)
  {
    if i == 0 then
      if pos[0] == 1 then 1 else 0
    else if pos[i] - pos[i - 1] == 1 then 1
    else if pos[i] - pos[i - 1] == -1 then -1
    else 0
  }

  /** The whole signal series of a position series. */
  function Signals(pos: seq<int>): (s: seq<int>)
    ensures |s| == |pos|
  {
    seq(|pos|, i requires 0 <= i < |pos| => SignalAt(pos, i))
  }

  /** `position2signal` as it computes the signals: preallocate, then fill by index. */
  method PositionToSignal(position: seq<int>) returns (signal: seq<int>)
    ensures |signal| == |position|
    ensures forall i :: 0 <= i < |position| ==> signal[i] == SignalAt(position, i)
    ensures signal == Signals(position)
  {
    var a := new int[|position|];
    for i := 0 to |position|
      invariant forall k :: 0 <= k < i ==> a[k] == SignalAt(position, k)
    {
      if i == 0 {
        if position[i] == 1 {
          a[i] := 1;
        } else {
          a[i] := 0;
        }
      } else {
        if position[i] - position[i - 1] == 1 {
          a[i] := 1;
        } else if position[i] - position[i - 1] == -1 {
          a[i] := -1;
        } else {
          a[i] := 0;
        }
      }
    }
    signal := a[..];
  }

  /** Number of days among the first `n` whose signal is `v`. */
  function Count(pos: seq<int>, v: int, n: nat): nat
    requires n <= |pos|
  {
    if n == 0 then 0
    else Count(pos, v, n - 1) + (if SignalAt(pos, n - 1) == v then 1 else 0)
  }

  /** Sum of the first `n` signals. */
  function SignalSum(pos: seq<int>, n: nat): int
    requires n <= |pos|
  {
    if n == 0 then 0 else SignalSum(pos, n - 1) + SignalAt(pos, n - 1)
  }

  /** The decoder: running sums of a signal series. */
  function PrefixSums(s: seq<int>): (d: seq<int>)
    ensures |d| == |s|
    ensures |s| > 0 ==> d[0] == s[0]
    ensures forall i :: 0 < i < |s| ==> d[i] == d[i - 1] + s[i]
  {
    if s == [] then []
    else
      var d0 := PrefixSums(s[..|s| - 1]);
      d0 + [(if d0 == [] then 0 else d0[|d0| - 1]) + s[|s| - 1]]
  }

  /** On 0/1 input every signal is -1, 0 or 1 and is exactly the day's change of position. */
  lemma SignalIsDifference(pos: seq<int>, i: nat)
    requires Binary(pos) && i < |pos|
    ensures SignalAt(pos, i) in {-1, 0, 1}
    ensures i == 0 ==> SignalAt(pos, i) == pos[0]
    ensures i > 0 ==> SignalAt(pos, i) == pos[i] - pos[i - 1]
  {
  }

  /** The sum of signals is the number of entries minus the number of exits. */
  lemma {:induction false} SumIsEntriesMinusExits(pos: seq<int>, n: nat)
    requires n <= |pos|
    ensures SignalSum(pos, n) == Count(pos, 1, n) - Count(pos, -1, n)
  {
    if n > 0 {
      SumIsEntriesMinusExits(pos, n - 1);
    }
  }

  /** Round trip: the prefix sum of the signals up to day `i` is the position on day `i`. */
  lemma {:induction false} PrefixSumRoundTrip(pos: seq<int>, i: nat)
    requires Binary(pos) && i < |pos|
    ensures SignalSum(pos, i + 1) == pos[i]
  {
    if i > 0 {
      PrefixSumRoundTrip(pos, i - 1);
    }
  }

  /** After the first `n` days exactly `pos[n-1]` trades are open: entries and exits never drift apart. */
  lemma OpenTradeCount(pos: seq<int>, n: nat)
    requires Binary(pos) && 0 < n <= |pos|
    ensures Count(pos, 1, n) - Count(pos, -1, n) == pos[n - 1]
  {
    SumIsEntriesMinusExits(pos, n);
    PrefixSumRoundTrip(pos, n - 1);
  }

  /** Exits never outnumber entries, and at most one entry is unmatched. */
  lemma ExitsNeverExceedEntries(pos: seq<int>, n: nat)
    requires Binary(pos) && n <= |pos|
    ensures Count(pos, -1, n) <= Count(pos, 1, n) <= Count(pos, -1, n) + 1
  {
    if n > 0 {
      OpenTradeCount(pos, n);
    }
  }

  /**
   * The nonzero signals alternate, starting with an entry: an entry comes when
   * no trade is open and an exit comes when exactly one is.
   */
  lemma SignalsAlternate(pos: seq<int>, i: nat)
    requires Binary(pos) && i < |pos|
    ensures SignalAt(pos, i) == 1 ==> Count(pos, 1, i) == Count(pos, -1, i)
    ensures SignalAt(pos, i) == -1 ==> Count(pos, 1, i) == Count(pos, -1, i) + 1
  {
    if i > 0 {
      OpenTradeCount(pos, i);
    }
  }

  /** Every exit follows some entry. */
  lemma ExitFollowsEntry(pos: seq<int>, i: nat)
    requires Binary(pos) && i < |pos| && SignalAt(pos, i) == -1
    ensures Count(pos, 1, i) >= 1
  {
    SignalsAlternate(pos, i);
  }

  lemma {:induction false} DecodeAt(pos: seq<int>, i: nat)
    requires Binary(pos) && i < |pos|
    ensures PrefixSums(Signals(pos))[i] == pos[i]
  {
    if i > 0 {
      DecodeAt(pos, i - 1);
    }
  }

  /** Decoding the signals of a 0/1 series gives the series back. */
  lemma DecodeEncode(pos: seq<int>)
    requires Binary(pos)
    ensures PrefixSums(Signals(pos)) == pos
  {
    forall i | 0 <= i < |pos|
      ensures PrefixSums(Signals(pos))[i] == pos[i]
    {
      DecodeAt(pos, i);
    }
  }

  /**
   * Encoding the running sums of a signal series gives the series back, as long
   * as those running sums are a 0/1 series: the extractor is a bijection between
   * 0/1 position series and the signal series whose running sums stay in {0,1}.
   */
  lemma EncodeDecode(s: seq<int>)
    requires Binary(PrefixSums(s))
    ensures Signals(PrefixSums(s)) == s
  {
    var d := PrefixSums(s);
    forall i | 0 <= i < |s|
      ensures Signals(d)[i] == s[i]
    {
      SignalIsDifference(d, i);
    }
  }

  /** A worked example: two trades, the second closed on the last day. */
  lemma WorkedExample()
    ensures Signals([1, 1, 0, 0, 1, 0]) == [1, 0, -1, 0, 1, -1]
  {
  }
}
