/** The record decoder: a loop over the outcomes a streaming JSON decoder
    reports one call after another. A decoded value is forwarded, a decode
    error is skipped, and end of input stops the loop. */
module Decode {

  /** What one call to the decoder reports. */
  datatype Outcome<T> = Value(value: T) | DecodeError | EndOfInput

  /** The values forwarded for a stream of outcomes. The stream is finite;
      running out of outcomes is the decoder's end of input. */
  function Decoded<T>(stream: seq<Outcome<T>>): seq<T>
  {
    if |stream| == 0 then []
    else match stream[0]
      case EndOfInput => []
      case DecodeError => Decoded(stream[1..])
      case Value(v) => [v] + Decoded(stream[1..])
  }

  /** The loop as the source writes it. */
  method DecodeJSON<T>(stream: seq<Outcome<T>>) returns (out: seq<T>)
    ensures out == Decoded(stream)
  {
    out := [];
    var i := 0;
    while i < |stream|
      invariant 0 <= i <= |stream|
      invariant out + Decoded(stream[i..]) == Decoded(stream)
    {
      assert stream[i..][1..] == stream[i + 1..];
      match stream[i]
      case EndOfInput =>
        return;
      case DecodeError =>
        i := i + 1;
      case Value(v) =>
        out := out + [v];
        i := i + 1;
    }
    assert stream[i..] == [];
  }

  /** Outcomes with no end of input among them pass their values through in
      order, ahead of whatever follows. */
  lemma {:induction false} DecodedAppend<T>(a: seq<Outcome<T>>, b: seq<Outcome<T>>)
    requires forall i :: 0 <= i < |a| ==> !a[i].EndOfInput?
    ensures Decoded(a + b) == Decoded(a) + Decoded(b)
    decreases |a|
  {
    if |a| == 0 {
      assert a + b == b;
    } else {
      assert (a + b)[0] == a[0];
      assert (a + b)[1..] == a[1..] + b;
      DecodedAppend(a[1..], b);
    }
  }

  /** A decode error is skipped: removing it changes nothing downstream,
      and the values after it are still forwarded. */
  lemma {:induction false} SkipsDecodeError<T>(before: seq<Outcome<T>>, after: seq<Outcome<T>>)
    requires forall i :: 0 <= i < |before| ==> !before[i].EndOfInput?
    ensures Decoded(before + [DecodeError] + after) == Decoded(before + after)
  {
    DecodedAppend(before, [DecodeError] + after);
    DecodedAppend(before, after);
    assert ([DecodeError] + after)[1..] == after;
    assert before + [DecodeError] + after == before + ([DecodeError] + after);
  }

  /** End of input stops the loop: nothing after it is forwarded. */
  lemma {:induction false} StopsAtEndOfInput<T>(before: seq<Outcome<T>>, after: seq<Outcome<T>>)
    requires forall i :: 0 <= i < |before| ==> !before[i].EndOfInput?
    ensures Decoded(before + [EndOfInput] + after) == Decoded(before)
  {
    DecodedAppend(before, [EndOfInput] + after);
    assert before + [EndOfInput] + after == before + ([EndOfInput] + after);
  }

  /** A stream of values followed by end of input yields exactly those
      values, one output per value, in stream order. */
  lemma {:induction false} ValuesThenEnd<T>(vs: seq<T>, after: seq<Outcome<T>>)
    ensures Decoded(seq(|vs|, i requires 0 <= i < |vs| => Value(vs[i])) + [EndOfInput] + after) == vs
    decreases |vs|
  {
    var s := seq(|vs|, i requires 0 <= i < |vs| => Value(vs[i])) + [EndOfInput] + after;
    if |vs| > 0 {
      var rest := seq(|vs| - 1, i requires 0 <= i < |vs| - 1 => Value(vs[1..][i]));
      assert s[1..] == rest + [EndOfInput] + after;
      ValuesThenEnd(vs[1..], after);
    }
  }

  /** Two concatenated JSON values followed by end of input: two records. */
  lemma {:induction false} TwoValues<T>(a: T, b: T)
    ensures |Decoded([Value(a), Value(b), EndOfInput])| == 2
  {
    ValuesThenEnd([a, b], []);
    assert seq(2, i requires 0 <= i < 2 => Value([a, b][i])) + [EndOfInput] + [] == [Value(a), Value(b), EndOfInput];
  }
}
