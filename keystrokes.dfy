/**
 * The keystroke-log filter of the backend's `POST /data` handler
 * (`post_data` in typesnipe-backend/main.py).
 *
 * The client sends one record per change of a text field: the whole field
 * `value` after the change, the device orientation and a timestamp.  The
 * filter replays the batch as a stack: a step whose value grew pushes a
 * record holding only the newest character, any other step is a backspace
 * and pops the newest record.
 */
module Keystrokes {
  import opened Wrappers

  /** The three orientation angles; the filter only copies them, so reals stand for Python floats. */
  datatype Orientation = Orientation(alpha: real, beta: real, gamma: real)

  datatype Keystroke = Keystroke(value: string, orientation: Orientation, time: int)

  datatype FilterError =
    | EmptyBatch             // `keystrokes[0]` on an empty list raises IndexError
    | PopFromEmpty(at: nat)  // the step ending at input index `at` popped an empty list

  /** The decision of one step: it compares two consecutive INPUT keystrokes. */
  predicate Grows(prev: Keystroke, cur: Keystroke)
  {
    |cur.value| > |prev.value|
  }

  /** The record a growing step pushes: the last character of the value, with the orientation and time. */
  function Latest(k: Keystroke): Keystroke
    requires |k.value| > 0
  {
    Keystroke([k.value[|k.value| - 1]], k.orientation, k.time)
  }

  /** One iteration of the loop, on the step from input keystroke `prev` to input keystroke `cur` at index `at`. */
  function Step(out: seq<Keystroke>, prev: Keystroke, cur: Keystroke, at: nat): (r: Result<seq<Keystroke>, FilterError>)
    ensures Grows(prev, cur) ==>
              && r.Ok? && |r.value| == |out| + 1 && r.value[..|out|] == out
              && r.value[|out|].value == [cur.value[|cur.value| - 1]]
              && r.value[|out|].orientation == cur.orientation && r.value[|out|].time == cur.time
    ensures !Grows(prev, cur) ==>
              && (r.Ok? <==> |out| > 0)
              && (r.Ok? ==> r.value == out[..|out| - 1])
              && (r.Err? ==> r.error == PopFromEmpty(at))
  {
    if Grows(prev, cur) then Ok(out + [Latest(cur)])
    else if |out| == 0 then Err(PopFromEmpty(at))
    else Ok(out[..|out| - 1])
  }

  /** The filter's result after the first `n` input keystrokes: seeded with `ks[0]`, then one step per pair. */
  function FilterPrefix(ks: seq<Keystroke>, n: nat): Result<seq<Keystroke>, FilterError>
    requires 1 <= n <= |ks|
  {
    if n == 1 then Ok([ks[0]])
    else
      match FilterPrefix(ks, n - 1)
      case Err(e) => Err(e)
      case Ok(out) => Step(out, ks[n - 2], ks[n - 1], n - 1)
  }

  /** `post_data`'s `filtered_keystrokes`, or the error that ends the request. */
  function Filter(ks: seq<Keystroke>): Result<seq<Keystroke>, FilterError>
  {
    if |ks| == 0 then Err(EmptyBatch) else FilterPrefix(ks, |ks|)
  }

  /** The filter loop itself, building the output list in place. */
  method FilterKeystrokes(keystrokes: seq<Keystroke>) returns (r: Result<seq<Keystroke>, FilterError>)
    ensures r == Filter(keystrokes)
  {
    if |keystrokes| == 0 {
      return Err(EmptyBatch);
    }
    var filtered := [keystrokes[0]];
    var i := 1;
    while i < |keystrokes|
      invariant 1 <= i <= |keystrokes|
      invariant FilterPrefix(keystrokes, i) == Ok(filtered)
    {
      var prev, cur := keystrokes[i - 1], keystrokes[i];
      if |cur.value| > |prev.value| {
        filtered := filtered + [Keystroke([cur.value[|cur.value| - 1]], cur.orientation, cur.time)];
      } else {
        if |filtered| == 0 {
          ErrorIsFinal(keystrokes, i + 1, |keystrokes|);
          return Err(PopFromEmpty(i));
        }
        filtered := filtered[..|filtered| - 1];
      }
      i := i + 1;
    }
    return Ok(filtered);
  }

  /** A raised error ends the request: no later step runs, so the error is the filter's result. */
  lemma {:induction false} ErrorIsFinal(ks: seq<Keystroke>, n: nat, m: nat)
    requires 1 <= n <= m <= |ks|
    requires FilterPrefix(ks, n).Err?
    ensures FilterPrefix(ks, m) == FilterPrefix(ks, n)
    decreases m - n
  {
    if m > n {
      ErrorIsFinal(ks, n, m - 1);
    }
  }

  /** Number of growing steps among the first `n` input keystrokes. */
  function GrowingSteps(ks: seq<Keystroke>, n: nat): nat
    requires n <= |ks|
  {
    if n <= 1 then 0 else GrowingSteps(ks, n - 1) + (if Grows(ks[n - 2], ks[n - 1]) then 1 else 0)
  }

  /** Number of non-growing (backspace) steps among the first `n` input keystrokes. */
  function ShrinkingSteps(ks: seq<Keystroke>, n: nat): nat
    requires n <= |ks|
  {
    if n <= 1 then 0 else ShrinkingSteps(ks, n - 1) + (if Grows(ks[n - 2], ks[n - 1]) then 0 else 1)
  }

  /** The height the output stack would have after the first `n` keystrokes, counting a pop on empty as going below zero. */
  function Depth(ks: seq<Keystroke>, n: nat): int
    requires n <= |ks|
  {
    1 + GrowingSteps(ks, n) - ShrinkingSteps(ks, n)
  }

  /** Every step is either growing or not: the two counts add up to the number of pairs. */
  lemma {:induction false} StepsPartition(ks: seq<Keystroke>, n: nat)
    requires 1 <= n <= |ks|
    ensures GrowingSteps(ks, n) + ShrinkingSteps(ks, n) == n - 1
  {
    if n > 1 {
      StepsPartition(ks, n - 1);
    }
  }

  /** On success after a prefix the output is as long as the depth, and the depth never went negative on the way. */
  lemma {:induction false} FilterPrefixLength(ks: seq<Keystroke>, n: nat)
    requires 1 <= n <= |ks|
    requires FilterPrefix(ks, n).Ok?
    ensures |FilterPrefix(ks, n).value| == Depth(ks, n)
    ensures forall m :: 1 <= m <= n ==> Depth(ks, m) >= 0
  {
    if n > 1 {
      FilterPrefixLength(ks, n - 1);
    }
  }

  /** A failing prefix fails at the first step where the depth reaches -1. */
  lemma {:induction false} FilterPrefixFailure(ks: seq<Keystroke>, n: nat)
    requires 1 <= n <= |ks|
    requires FilterPrefix(ks, n).Err?
    ensures FilterPrefix(ks, n).error.PopFromEmpty?
    ensures var at := FilterPrefix(ks, n).error.at;
      && 1 <= at < n && Depth(ks, at + 1) == -1
      && forall m :: 1 <= m <= at ==> Depth(ks, m) >= 0
  {
    if FilterPrefix(ks, n - 1).Err? {
      FilterPrefixFailure(ks, n - 1);
    } else {
      FilterPrefixLength(ks, n - 1);
    }
  }

  /**
   * The prefix filter fails exactly when the depth drops below zero somewhere,
   * and when it succeeds its output is as long as the depth.
   */
  lemma FilterPrefixDepth(ks: seq<Keystroke>, n: nat)
    requires 1 <= n <= |ks|
    ensures FilterPrefix(ks, n).Ok? ==> |FilterPrefix(ks, n).value| == Depth(ks, n)
    ensures FilterPrefix(ks, n).Err? <==> exists m :: 1 <= m <= n && Depth(ks, m) < 0
  {
    if FilterPrefix(ks, n).Ok? {
      FilterPrefixLength(ks, n);
    } else {
      FilterPrefixFailure(ks, n);
      var at := FilterPrefix(ks, n).error.at;
      assert 1 <= at + 1 <= n && Depth(ks, at + 1) < 0;
    }
  }

  /** The length invariant: on success the output has 1 + #growing - #non-growing records, never more than the input. */
  lemma FilterLength(ks: seq<Keystroke>)
    requires Filter(ks).Ok?
    ensures |Filter(ks).value| == 1 + GrowingSteps(ks, |ks|) - ShrinkingSteps(ks, |ks|)
    ensures |Filter(ks).value| <= |ks|
  {
    FilterPrefixDepth(ks, |ks|);
    StepsPartition(ks, |ks|);
  }

  /** The filter raises exactly on an empty batch or when some prefix has more backspaces than records to remove. */
  lemma FilterSucceeds(ks: seq<Keystroke>)
    ensures Filter(ks).Ok? <==> |ks| > 0 && forall m :: 1 <= m <= |ks| ==> Depth(ks, m) >= 0
  {
    if |ks| > 0 {
      FilterPrefixDepth(ks, |ks|);
    }
  }

  /** Records after the first hold exactly one character; the first is `ks[0]` untouched or also a single character. */
  lemma {:induction false} FilterPrefixShape(ks: seq<Keystroke>, n: nat)
    requires 1 <= n <= |ks|
    requires FilterPrefix(ks, n).Ok?
    ensures var out := FilterPrefix(ks, n).value;
      && (forall k :: 1 <= k < |out| ==> |out[k].value| == 1)
      && (|out| > 0 ==> out[0] == ks[0] || |out[0].value| == 1)
  {
    if n > 1 {
      FilterPrefixShape(ks, n - 1);
    }
  }

  lemma FilterShape(ks: seq<Keystroke>)
    requires Filter(ks).Ok?
    ensures var out := Filter(ks).value;
      && (forall k :: 1 <= k < |out| ==> |out[k].value| == 1)
      && (|out| > 0 ==> out[0] == ks[0] || |out[0].value| == 1)
  {
    FilterPrefixShape(ks, |ks|);
  }

  /** While the depth never falls to zero, the seed record `ks[0]` stays at the bottom of the output, value not truncated. */
  lemma {:induction false} FirstSurvivesPrefix(ks: seq<Keystroke>, n: nat)
    requires 1 <= n <= |ks|
    requires forall m :: 1 <= m <= n ==> Depth(ks, m) >= 1
    ensures FilterPrefix(ks, n).Ok?
    ensures |FilterPrefix(ks, n).value| >= 1 && FilterPrefix(ks, n).value[0] == ks[0]
  {
    FilterPrefixDepth(ks, n);
    if n > 1 {
      FirstSurvivesPrefix(ks, n - 1);
      FilterPrefixDepth(ks, n - 1);
    }
  }

  lemma FirstSurvives(ks: seq<Keystroke>)
    requires |ks| > 0
    requires forall m :: 1 <= m <= |ks| ==> Depth(ks, m) >= 1
    ensures Filter(ks).Ok? && |Filter(ks).value| >= 1 && Filter(ks).value[0] == ks[0]
  {
    FirstSurvivesPrefix(ks, |ks|);
  }
}
