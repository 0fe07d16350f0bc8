/**
 * The running maximum of target lengths (`MAX_MODULE_WIDTH` and
 * `max_target_width` in src/lib.rs), modelled sequentially.
 */
module WidthTracking {
  import opened Padding

  /** The length of the longest target in `targets`, 0 when there is none. */
  function Widest(targets: seq<string>): (w: nat)
    ensures forall k :: 0 <= k < |targets| ==> |targets[k]| <= w
    ensures w == 0 || exists k :: 0 <= k < |targets| && |targets[k]| == w
  {
    if targets == [] then 0
    else
      var init := targets[..|targets| - 1];
      assert forall k :: 0 <= k < |init| ==> init[k] == targets[k];
      Max(Widest(init), |targets[|targets| - 1]|)
  }

  /** Seeing one more target raises the maximum to that target's length when it is longer. */
  lemma WidestAppend(targets: seq<string>, target: string)
    ensures Widest(targets + [target]) == Max(Widest(targets), |target|)
  {
    assert (targets + [target])[..|targets|] == targets;
  }

  /** A maximum once reached is never forgotten: a longer history has a maximum at least as large. */
  lemma WidestPrefix(targets: seq<string>, n: nat)
    requires n <= |targets|
    ensures Widest(targets[..n]) <= Widest(targets)
  {
    var prefix := targets[..n];
    var w := Widest(prefix);
    if w != 0 {
      var k :| 0 <= k < |prefix| && |prefix[k]| == w;
      assert prefix[k] == targets[k];
    }
  }

  /**
   * The widths returned for a run of records on a fresh counter: the n-th
   * record is padded to the longest target among the first n + 1.
   */
  function Widths(targets: seq<string>): (ws: seq<nat>)
    ensures |ws| == |targets|
  {
    seq(|targets|, n requires 0 <= n < |targets| => Widest(targets[..n + 1]))
  }

  /** One more record adds the width of the whole run to the end of the widths. */
  lemma WidthsAppend(targets: seq<string>, target: string)
    ensures Widths(targets + [target]) == Widths(targets) + [Widest(targets + [target])]
  {
    var longer := targets + [target];
    forall n | 0 <= n < |targets|
      ensures Widths(longer)[n] == Widths(targets)[n]
    {
      assert longer[..n + 1] == targets[..n + 1];
    }
    assert longer[..|longer|] == longer;
  }

  /** The width returned for record n covers every target seen up to and including it. */
  lemma WidthsCover(targets: seq<string>, k: nat, n: nat)
    requires k <= n < |targets|
    ensures |targets[k]| <= Widths(targets)[n]
  {
    assert targets[..n + 1][k] == targets[k];
  }

  /** The returned widths never decrease. */
  lemma WidthsMonotone(targets: seq<string>, i: nat, j: nat)
    requires i <= j < |targets|
    ensures Widths(targets)[i] <= Widths(targets)[j]
  {
    assert targets[..j + 1][..i + 1] == targets[..i + 1];
    WidestPrefix(targets[..j + 1], i + 1);
  }

  /** Every returned width is the length of some target already seen. */
  lemma WidthsAttained(targets: seq<string>, n: nat)
    requires n < |targets|
    ensures exists k :: 0 <= k <= n && |targets[k]| == Widths(targets)[n]
  {
    var prefix := targets[..n + 1];
    var w := Widest(prefix);
    if w == 0 {
      assert |prefix[0]| <= 0;
      assert |targets[0]| == w;
    } else {
      var k :| 0 <= k < |prefix| && |prefix[k]| == w;
      assert targets[k] == prefix[k];
    }
  }

  /** The run "a", "bbbbb", "cc" is padded to 1, 5, 5. */
  lemma WidthsExample()
    ensures Widths(["a", "bbbbb", "cc"]) == [1, 5, 5]
  {
    var ts := ["a", "bbbbb", "cc"];
    assert ts[..1] == ["a"];
    assert ts[..2] == ["a", "bbbbb"];
    assert ts[..3] == ts;
    assert ["a", "bbbbb"][..1] == ["a"];
    assert ts[..2] == ts[..1] + ["bbbbb"];
    assert ts == ts[..2] + ["cc"];
    WidestAppend([], "a");
    WidestAppend(ts[..1], "bbbbb");
    WidestAppend(ts[..2], "cc");
  }

  /**
   * The process-wide counter `MAX_MODULE_WIDTH`, which starts at 0. The ghost
   * field `seen` records every target it has been shown, in order.
   */
  class WidthTracker {
    var maxWidth: nat
    ghost var seen: seq<string>

    /** The counter holds the length of the longest target seen so far. */
    ghost predicate Valid()
      reads this
    {
      maxWidth == Widest(seen)
    }

    constructor ()
      ensures Valid() && seen == [] && maxWidth == 0
    {
      maxWidth := 0;
      seen := [];
    }

    /**
     * `max_target_width`: reads the counter, raises it to `|target|` when the
     * target is longer, and returns the width to pad the target to.
     */
    method MaxTargetWidth(target: string) returns (width: nat)
      requires Valid()
      modifies this
      ensures Valid() && seen == old(seen) + [target]
      ensures width == maxWidth == Max(old(maxWidth), |target|)
      ensures old(maxWidth) <= width && |target| <= width
    {
      var current := maxWidth;
      if current < |target| {
        maxWidth := |target|;
        width := |target|;
      } else {
        width := current;
      }
      WidestAppend(seen, target);
      seen := seen + [target];
    }
  }

  /** A fresh counter shown `targets` one by one returns exactly `Widths(targets)`. */
  method Run(targets: seq<string>) returns (ws: seq<nat>)
    ensures ws == Widths(targets)
  {
    var tracker := new WidthTracker();
    ws := [];
    var i := 0;
    while i < |targets|
      invariant 0 <= i <= |targets|
      invariant tracker.Valid() && tracker.seen == targets[..i]
      invariant ws == Widths(targets[..i])
    {
      var w := tracker.MaxTargetWidth(targets[i]);
      assert targets[..i + 1] == targets[..i] + [targets[i]];
      WidthsAppend(targets[..i], targets[i]);
      ws := ws + [w];
      i := i + 1;
    }
    assert targets[..|targets|] == targets;
  }

  /** A fresh counter shown "a", "bbbbb", "cc" returns 1, 5, 5. */
  method ExampleWidths() returns (first: nat, second: nat, third: nat)
    ensures first == 1 && second == 5 && third == 5
  {
    var tracker := new WidthTracker();
    first := tracker.MaxTargetWidth("a");
    second := tracker.MaxTargetWidth("bbbbb");
    third := tracker.MaxTargetWidth("cc");
  }
}
