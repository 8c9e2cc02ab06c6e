/** The right-hand panel of the dashboard: the completion gauge and the
    avatar letter. Both are single expressions over the values the dashboard
    hands in. */
module Rightbar {
  import opened Common

  /** `completedPct`: the completed share of all tasks as a whole percentage,
      rounded to the nearest integer with halves rounded up; 0 when there are
      no tasks at all. The second clause says that `r` is the integer nearest
      to `100 * completed / total`: `r - 1/2 <= 100 * completed / total < r + 1/2`. */
  function CompletedPct(completed: nat, total: nat): (r: int)
    ensures total == 0 ==> r == 0
    ensures total > 0 ==> 2 * total * r <= 200 * completed + total < 2 * total * (r + 1)
  {
    if total == 0 then 0
    else
      var r := (200 * completed + total) / (2 * total);
      DivBounds(200 * completed + total, 2 * total);
      r
  }

  /** Floor division characterised by its two bounds. */
  lemma DivBounds(a: nat, b: nat)
    requires b > 0
    ensures b * (a / b) <= a < b * (a / b + 1)
  {
  }

  /** With no more completed tasks than tasks, the gauge stays within 0..100. */
  lemma {:induction false} PctInRange(completed: nat, total: nat)
    requires completed <= total
    ensures 0 <= CompletedPct(completed, total) <= 100
  {
    if total > 0 {
      var r := CompletedPct(completed, total);
      assert 2 * total * r <= 200 * total + total < 2 * total * 101;
      LessByFactor(r, 101, 2 * total);
      assert 0 <= 200 * completed + total < 2 * total * (r + 1);
      LessByFactor(0, r + 1, 2 * total);
    }
  }

  /** Cancelling a positive factor from a strict inequality. */
  lemma LessByFactor(x: int, y: int, k: int)
    requires k > 0 && k * x < k * y
    ensures x < y
  {
  }

  /** Every task completed gives 100 percent; none completed gives 0. */
  lemma {:induction false} PctExtremes(total: nat)
    ensures total > 0 ==> CompletedPct(total, total) == 100
    ensures CompletedPct(0, total) == 0
  {
    if total > 0 {
      var full := CompletedPct(total, total);
      assert 2 * total * full <= 2 * total * 100 + total < 2 * total * (full + 1);
      LessByFactor(full, 101, 2 * total);
      LessByFactor(99, full, 2 * total);
      var none := CompletedPct(0, total);
      assert 2 * total * none <= total < 2 * total * (none + 1);
      LessByFactor(none, 1, 2 * total);
      LessByFactor(-1, none, 2 * total);
    }
  }

  /** For a fixed number of tasks, completing more never lowers the gauge. */
  lemma {:induction false} PctMonotone(c1: nat, c2: nat, total: nat)
    requires c1 <= c2
    ensures CompletedPct(c1, total) <= CompletedPct(c2, total)
  {
    if total > 0 {
      var r1 := CompletedPct(c1, total);
      var r2 := CompletedPct(c2, total);
      assert 2 * total * r1 <= 200 * c1 + total <= 200 * c2 + total < 2 * total * (r2 + 1);
      LessByFactor(r1, r2 + 1, 2 * total);
    }
  }

  /** The avatar letter: the first character of the name upper-cased, or "U"
      when there is no name or it is empty. */
  function AvatarInitial(name: Option<string>): (r: string)
    ensures |r| == 1
    ensures (name.None? || name.value == "") ==> r == "U"
    ensures name.Some? && name.value != "" ==> r[0] == UpperChar(name.value[0])
  {
    if name.Some? && |name.value| > 0 then [UpperChar(name.value[0])] else "U"
  }
}
