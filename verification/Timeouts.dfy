/** Timeout budgets and their slices (src/core/timeout.ts). Abort signals are left out. */
module Timeouts {
  import opened Wrappers

  datatype Budget = Budget(totalMs: int, startedAt: int, deadlineAt: int) {
    function Remaining(now: int): int {
      if deadlineAt > now then deadlineAt - now else 0
    }

    predicate HasTime(now: int) {
      now < deadlineAt
    }

    /** `slice`: a maximum of zero counts as none. The clock is read once. */
    function Slice(maxMs: Option<int>, now: int): Budget {
      var rem := Remaining(now);
      Create(if maxMs.Some? && maxMs.value != 0 && maxMs.value < rem then maxMs.value else rem, now)
    }
  }

  function Create(totalMs: int, now: int): Budget {
    Budget(totalMs, now, now + totalMs)
  }

  /**
   A slice never outlives its parent: whenever it has time, from the moment it is cut, so
   has the parent. Without a maximum, or with one the parent can afford, it gets all it asked for.
   */
  lemma SliceInsideParent(b: Budget, maxMs: Option<int>, now: int, later: int)
    requires now <= later
    ensures b.Slice(maxMs, now).HasTime(later) ==> b.HasTime(later)
    ensures b.HasTime(later) && (maxMs.None? || maxMs.value == 0 || later < now + maxMs.value) ==> b.Slice(maxMs, now).HasTime(later)
    ensures maxMs.Some? && maxMs.value != 0 && b.Slice(maxMs, now).HasTime(later) ==> later < now + maxMs.value
  {
  }

  /** What a slice grants: its maximum, if it has one, or the time left if that is less, and never less than nothing. */
  lemma SliceExactly(b: Budget, maxMs: Option<int>, now: int)
    ensures var (slice, left) := (b.Slice(maxMs, now), if b.deadlineAt > now then b.deadlineAt - now else 0);
            && slice.startedAt == now && slice.deadlineAt == now + slice.totalMs
            && slice.totalMs <= left
            && (maxMs.None? || maxMs == Some(0) || left <= maxMs.value ==> slice.totalMs == left)
            && (maxMs.Some? && maxMs.value != 0 && maxMs.value <= left ==> slice.totalMs == maxMs.value)
  {
  }

  /** A slice of a slice cannot outlive the first either. */
  lemma SlicesNest(b: Budget, outer: Option<int>, inner: Option<int>, now: int, then': int, later: int)
    requires now <= then' <= later
    ensures b.Slice(outer, now).Slice(inner, then').HasTime(later) ==> b.Slice(outer, now).HasTime(later) && b.HasTime(later)
  {
    SliceInsideParent(b, outer, now, later);
    SliceInsideParent(b.Slice(outer, now), inner, then', later);
  }
}
