/** How many events the auditbot's fixed-window throttle lets through in any
    interval as long as its window, for calls that do not overlap. */
module AuditBurst {
  import opened Seqs
  import opened AuditThrottle
  import opened AuditSerial

  /** Over any half-open interval as long as the window, at most 2*Max - 1 events
      of a type are admitted: the interval meets at most two windows, and it has
      missed the opening event of the earlier one. */
  lemma BurstBound(rule: Rule, times: seq<int>, from: int)
    requires times != [] && Nondecreasing(times)
    requires rule.max > 0 && rule.window > 0
    ensures Count(Play(rule, times).1, AdmittedDuring(from, rule.window)) <= SerialMost(rule)
  {
    PlayKeepsInv(rule, times);
    var (b, trace) := Play(rule, times);
    TraceBound(rule, b, trace, from);
  }

  // ----- The bound is attained -----

  /** No smaller bound holds, whatever the rule. */
  lemma BurstBoundIsTight(rule: Rule)
    requires rule.max > 0 && rule.window > 0
    ensures exists times, from :: times != [] && Nondecreasing(times)
              && Count(Play(rule, times).1, AdmittedDuring(from, rule.window)) == SerialMost(rule)
  {
    var times := WorstCase(rule, 2 * rule.max);
    assert Nondecreasing(times);
    WorstCasePlay(rule, 2 * rule.max);
    hide Play, AdmittedDuring, Nondecreasing, WorstCaseBucket, Count;
  }
}
