/**
 * Applying a thread's scheduling configuration (src/controller/jrtc_sched.c):
 * the normal policy needs no system call, FIFO passes the priority to
 * `pthread_setschedparam`, and DEADLINE builds a `sched_attr` whose times are
 * the configured microseconds turned into nanoseconds. The system calls are
 * modelled by the request they would receive and the result they return.
 */
module Sched {
  import opened Wrappers

  /** The controller's policies, `jrtc_sched_policy_e`. */
  const JRTC_SCHED_NORMAL := 0
  const JRTC_SCHED_FIFO := 1
  const JRTC_SCHED_DEADLINE := 2

  /** The kernel's policy numbers. */
  const SCHED_FIFO := 1
  const SCHED_DEADLINE := 6

  /** `sizeof(struct sched_attr)`: two 32-bit, one 64-bit, two 32-bit and three 64-bit fields. */
  const SCHED_ATTR_SIZE := 48

  const TWO_TO_THE_64 := 0x1_0000_0000_0000_0000

  type u64 = n: int | 0 <= n < TWO_TO_THE_64

  /** `jrtc_sched_config_t`; the policy is whatever number the configuration held. */
  datatype SchedConfig = SchedConfig(policy: int, priority: int, runtimeUs: u64, deadlineUs: u64, periodUs: u64)

  /** `struct sched_attr` as filled for `sched_setattr`. */
  datatype SchedAttr = SchedAttr(size: nat, policy: nat, flags: u64, nice: int, priority: nat,
                                 runtime: u64, deadline: u64, period: u64)

  /** The system call the configuration leads to. */
  datatype SchedCall =
    | NoCall
    | SetSchedParam(policy: int, priority: int)   // `pthread_setschedparam`
    | SetAttr(attr: SchedAttr)                     // `sched_setattr(0, &attr, 0)`

  /** Microseconds to nanoseconds in 64-bit unsigned arithmetic. */
  function Nanos(us: u64): u64
  {
    (us * 1000) % TWO_TO_THE_64
  }

  /**
   * The attribute the DEADLINE branch builds: the DEADLINE policy with no
   * flags, nice value or priority, and each time in nanoseconds, exact
   * while it fits 64 bits.
   */
  function DeadlineAttr(c: SchedConfig): (a: SchedAttr)
    ensures a.size == SCHED_ATTR_SIZE && a.policy == SCHED_DEADLINE && a.flags == 0 && a.nice == 0 && a.priority == 0
    ensures c.runtimeUs * 1000 < TWO_TO_THE_64 ==> a.runtime == c.runtimeUs * 1000
    ensures c.deadlineUs * 1000 < TWO_TO_THE_64 ==> a.deadline == c.deadlineUs * 1000
    ensures c.periodUs * 1000 < TWO_TO_THE_64 ==> a.period == c.periodUs * 1000
  {
    SchedAttr(SCHED_ATTR_SIZE, SCHED_DEADLINE, 0, 0, 0, Nanos(c.runtimeUs), Nanos(c.deadlineUs), Nanos(c.periodUs))
  }

  /**
   * `jrtc_thread_set_scheduler`: the return code and the call made, given
   * what that call returns (`callResult`).
   */
  function SetScheduler(config: Option<SchedConfig>, callResult: int): (r: (int, SchedCall))
    ensures config.None? ==> r == (-1, NoCall)
    ensures config.Some? && config.value.policy == JRTC_SCHED_NORMAL ==> r == (0, NoCall)
    ensures config.Some? && config.value.policy == JRTC_SCHED_FIFO ==>
      r == (callResult, SetSchedParam(SCHED_FIFO, config.value.priority))
    ensures config.Some? && config.value.policy == JRTC_SCHED_DEADLINE ==>
      r.0 == callResult && r.1.SetAttr? && r.1.attr.policy == SCHED_DEADLINE &&
      r.1.attr.flags == 0 && r.1.attr.nice == 0 && r.1.attr.priority == 0
    ensures config.Some? && config.value.policy !in {JRTC_SCHED_NORMAL, JRTC_SCHED_FIFO, JRTC_SCHED_DEADLINE} ==>
      r == (-2, NoCall)
  {
    match config
    case None => (-1, NoCall)
    case Some(c) =>
      if c.policy == JRTC_SCHED_NORMAL then (0, NoCall)
      else if c.policy == JRTC_SCHED_FIFO then (callResult, SetSchedParam(SCHED_FIFO, c.priority))
      else if c.policy == JRTC_SCHED_DEADLINE then (callResult, SetAttr(DeadlineAttr(c)))
      else (-2, NoCall)
  }

  /**
   * The DEADLINE times are exact, and give back the configured microseconds,
   * for any value below 2^64 / 1000 microseconds (about 584 years).
   */
  lemma DeadlineTimesExact(c: SchedConfig)
    requires c.policy == JRTC_SCHED_DEADLINE
    requires c.runtimeUs * 1000 < TWO_TO_THE_64 && c.deadlineUs * 1000 < TWO_TO_THE_64 && c.periodUs * 1000 < TWO_TO_THE_64
    ensures var attr := SetScheduler(Some(c), 0).1.attr;
      attr.runtime == c.runtimeUs * 1000 && attr.deadline == c.deadlineUs * 1000 && attr.period == c.periodUs * 1000 &&
      attr.runtime / 1000 == c.runtimeUs && attr.deadline / 1000 == c.deadlineUs && attr.period / 1000 == c.periodUs
  {
  }

  /** Beyond that the product wraps: 2^64 / 1000 rounded up gives 384 ns instead of 2^64 + 384. */
  lemma DeadlineTimesWrap()
    ensures Nanos(18446744073709552) == 384
  {
  }

  /** Only the DEADLINE and FIFO policies make a system call, and only their return codes come from it. */
  lemma OnlyRealPoliciesCall(config: Option<SchedConfig>, callResult: int)
    ensures var (rc, call) := SetScheduler(config, callResult);
      (call != NoCall <==> config.Some? && config.value.policy in {JRTC_SCHED_FIFO, JRTC_SCHED_DEADLINE}) &&
      (call == NoCall ==> rc in {-2, -1, 0})
  {
  }
}
