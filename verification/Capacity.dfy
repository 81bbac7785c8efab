/**
  The capacity part of the message gateway's configuration check and the two tenant-count checks
  that use the same arithmetic.  The source computes in unsigned 64-bit integers that saturate.
*/
module Capacity {

  const U64_MAX: nat := 0xFFFF_FFFF_FFFF_FFFF

  type u64 = x: nat | x <= U64_MAX

  function Cap(x: nat): u64 { if x > U64_MAX then U64_MAX else x }

  function SatMul(a: u64, b: u64): u64 { Cap(a * b) }

  function SatAdd(a: u64, b: u64): u64 { Cap(a + b) }

  function SatSub(a: u64, b: u64): u64 { if a < b then 0 else a - b }

  datatype Config = Config(
    clusterQueueLimit: u64,
    shardAdmissionPercent: u64,
    maxActiveTenants: u64,
    maxFanoutRecipients: u64,
    maxFanoutDeliveriesPerSecond: u64,
    maxGlobalPublishesPerSecond: u64,
    globalPublishBurst: u64,
    globalInteractiveReservedPerSecond: u64,
    reservedNonGlobalDeliveriesPerSecond: u64,
    fanoutUtilizationPercent: u64)

  function AdmittedQueues(c: Config): u64 { SatMul(c.clusterQueueLimit, c.shardAdmissionPercent) / 100 }

  function SafeDeliveryRate(c: Config): u64 { SatMul(c.maxFanoutDeliveriesPerSecond, c.fanoutUtilizationPercent) / 100 }

  function QueueBudget(tenants: u64): u64 { SatAdd(SatMul(tenants, 2), 16) }

  function RequiredRate(c: Config, tenants: u64): u64 {
    SatAdd(SatMul(c.maxGlobalPublishesPerSecond, tenants), c.reservedNonGlobalDeliveriesPerSecond)
  }

  predicate Accepts(c: Config) {
    && c.maxFanoutRecipients >= c.maxActiveTenants
    && QueueBudget(c.maxActiveTenants) <= AdmittedQueues(c)
    && c.maxGlobalPublishesPerSecond != 0
    && c.globalInteractiveReservedPerSecond != 0
    && c.globalInteractiveReservedPerSecond <= c.maxGlobalPublishesPerSecond
    && c.reservedNonGlobalDeliveriesPerSecond != 0
    && RequiredRate(c, c.maxActiveTenants) <= SafeDeliveryRate(c)
  }

  /** The count check on a proposed membership, and the one on the active tenants. */
  predicate AdmitsTenants(c: Config, tenants: u64) {
    && tenants <= c.maxActiveTenants
    && tenants <= c.maxFanoutRecipients
    && QueueBudget(tenants) <= AdmittedQueues(c)
    && RequiredRate(c, tenants) <= SafeDeliveryRate(c)
  }

  lemma CapBelow(x: nat)
    ensures Cap(x) / 100 <= x / 100
  {
  }

  lemma QueueBudgetExact(tenants: u64, right: nat)
    ensures QueueBudget(tenants) <= Cap(right) / 100 <==> 2 * tenants + 16 <= Cap(right) / 100
  {
  }

  lemma RequiredRateExact(c: Config, tenants: u64, right: nat)
    ensures RequiredRate(c, tenants) <= Cap(right) / 100
            <==> c.maxGlobalPublishesPerSecond * tenants + c.reservedNonGlobalDeliveriesPerSecond <= Cap(right) / 100
  {
  }

  /** Despite saturation the check compares the exact left sides; only the right sides are capped. */
  lemma AcceptsIff(c: Config)
    ensures Accepts(c) <==>
              && c.maxFanoutRecipients >= c.maxActiveTenants
              && 1 <= c.globalInteractiveReservedPerSecond <= c.maxGlobalPublishesPerSecond
              && c.reservedNonGlobalDeliveriesPerSecond >= 1
              && 2 * c.maxActiveTenants + 16 <= Cap(c.clusterQueueLimit * c.shardAdmissionPercent) / 100
              && c.maxGlobalPublishesPerSecond * c.maxActiveTenants + c.reservedNonGlobalDeliveriesPerSecond
                 <= Cap(c.maxFanoutDeliveriesPerSecond * c.fanoutUtilizationPercent) / 100
  {
  }

  /** Saturation is sound: an accepted configuration meets both inequalities in unbounded integers. */
  lemma AcceptedMeetsInequalities(c: Config)
    requires Accepts(c)
    ensures 2 * c.maxActiveTenants + 16 <= c.clusterQueueLimit * c.shardAdmissionPercent / 100
    ensures c.maxGlobalPublishesPerSecond * c.maxActiveTenants + c.reservedNonGlobalDeliveriesPerSecond
            <= c.maxFanoutDeliveriesPerSecond * c.fanoutUtilizationPercent / 100
  {
    AcceptsIff(c);
    CapBelow(c.clusterQueueLimit * c.shardAdmissionPercent);
    CapBelow(c.maxFanoutDeliveriesPerSecond * c.fanoutUtilizationPercent);
    hide Accepts, Cap;
  }

  /** Under an accepted configuration both tenant-count checks admit exactly the counts up to the maximum. */
  lemma AdmitsTenantsIff(c: Config, tenants: u64)
    requires Accepts(c)
    ensures AdmitsTenants(c, tenants) <==> tenants <= c.maxActiveTenants
  {
    AcceptsIff(c);
    QueueBudgetExact(tenants, c.clusterQueueLimit * c.shardAdmissionPercent);
    RequiredRateExact(c, tenants, c.maxFanoutDeliveriesPerSecond * c.fanoutUtilizationPercent);
    if tenants <= c.maxActiveTenants {
      Monotone(c.maxGlobalPublishesPerSecond, tenants, c.maxActiveTenants);
    }
  }

  /** The default limits, with a given number of tenants. */
  function Defaults(tenants: u64): Config {
    Config(1_000, 80, tenants, 400, 100_000, 100, 20, 10, 10_000, 80)
  }

  /** With the other defaults, at most 392 tenants are accepted, fewer than the default of 400. */
  lemma DefaultsAcceptIff(tenants: u64)
    ensures Accepts(Defaults(tenants)) <==> tenants <= 392
    ensures !Accepts(Defaults(400))
  {
    AcceptsIff(Defaults(tenants));
  }

  lemma Monotone(k: nat, a: nat, b: nat)
    requires a <= b
    ensures k * a <= k * b
  {
  }
}
