/** The connection budgets of the ingress: deploy/ingress.py. */
module Ingress {
  import opened Basics
  import Arith

  /** The fields the budgets depend on. */
  datatype Options = Options(
    originWorkers: int, originSlots: int, originActivePerWorker: Option<int>, proxyWorkers: int, proxyConnections: int)

  predicate InRange(o: Options) {
    && 1 <= o.originWorkers <= 256 && 1 <= o.originSlots <= 8176
    && (o.originActivePerWorker.Some? ==> 1 <= o.originActivePerWorker.value <= o.originSlots)
    && 1 <= o.proxyWorkers <= 256 && 16 <= o.proxyConnections <= 1_000_000
  }

  function Max(a: int, b: int): int { if a < b then b else a }
  function Min(a: int, b: int): int { if a < b then a else b }

  function ConnectionBudget(o: Options): int { o.originWorkers * Max(1, o.originSlots * 3 / 4) }

  function IdlePerWorker(o: Options): int
    requires o.proxyWorkers > 0
  {
    Min(32, ConnectionBudget(o) / (2 * o.proxyWorkers))
  }

  function ActiveBudget(o: Options): int
    requires o.proxyWorkers > 0
  {
    var available := ConnectionBudget(o) - o.proxyWorkers * IdlePerWorker(o);
    if o.originActivePerWorker.Some? then Min(available, o.originWorkers * o.originActivePerWorker.value) else available
  }

  /** `validate`, as far as the budgets go. */
  predicate Accepted(o: Options) {
    && InRange(o)
    && ConnectionBudget(o) >= 2 * o.proxyWorkers
    && 2 * ActiveBudget(o) + IdlePerWorker(o) < o.proxyConnections
  }

  lemma IdleShare(budget: nat, proxies: nat, idle: nat)
    requires proxies >= 1 && budget >= 2 * proxies && idle == Min(32, budget / (2 * proxies))
    ensures 1 <= idle <= 32 && 2 * (proxies * idle) <= budget
  {
    Arith.DivRange(budget, 2 * proxies, 1, budget + 1);
    Arith.DivBounds(budget, 2 * proxies);
    Arith.MulMonotone(idle, budget / (2 * proxies), 2 * proxies);
    Doubled(idle, proxies);
  }

  lemma Doubled(idle: nat, proxies: nat)
    ensures idle * (2 * proxies) == 2 * (proxies * idle)
  {
  }

  lemma AtMostSlots(workers: nat, slots: nat, share: nat)
    requires slots >= 1 && share == Max(1, slots * 3 / 4)
    ensures workers * share <= workers * slots && (workers >= 1 ==> workers * share >= 1)
  {
    Arith.MulMonotone(share, slots, workers);
    Arith.MulMonotone(1, share, workers);
  }

  /**
   Every accepted configuration keeps idle and active connections within what the origin can hold,
   respects the explicit cap, and without a cap leaves at least half of the budget active.
   */
  lemma BudgetsHold(o: Options)
    requires Accepted(o)
    ensures 1 <= IdlePerWorker(o) <= 32 && ActiveBudget(o) >= 1
    ensures ActiveBudget(o)
              + o.proxyWorkers * IdlePerWorker(o) <= ConnectionBudget(o) <= o.originWorkers * o.originSlots
    ensures o.originActivePerWorker.Some? ==> ActiveBudget(o) <= o.originWorkers * o.originActivePerWorker.value
    ensures o.originActivePerWorker.None? ==> 2 * ActiveBudget(o) >= ConnectionBudget(o)
    ensures 2 * ActiveBudget(o) + IdlePerWorker(o) < o.proxyConnections
  {
    AtMostSlots(o.originWorkers, o.originSlots, Max(1, o.originSlots * 3 / 4));
    IdleShare(ConnectionBudget(o), o.proxyWorkers, IdlePerWorker(o));
    if o.originActivePerWorker.Some? { Arith.MulMonotone(1, o.originActivePerWorker.value, o.originWorkers); }
  }

  lemma ShareBelow(budget: nat, proxies: nat, idle: nat)
    requires proxies >= 1 && 2 * (proxies * idle) <= budget
    ensures idle <= budget / (2 * proxies)
  {
    Doubled(idle, proxies);
    Arith.DivBounds(budget, 2 * proxies);
    if budget / (2 * proxies) < idle { Arith.MulMonotone(budget / (2 * proxies) + 1, idle, 2 * proxies); }
  }

  /** Three quarters rounded down, but at least one. */
  ghost predicate ThreeQuarters(slots: int, share: int) {
    share >= 1 && 3 * slots < 4 * (share + 1) && (share > 1 ==> 4 * share <= 3 * slots)
  }

  /**
   And the budgets are as large as that allows: three quarters of each worker's slots but at least
   one, up to 32 idle connections of each proxy within half of the total, and all the rest active.
   */
  lemma BudgetsAreLargest(o: Options, idle: nat, active: int)
    requires Accepted(o)
    ensures exists share :: ThreeQuarters(o.originSlots, share) && ConnectionBudget(o) == o.originWorkers * share
    ensures idle <= 32 && 2 * (o.proxyWorkers * idle) <= ConnectionBudget(o) ==> idle <= IdlePerWorker(o)
    ensures active + o.proxyWorkers * IdlePerWorker(o) <= ConnectionBudget(o)
            && (o.originActivePerWorker.Some? ==> active <= o.originWorkers * o.originActivePerWorker.value)
            ==> active <= ActiveBudget(o)
  {
    var share := Max(1, o.originSlots * 3 / 4);
    assert ThreeQuarters(o.originSlots, share);
    AtMostSlots(o.originWorkers, o.originSlots, share);
    if 2 * (o.proxyWorkers * idle) <= ConnectionBudget(o) { ShareBelow(ConnectionBudget(o), o.proxyWorkers, idle); }
  }
}
