/** The guard that keeps the strategy to one open order per instrument
    (the loop over engine.getOrders() in SessionBreakoutStrategy.onBar). */
module Exposure {
  import opened Market
  import opened OrderLabel

  /** An open order that belongs to this strategy and this instrument. */
  predicate Blocks(prefix: string, instrument: Instrument, order: OpenOrder) {
    prefix <= order.orderLabel && order.instrument == instrument
  }

  predicate HasExposure(orders: seq<OpenOrder>, prefix: string, instrument: Instrument) {
    exists i :: 0 <= i < |orders| && Blocks(prefix, instrument, orders[i])
  }

  /** Scan the open orders and stop at the first one that blocks. */
  method CheckExposure(orders: seq<OpenOrder>, prefix: string, instrument: Instrument) returns (exposed: bool)
    ensures exposed <==> HasExposure(orders, prefix, instrument)
  {
    for i := 0 to |orders|
      invariant forall j :: 0 <= j < i ==> !Blocks(prefix, instrument, orders[j])
    {
      if prefix <= orders[i].orderLabel && orders[i].instrument == instrument {
        return true;
      }
    }
    return false;
  }

  /** An order the strategy labelled itself blocks the next one on the
      same instrument, whatever else is open. */
  lemma {:induction false} OwnOrderBlocks(orders: seq<OpenOrder>, prefix: string, instrument: Instrument, t: int)
    ensures HasExposure(orders + [OpenOrder(Label(prefix, t), instrument)], prefix, instrument)
  {
    var all := orders + [OpenOrder(Label(prefix, t), instrument)];
    assert Blocks(prefix, instrument, all[|orders|]);
  }

  /** Exposure of a concatenation is exposure of either part. */
  lemma {:induction false} ExposureAppend(a: seq<OpenOrder>, b: seq<OpenOrder>, prefix: string, instrument: Instrument)
    ensures HasExposure(a + b, prefix, instrument) <==> HasExposure(a, prefix, instrument) || HasExposure(b, prefix, instrument)
  {
    if HasExposure(a + b, prefix, instrument) {
      var i :| 0 <= i < |a + b| && Blocks(prefix, instrument, (a + b)[i]);
      if i >= |a| {
        assert (a + b)[i] == b[i - |a|];
      }
    }
    if HasExposure(b, prefix, instrument) {
      var i :| 0 <= i < |b| && Blocks(prefix, instrument, b[i]);
      assert (a + b)[|a| + i] == b[i];
    }
    if HasExposure(a, prefix, instrument) {
      var i :| 0 <= i < |a| && Blocks(prefix, instrument, a[i]);
      assert (a + b)[i] == a[i];
    }
  }

  /** Orders on other instruments, or labelled without the prefix, never block. */
  lemma ForeignOrdersNeverBlock(orders: seq<OpenOrder>, prefix: string, instrument: Instrument)
    requires forall i :: 0 <= i < |orders| ==> orders[i].instrument != instrument || !(prefix <= orders[i].orderLabel)
    ensures !HasExposure(orders, prefix, instrument)
  {
  }
}
