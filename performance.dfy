/** The running totals of pips and profit/loss over the strategy's closed
    orders (SessionBreakoutStrategy.onMessage). */
module Performance {

  /** IMessage.Type: the two kinds the strategy reacts to, and the rest. */
  datatype MessageKind = OrderFillOk | OrderCloseOk | OtherMessage

  /** The part of the message's order (IOrder) the totals read. */
  datatype MessageOrder = MessageOrder(orderLabel: string, profitLossInPips: real, profitLossInAccountCurrency: real)

  datatype Message = Message(kind: MessageKind, order: MessageOrder)

  datatype Totals = Totals(pips: real, profitLoss: real)

  /** A close of one of this strategy's orders. */
  predicate Credited(prefix: string, m: Message) {
    m.kind == OrderCloseOk && prefix <= m.order.orderLabel
  }

  /** One onMessage call: a credited close adds its pips and
      account-currency P&L; fills and other messages only print, or do
      nothing, and so does a close of an order without the prefix. */
  function Record(totals: Totals, prefix: string, m: Message): (r: Totals)
    ensures !Credited(prefix, m) ==> r == totals
    ensures Credited(prefix, m) ==>
      r.pips - totals.pips == m.order.profitLossInPips
      && r.profitLoss - totals.profitLoss == m.order.profitLossInAccountCurrency
  {
    if m.kind == OrderCloseOk && prefix <= m.order.orderLabel then
      Totals(totals.pips + m.order.profitLossInPips, totals.profitLoss + m.order.profitLossInAccountCurrency)
    else totals
  }

  /** The totals after a run of messages, in arrival order. Fills, other
      messages and closes of orders without the prefix leave the totals
      alone. */
  function RecordAll(totals: Totals, prefix: string, msgs: seq<Message>): (r: Totals)
    ensures (forall i :: 0 <= i < |msgs| ==> !Credited(prefix, msgs[i])) ==> r == totals
    decreases |msgs|
  {
    if msgs == [] then totals
    else
      var front := msgs[..|msgs| - 1];
      assert forall i :: 0 <= i < |front| ==> front[i] == msgs[i];
      Record(RecordAll(totals, prefix, front), prefix, msgs[|msgs| - 1])
  }

  /** The pips of the credited closes in msgs. */
  function CreditedPips(prefix: string, msgs: seq<Message>): real
    decreases |msgs|
  {
    if msgs == [] then 0.0
    else (if Credited(prefix, msgs[0]) then msgs[0].order.profitLossInPips else 0.0)
         + CreditedPips(prefix, msgs[1..])
  }

  /** The account-currency P&L of the credited closes in msgs. */
  function CreditedProfitLoss(prefix: string, msgs: seq<Message>): real
    decreases |msgs|
  {
    if msgs == [] then 0.0
    else (if Credited(prefix, msgs[0]) then msgs[0].order.profitLossInAccountCurrency else 0.0)
         + CreditedProfitLoss(prefix, msgs[1..])
  }

  lemma {:induction false} CreditedSnoc(prefix: string, msgs: seq<Message>, m: Message)
    ensures CreditedPips(prefix, msgs + [m])
         == CreditedPips(prefix, msgs) + (if Credited(prefix, m) then m.order.profitLossInPips else 0.0)
    ensures CreditedProfitLoss(prefix, msgs + [m])
         == CreditedProfitLoss(prefix, msgs) + (if Credited(prefix, m) then m.order.profitLossInAccountCurrency else 0.0)
    decreases |msgs|
  {
    if msgs != [] {
      assert (msgs + [m])[1..] == msgs[1..] + [m];
      CreditedSnoc(prefix, msgs[1..], m);
    } else {
      assert [m][1..] == [];
    }
  }

  /** The totals are the start values plus exactly the pips and P&L of the
      credited closes, however the messages are interleaved. */
  lemma {:induction false} RecordAllIsSum(totals: Totals, prefix: string, msgs: seq<Message>)
    ensures RecordAll(totals, prefix, msgs)
         == Totals(totals.pips + CreditedPips(prefix, msgs), totals.profitLoss + CreditedProfitLoss(prefix, msgs))
    decreases |msgs|
  {
    if msgs != [] {
      var front := msgs[..|msgs| - 1];
      RecordAllIsSum(totals, prefix, front);
      CreditedSnoc(prefix, front, msgs[|msgs| - 1]);
      assert front + [msgs[|msgs| - 1]] == msgs;
    }
  }

  /** Two closes of +12.3 / -4.1 pips and +50.0 / -10.0 in P&L add up to
      8.2 pips and 40.0. */
  lemma TwoClosesExample(prefix: string, a: string, b: string)
    requires prefix <= a && prefix <= b
    ensures RecordAll(Totals(0.0, 0.0), prefix,
                      [Message(OrderCloseOk, MessageOrder(a, 12.3, 50.0)),
                       Message(OrderFillOk, MessageOrder(b, 99.0, 99.0)),
                       Message(OrderCloseOk, MessageOrder(b, -4.1, -10.0))])
         == Totals(8.2, 40.0)
  {
    var msgs := [Message(OrderCloseOk, MessageOrder(a, 12.3, 50.0)),
                 Message(OrderFillOk, MessageOrder(b, 99.0, 99.0)),
                 Message(OrderCloseOk, MessageOrder(b, -4.1, -10.0))];
    RecordAllIsSum(Totals(0.0, 0.0), prefix, msgs);
    var last := msgs[2..];
    assert last[1..] == [];
    assert CreditedPips(prefix, last) == -4.1 && CreditedProfitLoss(prefix, last) == -10.0;
    assert msgs[1..][1..] == last;
    assert CreditedPips(prefix, msgs[1..]) == -4.1 && CreditedProfitLoss(prefix, msgs[1..]) == -10.0;
  }
}
