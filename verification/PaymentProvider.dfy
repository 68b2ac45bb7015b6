/** The payment provider: a durable ledger of results, one per idempotency key. */
module PaymentProvider {
  import opened Collections

  /** `pay:{order}` and `refund:{key}`; a provider reference is `psp_{key}`. */
  datatype Key = PayKey(order: nat) | RefundKey(of: Key)

  datatype ChargeResult = ChargeResult(ok: bool, pspRef: Option<Key>)

  /** A stored result. The amount is what money moved for it; the provider itself never reads it. */
  datatype Entry = Entry(result: ChargeResult, amount: int)

  datatype Ledger = Ledger(charges: map<Key, Entry>, refunds: map<Key, Entry>, captureCount: nat, refundCount: nat)

  function ResultOf(key: Key, ok: bool): ChargeResult {
    ChargeResult(ok, if ok then Some(key) else None)
  }

  /** Charge, or leave everything as it is when the key already has a result. */
  function AfterCharge(l: Ledger, key: Key, amount: int, ok: bool): Ledger {
    if key in l.charges then l
    else l.(charges := l.charges[key := Entry(ResultOf(key, ok), amount)],
            captureCount := l.captureCount + if ok then 1 else 0)
  }

  /** What a captured reference is worth. */
  function CapturedAmount(l: Ledger, pspRef: Key): int {
    if pspRef in l.charges && l.charges[pspRef].result.ok then l.charges[pspRef].amount else 0
  }

  function AfterRefund(l: Ledger, pspRef: Key, key: Key): Ledger {
    if key in l.refunds then l
    else l.(refunds := l.refunds[key := Entry(ChargeResult(true, Some(pspRef)), CapturedAmount(l, pspRef))],
            refundCount := l.refundCount + 1)
  }

  /** The keys whose charge was captured. */
  function Captures(l: Ledger): set<Key> {
    set k | k in l.charges && l.charges[k].result.ok
  }

  /** The counters count money movements, and every capture carries its reference. */
  predicate LedgerInv(l: Ledger) {
    && l.captureCount == |Captures(l)|
    && l.refundCount == |l.refunds|
    && forall k :: k in l.charges ==> l.charges[k].result == ResultOf(k, l.charges[k].result.ok)
  }

  lemma ChargeKeepsBooks(l: Ledger, key: Key, amount: int, ok: bool)
    requires LedgerInv(l)
    ensures LedgerInv(AfterCharge(l, key, amount, ok))
    ensures var after := AfterCharge(l, key, amount, ok).charges;
            forall k :: k in l.charges ==> k in after && after[k] == l.charges[k]
  {
    if key !in l.charges {
      assert Captures(AfterCharge(l, key, amount, ok)) == Captures(l) + if ok then {key} else {};
    }
  }

  lemma RefundKeepsBooks(l: Ledger, pspRef: Key, key: Key)
    requires LedgerInv(l)
    ensures LedgerInv(AfterRefund(l, pspRef, key))
  {
    assert Captures(AfterRefund(l, pspRef, key)) == Captures(l);
    if key !in l.refunds {
      assert AfterRefund(l, pspRef, key).refunds.Keys == l.refunds.Keys + {key};
    }
  }

  /** However often a key is presented and whatever the provider would now decide, the first result
      stands and no second capture happens. */
  lemma ChargeReplays(l: Ledger, key: Key, amount: int, ok: bool, again: int, ok': bool)
    ensures AfterCharge(AfterCharge(l, key, amount, ok), key, again, ok') == AfterCharge(l, key, amount, ok)
    ensures key in AfterCharge(l, key, amount, ok).charges
  {
  }

  /** The in-process provider: a stored result is returned unchanged; otherwise the next charges
      are declined while the failure budget lasts. The amounts are book-keeping beside the results
      and decide nothing. */
  class MockPsp {
    var charges: map<Key, Entry>
    var refunds: map<Key, Entry>
    var captureCount: nat
    var refundCount: nat
    var failNextCharges: nat

    ghost function View(): Ledger
      reads this
    {
      Ledger(charges, refunds, captureCount, refundCount)
    }

    constructor ()
      ensures View() == Ledger(map[], map[], 0, 0) && failNextCharges == 0
    {
      charges, refunds, captureCount, refundCount, failNextCharges := map[], map[], 0, 0, 0;
    }

    method Charge(amountCents: int, key: Key) returns (result: ChargeResult)
      modifies this
      ensures View() == AfterCharge(old(View()), key, amountCents, old(failNextCharges) == 0)
      ensures key in charges && charges[key].result == result
      ensures failNextCharges == if key !in old(charges) && old(failNextCharges) > 0
                                 then old(failNextCharges) - 1 else old(failNextCharges)
    {
      if key in charges {
        return charges[key].result;
      }
      if failNextCharges > 0 {
        failNextCharges := failNextCharges - 1;
        result := ChargeResult(false, None);
      } else {
        captureCount := captureCount + 1;
        result := ChargeResult(true, Some(key));
      }
      charges := charges[key := Entry(result, amountCents)];
    }

    method Refund(pspRef: Key, key: Key) returns (result: ChargeResult)
      modifies this
      ensures failNextCharges == old(failNextCharges)
      ensures View() == AfterRefund(old(View()), pspRef, key)
      ensures key in refunds && refunds[key].result == result
    {
      if key in refunds {
        return refunds[key].result;
      }
      refundCount := refundCount + 1;
      result := ChargeResult(true, Some(pspRef));
      var amount := if pspRef in charges && charges[pspRef].result.ok then charges[pspRef].amount else 0;
      refunds := refunds[key := Entry(result, amount)];
    }
  }
}
