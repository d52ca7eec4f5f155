/**
 * The commission ledger: what makes a commission well formed, the sums the
 * store reports over filtered sets of commissions, and marking one as paid.
 */
module Ledger {
  import opened Options
  import opened Entities
  import opened Sequences
  import opened OrderedMap

  /** The fee is the fixed per-product amount and the total is amount × quantity. */
  predicate WellFormed(c: Commission) {
    c.amount == CommissionPerProduct && c.totalAmount == c.amount * c.quantity
  }

  predicate IsPending(c: Commission) {
    c.status == PaymentPending
  }

  predicate IsPaid(c: Commission) {
    c.status == Paid
  }

  function ChargedTo(customerId: Id): Commission -> bool {
    (c: Commission) => c.customerId == customerId
  }

  /** `reduce((sum, c) => sum + c.totalAmount, 0)` */
  function TotalAmount(cs: seq<Commission>): int {
    if |cs| == 0 then 0 else cs[0].totalAmount + TotalAmount(cs[1..])
  }

  function TotalQuantity(cs: seq<Commission>): int {
    if |cs| == 0 then 0 else cs[0].quantity + TotalQuantity(cs[1..])
  }

  lemma {:induction false} TotalAmountAppend(a: seq<Commission>, b: seq<Commission>)
    ensures TotalAmount(a + b) == TotalAmount(a) + TotalAmount(b)
  {
    if |a| == 0 {
      assert a + b == b;
    } else {
      assert (a + b)[1..] == a[1..] + b;
      TotalAmountAppend(a[1..], b);
    }
  }

  lemma {:induction false} TotalQuantityAppend(a: seq<Commission>, b: seq<Commission>)
    ensures TotalQuantity(a + b) == TotalQuantity(a) + TotalQuantity(b)
  {
    if |a| == 0 {
      assert a + b == b;
    } else {
      assert (a + b)[1..] == a[1..] + b;
      TotalQuantityAppend(a[1..], b);
    }
  }

  /** Over well-formed commissions, the total owed is the per-product fee times the quantity shipped. */
  lemma {:induction false} TotalIsFeeTimesQuantity(cs: seq<Commission>)
    requires forall i :: 0 <= i < |cs| ==> WellFormed(cs[i])
    ensures TotalAmount(cs) == CommissionPerProduct * TotalQuantity(cs)
  {
    if |cs| > 0 {
      TotalIsFeeTimesQuantity(cs[1..]);
    }
  }

  /** Every commission is pending or paid, so the two filtered totals add up to the whole. */
  lemma {:induction false} PendingPlusPaid(cs: seq<Commission>)
    ensures TotalAmount(Filter(cs, IsPending)) + TotalAmount(Filter(cs, IsPaid)) == TotalAmount(cs)
  {
    if |cs| > 0 {
      PendingPlusPaid(cs[1..]);
    }
  }

  /**
   * Replacing one commission changes a filtered total by what the old one
   * contributed and what the new one contributes, and by nothing else.
   */
  lemma {:induction false} FilteredTotalAfterUpdate(cs: seq<Commission>, i: nat, c: Commission, keep: Commission -> bool)
    requires i < |cs|
    ensures TotalAmount(Filter(cs[i := c], keep))
         == TotalAmount(Filter(cs, keep))
            - (if keep(cs[i]) then cs[i].totalAmount else 0)
            + (if keep(c) then c.totalAmount else 0)
  {
    if i > 0 {
      assert cs[i := c][1..] == cs[1..][i - 1 := c];
      FilteredTotalAfterUpdate(cs[1..], i - 1, c, keep);
    } else {
      assert cs[i := c][1..] == cs[1..];
    }
  }

  /** `markCommissionAsPaid` on the commission table: only the status of that one entry changes. */
  function MarkPaid(m: OMap<Id, Commission>, id: Id): (r: OMap<Id, Commission>)
    requires m.Valid()
    ensures r.Valid() && r.keys == m.keys
    ensures id !in m.entries ==> r == m
    ensures id in m.entries ==> r.entries == m.entries[id := m.entries[id].(status := Paid)]
  {
    if id in m.entries then m.Put(id, m.entries[id].(status := Paid)) else m
  }

  /** Paying a commission twice is the same as paying it once. */
  lemma MarkPaidIdempotent(m: OMap<Id, Commission>, id: Id)
    requires m.Valid()
    ensures MarkPaid(MarkPaid(m, id), id) == MarkPaid(m, id)
  {
  }

  /**
   * Paying a commission lowers the pending total by exactly its total if it
   * was pending (and leaves it alone if it was already paid or is unknown).
   */
  lemma PendingTotalAfterMarkPaid(m: OMap<Id, Commission>, id: Id)
    requires m.Valid()
    ensures TotalAmount(Filter(MarkPaid(m, id).Values(), IsPending))
         == TotalAmount(Filter(m.Values(), IsPending))
            - (if id in m.entries && IsPending(m.entries[id]) then m.entries[id].totalAmount else 0)
  {
    if id in m.entries {
      var c := m.entries[id];
      PutExistingKeepsPosition(m, id, c.(status := Paid));
      var i := IndexOf(m.keys, id).value;
      assert m.Values()[i] == c;
      FilteredTotalAfterUpdate(m.Values(), i, c.(status := Paid), IsPending);
    }
  }

  /** Paying a commission leaves every customer's commission total unchanged. */
  lemma CustomerTotalAfterMarkPaid(m: OMap<Id, Commission>, id: Id, customerId: Id)
    requires m.Valid()
    ensures TotalAmount(Filter(MarkPaid(m, id).Values(), ChargedTo(customerId)))
         == TotalAmount(Filter(m.Values(), ChargedTo(customerId)))
  {
    if id in m.entries {
      var c := m.entries[id];
      PutExistingKeepsPosition(m, id, c.(status := Paid));
      var i := IndexOf(m.keys, id).value;
      assert m.Values()[i] == c;
      FilteredTotalAfterUpdate(m.Values(), i, c.(status := Paid), ChargedTo(customerId));
    }
  }
}
