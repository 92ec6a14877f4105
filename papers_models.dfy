/** Paper documents (quotations, invoices, delivery notes) and their line items:
    a line item's amount is quantity times unit price, and a document's totals
    are derived from its items and its tax percentage. */
module PaperModels {
  import opened Sums

  /** A line item of a paper document. Saving stores quantity times unit price. */
  class PaperItem {
    var description: string
    var quantity: real
    var unitPrice: real
    var amount: real

    constructor (description: string, quantity: real, unitPrice: real, amount: real)
      ensures this.description == description && this.quantity == quantity
      ensures this.unitPrice == unitPrice && this.amount == amount
    {
      this.description := description;
      this.quantity := quantity;
      this.unitPrice := unitPrice;
      this.amount := amount;
    }

    /** Whatever the amount held, saving overwrites it with quantity times unit price. */
    method Save()
      modifies this`amount
      ensures amount == quantity * unitPrice
    {
      amount := quantity * unitPrice;
    }
  }

  /** The stored amounts of a list of items, in order. */
  function Amounts(items: seq<PaperItem>): (r: seq<real>)
    reads items
    ensures |r| == |items|
    ensures forall i :: 0 <= i < |items| ==> r[i] == items[i].amount
    decreases |items|
  {
    if items == [] then [] else [items[0].amount] + Amounts(items[1..])
  }

  function Id(x: real): real { x }

  /** The sum of a list of amounts; 0 for the empty list, as Python's sum(). */
  function Total(xs: seq<real>): real
  {
    SumBy(xs, Id)
  }

  /** The derived figures of a document: subtotal, tax and grand total. */
  datatype Totals = Totals(subtotal: real, taxAmount: real, total: real)

  /** Tax is the percentage of the subtotal when the percentage is positive, nothing otherwise. */
  function TaxOf(taxPercentage: real, subtotal: real): (tax: real)
    ensures taxPercentage <= 0.0 ==> tax == 0.0
    ensures taxPercentage > 0.0 && subtotal > 0.0 ==> tax > 0.0
    ensures taxPercentage > 0.0 ==> tax * 100.0 == taxPercentage * subtotal
  {
    if taxPercentage > 0.0 then (taxPercentage / 100.0) * subtotal else 0.0
  }

  function TotalsOf(taxPercentage: real, amounts: seq<real>): (r: Totals)
    ensures r.subtotal == Total(amounts)
    ensures r.taxAmount == TaxOf(taxPercentage, r.subtotal)
    ensures r.total == r.subtotal + r.taxAmount
    ensures amounts == [] ==> r == Totals(0.0, 0.0, 0.0)
  {
    var s := Total(amounts);
    Totals(s, TaxOf(taxPercentage, s), s + TaxOf(taxPercentage, s))
  }

  /** A paper document. The company is represented by its slug. */
  class PaperEntry {
    var companySlug: string
    var clientName: string
    var paperNumber: string
    var taxPercentage: real
    var subtotal: real
    var taxAmount: real
    var total: real
    var preparedBy: string
    var deliveredBy: string
    var receivedBy: string

    constructor (companySlug: string, clientName: string, paperNumber: string, taxPercentage: real)
      ensures this.companySlug == companySlug && this.clientName == clientName
      ensures this.paperNumber == paperNumber && this.taxPercentage == taxPercentage
      ensures subtotal == 0.0 && taxAmount == 0.0 && total == 0.0
      ensures preparedBy == "" && deliveredBy == "" && receivedBy == ""
    {
      this.companySlug := companySlug;
      this.clientName := clientName;
      this.paperNumber := paperNumber;
      this.taxPercentage := taxPercentage;
      subtotal := 0.0;
      taxAmount := 0.0;
      total := 0.0;
      preparedBy := "";
      deliveredBy := "";
      receivedBy := "";
    }

    function CurrentTotals(): Totals
      reads this
    {
      Totals(subtotal, taxAmount, total)
    }

    /** Sums the items' amounts, then derives tax and total. Only the three
        derived fields change. */
    method CalculateTotals(items: seq<PaperItem>)
      modifies this`subtotal, this`taxAmount, this`total
      ensures CurrentTotals() == TotalsOf(taxPercentage, Amounts(items))
    {
      var amounts := Amounts(items);
      var s := 0.0;
      var i := 0;
      while i < |items|
        invariant 0 <= i <= |items|
        invariant s == Total(amounts[..i])
      {
        assert amounts[..i + 1] == amounts[..i] + [items[i].amount];
        SumByAppend(amounts[..i], [items[i].amount], Id);
        s := s + items[i].amount;
        i := i + 1;
      }
      assert amounts[..i] == amounts;
      subtotal := s;
      if taxPercentage > 0.0 {
        taxAmount := (taxPercentage / 100.0) * subtotal;
      } else {
        taxAmount := 0.0;
      }
      total := subtotal + taxAmount;
    }
  }

  /** The subtotal does not depend on the order of the items. */
  lemma TotalsOrderFree(taxPercentage: real, xs: seq<real>, ys: seq<real>)
    requires multiset(xs) == multiset(ys)
    ensures TotalsOf(taxPercentage, xs) == TotalsOf(taxPercentage, ys)
  {
    SumByPermutation(xs, ys, Id);
  }

  /** Adding a line item of amount a raises the subtotal by a and the total by
      a plus its share of tax. */
  lemma {:induction false} TotalsAddItem(taxPercentage: real, xs: seq<real>, a: real)
    ensures TotalsOf(taxPercentage, xs + [a]).subtotal == TotalsOf(taxPercentage, xs).subtotal + a
    ensures TotalsOf(taxPercentage, xs + [a]).total ==
      TotalsOf(taxPercentage, xs).total + a + TaxOf(taxPercentage, a)
  {
    SumByAppend(xs, [a], Id);
    assert Total([a]) == a by { assert [a][1..] == []; }
  }

  /** With non-negative amounts and percentage, the figures are non-negative
      and the total is at least the subtotal. */
  lemma TotalsNonNegative(taxPercentage: real, xs: seq<real>)
    requires forall i :: 0 <= i < |xs| ==> xs[i] >= 0.0
    ensures 0.0 <= TotalsOf(taxPercentage, xs).subtotal <= TotalsOf(taxPercentage, xs).total
  {
    SumByNonNegative(xs, Id);
  }

  /** Once every item has been saved, the subtotal is the sum over the items of
      quantity times unit price. */
  lemma {:induction false} SavedItemsSubtotal(items: seq<PaperItem>)
    requires forall i :: 0 <= i < |items| ==> items[i].amount == items[i].quantity * items[i].unitPrice
    ensures Total(Amounts(items)) == LineSum(items)
    decreases |items|
  {
    if items != [] {
      SavedItemsSubtotal(items[1..]);
      assert Amounts(items) == [items[0].amount] + Amounts(items[1..]);
    }
  }

  /** The sum over the items of quantity times unit price. */
  function LineSum(items: seq<PaperItem>): real
    reads items
    decreases |items|
  {
    if items == [] then 0.0 else items[0].quantity * items[0].unitPrice + LineSum(items[1..])
  }
}
