/**
  The kinds of tax. The set is closed and each kind carries a fixed rate,
  held as an integer percentage so that tax amounts stay exact.
 */
module Taxes {

  datatype Tax = BasicSales | ImportDuty

  /** The tax kinds, listed once each. */
  function AllTaxes(): (all: set<Tax>)
    ensures |all| == 2
  {
    {BasicSales, ImportDuty}
  }

  /** The list of tax kinds is complete: the enumeration is closed. */
  lemma AllTaxesComplete()
    ensures forall t: Tax :: t in AllTaxes()
  {
    forall t: Tax ensures t in AllTaxes() {
      match t
      case BasicSales =>
      case ImportDuty =>
    }
  }

  /** The rate fixed for each tax kind, in percent: 0.1 and 0.05. */
  function RatePercent(t: Tax): (pct: nat)
    ensures 0 < pct < 100
  {
    match t
    case BasicSales => 10
    case ImportDuty => 5
  }

  /** The position of a tax kind in declaration order. */
  function Ordinal(t: Tax): nat {
    match t
    case BasicSales => 0
    case ImportDuty => 1
  }

  /** A tax set is determined by which of the two kinds it holds. */
  lemma TaxSetByMembers(taxes: set<Tax>)
    ensures taxes == (if BasicSales in taxes then {BasicSales} else {})
                   + (if ImportDuty in taxes then {ImportDuty} else {})
  {
    AllTaxesComplete();
    forall t | t in taxes
      ensures t in (if BasicSales in taxes then {BasicSales} else {})
                 + (if ImportDuty in taxes then {ImportDuty} else {})
    {
      assert t in AllTaxes();
    }
  }

  /** The members of a tax set in the order an enum set visits them:
      declaration order, each member once. */
  function InOrder(taxes: set<Tax>): (ts: seq<Tax>)
    ensures forall t :: t in ts <==> t in taxes
    ensures |ts| == |taxes|
    ensures forall i, j :: 0 <= i < j < |ts| ==> Ordinal(ts[i]) < Ordinal(ts[j])
  {
    TaxSetByMembers(taxes);
    (if BasicSales in taxes then [BasicSales] else []) +
    (if ImportDuty in taxes then [ImportDuty] else [])
  }
}
