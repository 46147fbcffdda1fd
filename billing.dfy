/**
 * One month's bill as meter_reading computes it and the bill store keeps
 * it. Field names follow the stored JSON object: `thismr` is the reading
 * just submitted, `lastmr` the reading before it.
 */
module Billing {

  /** `perunit_cost`: the rate charged per unit consumed. */
  const PerUnitCost: real := 8.0

  datatype Record = Record(
    date: string,
    thismr: real,
    lastmr: real,
    unitConsumed: real,
    money: real,
    waterCost: real,
    tmoney: real,
    advance: real,
    gtMoney: real)

  /**
   * The identities that tie a bill's derived amounts to its inputs:
   * consumption is the difference of the readings, the energy cost is the
   * consumption at the unit rate, the total adds the water cost and the
   * grand total subtracts the advance.
   */
  predicate Consistent(r: Record)
  {
    && r.unitConsumed == r.thismr - r.lastmr
    && r.money == r.unitConsumed * PerUnitCost
    && r.tmoney == r.money + r.waterCost
    && r.gtMoney == r.tmoney - r.advance
  }

  /** The bill for a reading `cmReading` following `lmReading`. */
  function NewBill(date: string, cmReading: real, lmReading: real, waterM: real, advance: real): (r: Record)
    ensures Consistent(r)
    ensures r.date == date && r.thismr == cmReading && r.lastmr == lmReading
    ensures r.waterCost == waterM && r.advance == advance
  {
    var unitConsumed := cmReading - lmReading;
    var money := unitConsumed * PerUnitCost;
    var tMoney := money + waterM;
    Record(date, cmReading, lmReading, unitConsumed, money, waterM, tMoney, advance, tMoney - advance)
  }

  /** The derived amounts are determined by the inputs: a consistent record is the bill of its own inputs. */
  lemma ConsistentIsNewBill(r: Record)
    requires Consistent(r)
    ensures r == NewBill(r.date, r.thismr, r.lastmr, r.waterCost, r.advance)
  {
  }

  /** The grand total in one formula. */
  lemma GrandTotal(r: Record)
    requires Consistent(r)
    ensures r.gtMoney == (r.thismr - r.lastmr) * PerUnitCost + r.waterCost - r.advance
  {
  }
}
