/** The cost estimator (`estimate_cost`). */
module Costs {

  /** The `estimated_cost` object, all amounts in rupees. */
  datatype Cost = Cost(stayPerDay: int, foodPerDay: int, travelPerDay: int, totalInr: int)

  /** `food` is `round(avg * 0.3)`: within half a rupee of three tenths of
      the average. */
  predicate RoundsThreeTenths(food: int, avg: int) {
    -5 <= 10 * food - 3 * avg <= 5
  }

  /** `estimate_cost(days, avg_price)` with its rounded food amount and its
      travel draw (`random.randint(500, 2000)`) as arguments. */
  function EstimateCost(days: int, avgPrice: int, food: int, travel: int): (c: Cost)
    requires 500 <= travel <= 2000
    ensures c.stayPerDay == avgPrice && c.foodPerDay == food
    ensures 500 <= c.travelPerDay <= 2000
    ensures c.totalInr == (c.stayPerDay + c.foodPerDay + c.travelPerDay) * days
  {
    Cost(avgPrice, food, travel, (avgPrice + food + travel) * days)
  }

  /** The total is linear in the number of days: two trips cost what one
      trip of their combined length costs. */
  lemma TotalAddsOverDays(d1: int, d2: int, avgPrice: int, food: int, travel: int)
    requires 500 <= travel <= 2000
    ensures EstimateCost(d1 + d2, avgPrice, food, travel).totalInr ==
            EstimateCost(d1, avgPrice, food, travel).totalInr + EstimateCost(d2, avgPrice, food, travel).totalInr
  {
  }

  /** Ten times the daily cost lies between 13 times the stay price plus
      4995 and 13 times it plus 20005, so the total scales with the days. */
  lemma {:induction false} TotalBounds(days: nat, avgPrice: int, food: int, travel: int)
    requires 500 <= travel <= 2000 && RoundsThreeTenths(food, avgPrice)
    ensures days * (13 * avgPrice + 4995) <= 10 * EstimateCost(days, avgPrice, food, travel).totalInr
    ensures 10 * EstimateCost(days, avgPrice, food, travel).totalInr <= days * (13 * avgPrice + 20005)
  {
    var daily := avgPrice + food + travel;
    assert 13 * avgPrice + 4995 <= 10 * daily <= 13 * avgPrice + 20005;
    assert 10 * EstimateCost(days, avgPrice, food, travel).totalInr == days * (10 * daily);
    MulMono(days, 13 * avgPrice + 4995, 10 * daily);
    MulMono(days, 10 * daily, 13 * avgPrice + 20005);
  }

  lemma MulMono(k: nat, a: int, b: int)
    requires a <= b
    ensures k * a <= k * b
  {
  }
}
