/** Named trading-calendar constants of sigpytch/periods.py. */
module Periods {

  /** Trading days in a month. */
  const TradingDaysPerMonth: nat := 21

  /** Trading days in a year. */
  const TradingDaysPerYear: nat := 252
}
