/** The payment rule of app/agents/nodes.py. Money is in kobo, time in microseconds. */
module Decisions {
  datatype Decision = Hold | PayNow | Schedule

  type Time = int

  const DAY: int := 86_400_000_000

  /** `(due - now).days`: Python's timedelta rounds the day count down, also when it is negative. */
  function DaysUntil(due: Time, now: Time): (d: int)
    ensures d * 86_400_000_000 <= due - now < (d + 1) * 86_400_000_000
  {
    (due - now) / DAY
  }

  function Decide(balance: int, amount: int, fee: int, daysUntilDue: int): Decision {
    if balance < amount + fee then Hold
    else if daysUntilDue <= 3 then PayNow
    else Schedule
  }

  function DecideForBill(balance: int, amount: int, fee: int, due: Time, now: Time): Decision {
    Decide(balance, amount, fee, DaysUntil(due, now))
  }

  /** The rule on the clock itself: a payment goes out exactly when it can be covered and less than four
      full days are left, so three days and 23 hours still counts as three days. */
  lemma DecideOnTheClock(balance: int, amount: int, fee: int, due: Time, now: Time)
    ensures DecideForBill(balance, amount, fee, due, now) == PayNow
            <==> amount + fee <= balance && due - now < 345_600_000_000
    ensures DecideForBill(balance, amount, fee, due, now) == Hold <==> balance < amount + fee
    ensures due <= now ==> DecideForBill(balance, amount, fee, due, now) != Schedule
  {
  }
}
