/** The balance card: the amount it shows and how many fraction digits it allows. */
module BalanceCard {
  import opened Store

  /** `displayAmount`: the amount as given under the rouble sign, divided by the rate
      under any other sign. */
  function DisplayAmount(amount: real, currencySign: string, rate: Rate): (shown: real)
    ensures currencySign == "₽" ==> shown == amount
    ensures currencySign != "₽" ==> shown * rate == amount
  {
    if currencySign == "₽" then amount else amount / rate
  }

  /** The fraction-digit bounds passed to the number formatter. */
  datatype FractionDigits = FractionDigits(min: nat, max: nat)

  function DigitsFor(currencySign: string): (d: FractionDigits)
    ensures d.min <= d.max == 2
    ensures d.min == 2 <==> currencySign == "$"
    ensures d.min == 0 <==> currencySign != "$"
  {
    FractionDigits(if currencySign == "$" then 2 else 0, 2)
  }
}
