/**
 * How a transaction card presents a transaction type: its label, the sign
 * written before the amount, and the colour of the amount. The type is the
 * raw string the API sends; five values are known.
 */
module TransactionCard {
  import opened Common
  import opened Text

  const Deposit := "DEPOSIT"
  const Withdrawal := "WITHDRAWAL"
  const Transfer := "TRANSFER"
  const Return := "RETURN"
  const Dividend := "DIVIDEND"

  const Green := "text-green-600"
  const Red := "text-red-600"
  const Blue := "text-blue-600"
  const Gray := "text-gray-600"

  /** The types that add to a balance. */
  predicate IsCredit(t: string)
  {
    t == Deposit || t == Return || t == Dividend
  }

  predicate IsKnownType(t: string)
  {
    IsCredit(t) || t == Withdrawal || t == Transfer
  }

  /** `getTypeLabel`: a known type in capitalised form, any other type as it is. */
  function TypeLabel(t: string): (r: string)
    ensures !IsKnownType(t) ==> r == t
    ensures IsKnownType(t) ==> |r| == |t| && r[0] == t[0]
    ensures IsKnownType(t) ==> forall i :: 1 <= i < |t| ==> r[i] == ToLower(t[i])
  {
    if t == Deposit then "Deposit"
    else if t == Return then "Return"
    else if t == Dividend then "Dividend"
    else if t == Withdrawal then "Withdrawal"
    else if t == Transfer then "Transfer"
    else t
  }

  /** The sign `getAmountDisplay` writes before the formatted amount. */
  function AmountSign(t: string): (sign: string)
    ensures sign == "+" <==> IsCredit(t)
    ensures sign == "-" <==> t == Withdrawal
    ensures sign == "" <==> !IsCredit(t) && t != Withdrawal
  {
    if IsCredit(t) then "+" else if t == Withdrawal then "-" else ""
  }

  /** `getAmountDisplay(type, amount)`, given `formatCurrency(amount)`. */
  function AmountDisplay(t: string, formatted: string): (shown: string)
    ensures IsCredit(t) ==> shown == "+" + formatted
    ensures t == Withdrawal ==> shown == "-" + formatted
    ensures !IsCredit(t) && t != Withdrawal ==> shown == formatted
  {
    AmountSign(t) + formatted
  }

  /** `getTransactionColor`: green for the credit types, red for withdrawals, blue for transfers, gray for the rest. */
  function TransactionColor(t: string): (color: string)
    ensures color == Green <==> IsCredit(t)
    ensures color == Red <==> t == Withdrawal
    ensures color == Blue <==> t == Transfer
    ensures color == Gray <==> !IsKnownType(t)
  {
    if IsCredit(t) then Green
    else if t == Withdrawal then Red
    else if t == Transfer then Blue
    else Gray
  }

  /** The colour follows the sign: `+` is green, `-` is red, an unsigned transfer is blue, the rest gray. */
  lemma ColorMatchesSign(t: string)
    ensures AmountSign(t) == "+" <==> TransactionColor(t) == Green
    ensures AmountSign(t) == "-" <==> TransactionColor(t) == Red
    ensures AmountSign(t) == "" <==> TransactionColor(t) in {Blue, Gray}
    ensures TransactionColor(t) == Blue <==> t == Transfer
  {
  }

  /** `transaction.investment?.currency || 'NGN'`. */
  function CurrencyCode(investmentCurrency: Option<string>): (code: string)
    ensures code != ""
    ensures investmentCurrency.Some? && investmentCurrency.value != "" ==> code == investmentCurrency.value
    ensures investmentCurrency.None? || investmentCurrency.value == "" ==> code == "NGN"
  {
    OrElse(investmentCurrency, "NGN")
  }
}
