/**
 * The dashboard's list of recent transactions: how the endpoint's payload is
 * turned into a list, and how each row shows its sign, colour, description
 * and currency. Its sign rule differs from the transaction card's.
 */
module RecentTransactions {
  import opened Common
  import opened Text
  import TransactionCard

  datatype RecentTransaction = RecentTransaction(
    id: string,
    txType: string,
    amount: real,
    description: Option<string>,
    currency: Option<string>)

  /**
   * The `data` field of a successful response: an array, an object whose
   * `transactions` field may be an array, or anything else (null included).
   */
  datatype Payload =
    | PayloadArray(items: seq<RecentTransaction>)
    | PayloadObject(transactions: Listed<RecentTransaction>)
    | PayloadOther

  /** The nested conditional that picks the list out of the payload. */
  function NormalizePayload(raw: Payload): (items: seq<RecentTransaction>)
    ensures raw.PayloadArray? ==> items == raw.items
    ensures raw.PayloadObject? && raw.transactions.Items? ==> items == raw.transactions.items
    ensures !raw.PayloadArray? && !(raw.PayloadObject? && raw.transactions.Items?) ==> items == []
  {
    match raw
    case PayloadArray(xs) => xs
    case PayloadObject(Items(xs)) => xs
    case _ => []
  }

  /** `transaction.type === 'WITHDRAWAL' ? '-' : '+'`. */
  function Sign(t: string): (sign: string)
    ensures sign == "-" <==> t == TransactionCard.Withdrawal
    ensures sign == "+" <==> t != TransactionCard.Withdrawal
  {
    if t == TransactionCard.Withdrawal then "-" else "+"
  }

  /** `getTransactionColor` of this list: only three types are coloured. */
  function Color(t: string): (color: string)
    ensures color == TransactionCard.Green <==> t == TransactionCard.Deposit
    ensures color == TransactionCard.Red <==> t == TransactionCard.Withdrawal
    ensures color == TransactionCard.Blue <==> t == TransactionCard.Transfer
    ensures color == TransactionCard.Gray <==>
      t != TransactionCard.Deposit && t != TransactionCard.Withdrawal && t != TransactionCard.Transfer
  {
    if t == TransactionCard.Deposit then TransactionCard.Green
    else if t == TransactionCard.Withdrawal then TransactionCard.Red
    else if t == TransactionCard.Transfer then TransactionCard.Blue
    else TransactionCard.Gray
  }

  /** `transaction.description || `${transaction.type.toLowerCase()} transaction``. */
  function DescriptionText(tx: RecentTransaction): (text: string)
    ensures tx.description.Some? && tx.description.value != "" ==> text == tx.description.value
    ensures (tx.description.None? || tx.description.value == "") ==> text == Lower(tx.txType) + " transaction"
  {
    OrElse(tx.description, Lower(tx.txType) + " transaction")
  }

  /** `currencyCode || 'NGN'` inside `formatCurrency`. */
  function CurrencyOf(tx: RecentTransaction): (code: string)
    ensures code != ""
    ensures tx.currency.Some? && tx.currency.value != "" ==> code == tx.currency.value
    ensures tx.currency.None? || tx.currency.value == "" ==> code == "NGN"
  {
    OrElse(tx.currency, "NGN")
  }

  /**
   * The two lists agree on the sign of deposits, returns, dividends and
   * withdrawals; a transfer or an unknown type is unsigned on the card but
   * shown with `+` here.
   */
  lemma SignAgainstCard(t: string)
    ensures TransactionCard.IsCredit(t) || t == TransactionCard.Withdrawal ==> Sign(t) == TransactionCard.AmountSign(t)
    ensures !TransactionCard.IsCredit(t) && t != TransactionCard.Withdrawal ==> Sign(t) == "+" && TransactionCard.AmountSign(t) == ""
  {
  }

  /** Returns and dividends are green on the card but gray here, although both sides sign them `+`. */
  lemma ColorAgainstCard(t: string)
    ensures t == TransactionCard.Return || t == TransactionCard.Dividend ==>
      Color(t) == TransactionCard.Gray && TransactionCard.TransactionColor(t) == TransactionCard.Green && Sign(t) == "+"
    ensures t == TransactionCard.Deposit || t == TransactionCard.Withdrawal || t == TransactionCard.Transfer ==>
      Color(t) == TransactionCard.TransactionColor(t)
  {
  }
}
