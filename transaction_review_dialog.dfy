/** The title of the transaction review dialog. */
module TransactionReviewDialog {
  import opened Wrappers
  import opened StellarTypes

  /** `isPaymentOperation`: an account creation or a payment, and never an
      offer deletion. */
  function IsPaymentOperation(operation: Operation): (r: bool)
    ensures r <==> operation.body.CreateAccount? || operation.body.Payment?
    ensures r ==> !IsOfferDeletionOperation(operation)
  {
    operation.body.CreateAccount? || operation.body.Payment?
  }

  /** `isOfferDeletionOperation`: an offer update with amount zero, which
      deletes the offer. */
  function IsOfferDeletionOperation(operation: Operation): (r: bool)
    ensures r <==>
      || (operation.body.ManageBuyOffer? && operation.body.buyAmount == 0.0)
      || (operation.body.ManageSellOffer? && operation.body.amount == 0.0)
  {
    match operation.body
    case ManageBuyOffer(buyAmount) => buyAmount == 0.0
    case ManageSellOffer(amount) => amount == 0.0
    case _ => false
  }

  /** `operations.every(isPaymentOperation)`. */
  predicate AllPayments(operations: seq<Operation>) {
    forall i :: 0 <= i < |operations| ==> IsPaymentOperation(operations[i])
  }

  /** `operations.every(isOfferDeletionOperation)`. */
  predicate AllOfferDeletions(operations: seq<Operation>) {
    forall i :: 0 <= i < |operations| ==> IsOfferDeletionOperation(operations[i])
  }

  const TransactionTitle := "Transaction"
  const PaymentTitle := "Payment"
  const ConfirmPaymentTitle := "Confirm Payment"
  const DeleteOfferTitle := "Delete Offer"
  const WebAuthTitle := "Web Authentication"
  const ConfirmTransactionTitle := "Confirm Transaction"

  /** The title for `transaction`; `isWebAuth` is the verdict of the
      library's challenge test on it, and an absent `disabled` is false. */
  function Title(disabled: bool, transaction: Option<Transaction>, isWebAuth: bool): (r: string)
    ensures transaction.None? ==> r == TransactionTitle
    ensures transaction.Some? && AllPayments(transaction.value.operations) ==>
      r == (if disabled then PaymentTitle else ConfirmPaymentTitle)
    ensures (transaction.Some? && !AllPayments(transaction.value.operations)
             && AllOfferDeletions(transaction.value.operations)) ==>
      r == (if disabled then TransactionTitle else DeleteOfferTitle)
    ensures (transaction.Some? && !AllPayments(transaction.value.operations)
             && !AllOfferDeletions(transaction.value.operations)) ==>
      r == (if isWebAuth then WebAuthTitle else if disabled then TransactionTitle else ConfirmTransactionTitle)
  {
    match transaction
    case None => TransactionTitle
    case Some(tx) =>
      if AllPayments(tx.operations) then
        if disabled then PaymentTitle else ConfirmPaymentTitle
      else if AllOfferDeletions(tx.operations) then
        if disabled then TransactionTitle else DeleteOfferTitle
      else if isWebAuth then WebAuthTitle
      else if disabled then TransactionTitle else ConfirmTransactionTitle
  }

  /** A transaction without operations passes both `every` tests and gets
      the payment title. */
  lemma EmptyTransactionIsPayment(disabled: bool, transaction: Transaction, isWebAuth: bool)
    requires transaction.operations == []
    ensures Title(disabled, Some(transaction), isWebAuth) == if disabled then PaymentTitle else ConfirmPaymentTitle
  {
  }

  /** Payment titles win over the challenge test. */
  lemma PaymentsBeatWebAuth(disabled: bool, transaction: Transaction)
    requires AllPayments(transaction.operations)
    ensures Title(disabled, Some(transaction), true) == Title(disabled, Some(transaction), false)
  {
  }

  /** A non-empty transaction of offer deletions gets the deletion title,
      whatever the challenge test says. */
  lemma OfferDeletionsBeatWebAuth(disabled: bool, transaction: Transaction, isWebAuth: bool)
    requires transaction.operations != [] && AllOfferDeletions(transaction.operations)
    ensures Title(disabled, Some(transaction), isWebAuth) == if disabled then TransactionTitle else DeleteOfferTitle
  {
    var op := transaction.operations[0];
    assert IsOfferDeletionOperation(op);
    assert !IsPaymentOperation(op);
  }

  /** A disabled dialog shows one of three plain titles. */
  lemma DisabledTitles(transaction: Option<Transaction>, isWebAuth: bool)
    ensures Title(true, transaction, isWebAuth) in {TransactionTitle, PaymentTitle, WebAuthTitle}
  {
  }

  /** The confirming titles appear only in an enabled dialog. */
  lemma ConfirmTitlesNeedEnabled(disabled: bool, transaction: Option<Transaction>, isWebAuth: bool)
    requires Title(disabled, transaction, isWebAuth) in {ConfirmPaymentTitle, DeleteOfferTitle, ConfirmTransactionTitle}
    ensures !disabled
  {
  }

  /** The challenge test decides only for a mixed transaction. */
  lemma WebAuthTitleCondition(disabled: bool, transaction: Option<Transaction>, isWebAuth: bool)
    ensures Title(disabled, transaction, isWebAuth) == WebAuthTitle <==>
      transaction.Some? && !AllPayments(transaction.value.operations)
      && !AllOfferDeletions(transaction.value.operations) && isWebAuth
  {
  }
}
