/** The parts of a Stellar transaction and its operations that the review
    screens read. Amounts are the decimal values of the SDK's amount
    strings. */
module StellarTypes {
  import opened Wrappers

  datatype OperationBody =
    | CreateAccount
    | Payment
    | ManageBuyOffer(buyAmount: real)
    | ManageSellOffer(amount: real)
    | ManageData(name: string)
    /** Any other operation; `kind` is its `type`, which is never one of
        "createAccount", "payment", "manageBuyOffer", "manageSellOffer" or
        "manageData", as those have their own constructors above. */
    | OtherOperation(kind: string)

  /** An operation, with its optional own source account. */
  datatype Operation = Operation(source: Option<string>, body: OperationBody)

  /** `fee` is the fee of the whole transaction in stroops, `sequence`
      the sequence number as a decimal string. */
  datatype Transaction = Transaction(source: string, sequence: string, fee: nat, operations: seq<Operation>)
}
