/** The pure rules of the transaction summary: the web-authentication
    challenge test, which operation sources are shown, and the displayed
    fee. */
module TransactionSummary {
  import opened Wrappers
  import opened Strings
  import opened StellarTypes

  /** `/ auth$/i`: the name ends with " auth" in any letter case. */
  function EndsWithAuth(name: string): (r: bool)
    ensures r ==> |name| >= 5 && name[|name| - 5] == ' '
  {
    |name| >= 5 && Lower(name[|name| - 5..]) == " auth"
  }

  /** A SEP-0010 challenge as the summary recognises it: sequence number
      "0" and a first operation that is a `manageData` whose name ends in
      " auth". */
  function IsStellarWebAuth(transaction: Transaction): (r: bool)
    ensures r ==> transaction.operations != [] && transaction.operations[0].body.ManageData?
    ensures r ==> transaction.sequence == "0"
    ensures r <==>
      (&& transaction.sequence == "0"
       && |transaction.operations| > 0
       && transaction.operations[0].body.ManageData?
       && EndsWithAuth(transaction.operations[0].body.name))
  {
    && transaction.sequence == "0"
    && |transaction.operations| > 0
    && match transaction.operations[0].body
       case ManageData(name) => EndsWithAuth(name)
       case _ => false
  }

  lemma LowerUpperChar(c: char)
    ensures LowerChar(UpperChar(c)) == LowerChar(c)
  {
  }

  /** The test ignores letter case. */
  lemma EndsWithAuthIgnoresCase(name: string)
    ensures EndsWithAuth(Upper(name)) == EndsWithAuth(name)
    ensures EndsWithAuth(Lower(name)) == EndsWithAuth(name)
  {
    if |name| >= 5 {
      var k := |name| - 5;
      var t := name[k..];
      assert Upper(name)[k..] == Upper(t);
      assert Lower(name)[k..] == Lower(t);
      assert Lower(Upper(t)) == Lower(t) by {
        forall i | 0 <= i < 5 ensures Lower(Upper(t))[i] == Lower(t)[i] {
          LowerUpperChar(t[i]);
        }
      }
      assert Lower(Lower(t)) == Lower(t);
    }
  }

  /** The name matches exactly when its last five characters are a space
      and the letters a, u, t, h in either case. */
  lemma EndsWithAuthLetters(name: string)
    ensures EndsWithAuth(name) <==>
      |name| >= 5 && name[|name| - 5] == ' '
      && name[|name| - 4] in "aA" && name[|name| - 3] in "uU"
      && name[|name| - 2] in "tT" && name[|name| - 1] in "hH"
  {
    if |name| >= 5 {
      var t := name[|name| - 5..];
      assert t[0] == name[|name| - 5] && t[1] == name[|name| - 4] && t[2] == name[|name| - 3];
      assert t[3] == name[|name| - 2] && t[4] == name[|name| - 1];
      if name[|name| - 5] == ' ' && name[|name| - 4] in "aA" && name[|name| - 3] in "uU"
        && name[|name| - 2] in "tT" && name[|name| - 1] in "hH" {
        assert Lower(t) == " auth";
      }
    }
  }

  /** A transaction without operations is never a challenge. */
  lemma NoOperationsIsNoWebAuth(transaction: Transaction)
    requires transaction.operations == []
    ensures !IsStellarWebAuth(transaction)
  {
  }

  /** `operation.source || transaction.source`; the empty string counts as
      absent. */
  function EffectiveSource(operation: Operation, transaction: Transaction): (r: string)
    ensures operation.source.Some? && operation.source.value != "" ==> r == operation.source.value
    ensures (operation.source.None? || operation.source.value == "") ==> r == transaction.source
  {
    match operation.source
    case Some(s) => if s != "" then s else transaction.source
    case None => transaction.source
  }

  /** The case in which the source is left implicit: the operation acts for
      the transaction source, and that is the local account or no local
      account is given. */
  predicate SourceIsDefault(operation: Operation, transaction: Transaction, localAccountPubKey: Option<string>) {
    var effective := EffectiveSource(operation, transaction);
    effective == transaction.source
      && (localAccountPubKey == Some(effective) || localAccountPubKey.None? || localAccountPubKey.value == "")
  }

  function MakeOperationSourceExplicit(operation: Operation, transaction: Transaction, localAccountPubKey: Option<string>): (r: Operation)
    ensures r.body == operation.body
    ensures EffectiveSource(r, transaction) == EffectiveSource(operation, transaction)
    ensures SourceIsDefault(operation, transaction, localAccountPubKey) ==> r == operation
    ensures !SourceIsDefault(operation, transaction, localAccountPubKey) ==>
      r.source == Some(EffectiveSource(operation, transaction))
  {
    if SourceIsDefault(operation, transaction, localAccountPubKey) then operation
    else operation.(source := Some(EffectiveSource(operation, transaction)))
  }

  /** Making the source explicit a second time changes nothing. */
  lemma MakeOperationSourceExplicitIdempotent(operation: Operation, transaction: Transaction, localAccountPubKey: Option<string>)
    ensures var once := MakeOperationSourceExplicit(operation, transaction, localAccountPubKey);
      MakeOperationSourceExplicit(once, transaction, localAccountPubKey) == once
  {
    var once := MakeOperationSourceExplicit(operation, transaction, localAccountPubKey);
    assert SourceIsDefault(once, transaction, localAccountPubKey) == SourceIsDefault(operation, transaction, localAccountPubKey);
  }

  /** An operation whose source is another account always shows it. */
  lemma ForeignSourceIsShown(operation: Operation, transaction: Transaction, localAccountPubKey: Option<string>)
    requires operation.source.Some? && operation.source.value != "" && operation.source.value != transaction.source
    ensures MakeOperationSourceExplicit(operation, transaction, localAccountPubKey) == operation
  {
  }

  /** `BigNumber(fee).mul(operations.length).div(1e7)`, as written: the
      fee field in lumens, once for every operation. */
  function DisplayedFee(transaction: Transaction): (r: real)
    ensures r >= 0.0
    ensures r * 10000000.0 == (transaction.fee * |transaction.operations|) as real
  {
    (transaction.fee * |transaction.operations|) as real / 10000000.0
  }

  /** Each added operation adds the whole fee field once more. */
  lemma DisplayedFeeAdds(transaction: Transaction, more: seq<Operation>)
    ensures DisplayedFee(transaction.(operations := transaction.operations + more))
      == DisplayedFee(transaction) + (transaction.fee * |more|) as real / 10000000.0
  {
    var n, m := |transaction.operations|, |more|;
    assert transaction.fee * (n + m) == transaction.fee * n + transaction.fee * m;
  }

  /** The fee of the transaction in lumens: the fee field already is the
      total over all operations, in stroops. */
  function TotalFee(transaction: Transaction): (r: real)
    ensures r >= 0.0
    ensures r * 10000000.0 == transaction.fee as real
  {
    transaction.fee as real / 10000000.0
  }

  /** The displayed fee is the total fee times the number of operations, so
      it overstates the fee of every transaction with two or more
      operations and a positive fee. */
  lemma DisplayedFeeMultipliesTotal(transaction: Transaction)
    ensures DisplayedFee(transaction) == |transaction.operations| as real * TotalFee(transaction)
    ensures |transaction.operations| >= 2 && transaction.fee > 0 ==> DisplayedFee(transaction) > TotalFee(transaction)
  {
    var n, f := |transaction.operations| as real, transaction.fee as real;
    assert (transaction.fee * |transaction.operations|) as real == f * n;
    assert DisplayedFee(transaction) == n * (f / 10000000.0);
    if n >= 2.0 && f > 0.0 {
      assert n * (f / 10000000.0) > 1.0 * (f / 10000000.0);
    }
  }

  /** Two operations at the base fee of 100 stroops: the field holds 200,
      the transaction costs 0.00002 lumens, and 0.00004 is shown. */
  lemma TwoOperationFeeIsShownTwice(transaction: Transaction)
    requires transaction.fee == 200 && |transaction.operations| == 2
    ensures TotalFee(transaction) == 0.00002
    ensures DisplayedFee(transaction) == 0.00004
  {
  }

  /** The total fee is what the operations paid together: with a base fee
      per operation, it is the base fees summed over the operations. */
  lemma TotalFeeIsBaseFeesSummed(transaction: Transaction, baseFee: nat)
    requires transaction.fee == baseFee * |transaction.operations|
    ensures TotalFee(transaction) * 10000000.0 == |transaction.operations| as real * baseFee as real
  {
  }
}
