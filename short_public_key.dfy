/** The abbreviated display of a public key. */
module ShortPublicKey {
  import opened Wrappers

  datatype Variant = Short | Shorter

  datatype DigitCounts = DigitCounts(leading: nat, trailing: nat)

  /** `"short"` keeps six characters at each end; any other variant,
      including an absent one, keeps four. */
  function GetDigitCounts(variant: Option<Variant>): (r: DigitCounts)
    ensures variant == Some(Short) ==> r == DigitCounts(6, 6)
    ensures variant != Some(Short) ==> r == DigitCounts(4, 4)
  {
    if variant == Some(Short) then DigitCounts(6, 6) else DigitCounts(4, 4)
  }

  const Ellipsis: char := '…'

  /** A 56-character key shows its first and last characters around an
      ellipsis; any other string is shown as it is. */
  function ShortPublicKey(publicKey: string, variant: Option<Variant>): (r: string)
    ensures |publicKey| != 56 ==> r == publicKey
    ensures |publicKey| == 56 ==>
      var d := GetDigitCounts(variant);
      && |r| == d.leading + 1 + d.trailing
      && r[..d.leading] == publicKey[..d.leading]
      && r[d.leading] == Ellipsis
      && r[d.leading + 1..] == publicKey[56 - d.trailing..]
  {
    var digits := GetDigitCounts(variant);
    if |publicKey| != 56 then publicKey
    else publicKey[..digits.leading] + [Ellipsis] + publicKey[|publicKey| - digits.trailing..]
  }

  /** The abbreviation is 13 characters long for "short", 9 otherwise. */
  lemma ShortPublicKeyLength(publicKey: string, variant: Option<Variant>)
    requires |publicKey| == 56
    ensures |ShortPublicKey(publicKey, variant)| == if variant == Some(Short) then 13 else 9
  {
  }

  /** Every abbreviation contains exactly one ellipsis when the key itself
      has none. */
  lemma ShortPublicKeyOneEllipsis(publicKey: string, variant: Option<Variant>)
    requires |publicKey| == 56 && Ellipsis !in publicKey
    ensures var r := ShortPublicKey(publicKey, variant); var d := GetDigitCounts(variant);
      forall i :: 0 <= i < |r| ==> (r[i] == Ellipsis <==> i == d.leading)
  {
    var r := ShortPublicKey(publicKey, variant);
    var d := GetDigitCounts(variant);
    forall i | 0 <= i < |r| && i != d.leading ensures r[i] != Ellipsis {
      if i < d.leading {
        assert r[i] == publicKey[i];
      } else {
        assert r[i] == publicKey[56 - d.trailing + (i - d.leading - 1)];
      }
    }
  }

  /** Two keys with the same ends get the same abbreviation. */
  lemma ShortPublicKeyDependsOnEnds(a: string, b: string, variant: Option<Variant>)
    requires |a| == 56 && |b| == 56
    requires var d := GetDigitCounts(variant);
      a[..d.leading] == b[..d.leading] && a[56 - d.trailing..] == b[56 - d.trailing..]
    ensures ShortPublicKey(a, variant) == ShortPublicKey(b, variant)
  {
  }
}
