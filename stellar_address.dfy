/** Recognisers for public keys (the `G…` account id of SEP-0023) and
    federation addresses (`name*domain`, SEP-0002), and the cache logic of
    a federation lookup. */
module StellarAddress {
  import opened Wrappers
  import opened Strings

  /** The three character classes the two patterns use. */
  datatype CharClass =
    | KeyChar      // [A-Z0-9]
    | AddressChar  // [^\*> \t\n\r]
    | LabelChar    // [^\*\.> \t\n\r]

  /** The white space and `>` that no part of an address may contain. */
  predicate IsBlank(c: char) { c == '>' || c == ' ' || c == '\t' || c == '\n' || c == '\r' }

  predicate InClass(c: char, k: CharClass) {
    match k
    case KeyChar => IsUpper(c) || IsDigit(c)
    case AddressChar => c != '*' && !IsBlank(c)
    case LabelChar => c != '*' && c != '.' && !IsBlank(c)
  }

  predicate AllIn(s: string, k: CharClass) {
    forall i :: 0 <= i < |s| ==> InClass(s[i], k)
  }

  /** Length of the longest prefix of `s` inside class `k`. */
  function RunLength(s: string, k: CharClass): (n: nat)
    ensures n <= |s|
    ensures n < |s| ==> !InClass(s[n], k)
    decreases |s|
  {
    if s == [] || !InClass(s[0], k) then 0 else 1 + RunLength(s[1..], k)
  }

  lemma {:induction false} RunLengthRun(s: string, k: CharClass)
    ensures AllIn(s[..RunLength(s, k)], k)
    decreases |s|
  {
    if s != [] && InClass(s[0], k) {
      RunLengthRun(s[1..], k);
      var n := RunLength(s, k);
      assert s[..n] == [s[0]] + s[1..][..n - 1];
    }
  }

  /** A prefix inside the class that is followed by the end or by a
      character outside it is the longest run. */
  lemma {:induction false} RunLengthExact(s: string, k: CharClass, n: nat)
    requires n <= |s| && AllIn(s[..n], k)
    requires n < |s| ==> !InClass(s[n], k)
    ensures RunLength(s, k) == n
    decreases |s|
  {
    if n > 0 {
      assert InClass(s[..n][0], k);
      assert s[1..][..n - 1] == s[..n][1..];
      RunLengthExact(s[1..], k, n - 1);
    }
  }

  /** `/^G[A-Z0-9]{55}$/`: a `G` followed by a run of exactly 55 key
      characters that reaches the end of the string. */
  function IsPublicKey(str: string): (r: bool)
    ensures r ==> |str| == 56 && str[0] == 'G'
  {
    |str| == 56 && str[0] == 'G' && RunLength(str[1..], KeyChar) == 55
  }

  /** The shape the pattern describes; it checks neither the base32
      alphabet nor the checksum of a real key. */
  lemma PublicKeyShape(str: string)
    ensures IsPublicKey(str) <==>
      |str| == 56 && str[0] == 'G' && forall i :: 1 <= i < 56 ==> IsUpper(str[i]) || IsDigit(str[i])
  {
    if |str| == 56 && str[0] == 'G' {
      var t := str[1..];
      if RunLength(t, KeyChar) == 55 {
        RunLengthRun(t, KeyChar);
        assert t[..55] == t;
        forall i | 1 <= i < 56 ensures IsUpper(str[i]) || IsDigit(str[i]) {
          assert str[i] == t[i - 1];
        }
      }
      if forall i :: 1 <= i < 56 ==> IsUpper(str[i]) || IsDigit(str[i]) {
        forall i | 0 <= i < 55 ensures InClass(t[i], KeyChar) {
          assert t[i] == str[i + 1];
        }
        assert t[..55] == t;
        RunLengthExact(t, KeyChar, 55);
      }
    }
  }

  /** `/^[^\*> \t\n\r]+\*[^\*\.> \t\n\r]+\.[^\*> \t\n\r]+$/`, matched
      left to right: the name is the longest run before the first `*`, the
      first domain label the longest run up to the next `.`, and the rest
      must reach the end of the string. */
  function AddressScan(str: string): bool {
    var n := RunLength(str, AddressChar);
    && 0 < n < |str| && str[n] == '*'
    && var rest := str[n + 1..];
       var m := RunLength(rest, LabelChar);
       && 0 < m < |rest| && rest[m] == '.'
       && var tail := rest[m + 1..];
          tail != [] && RunLength(tail, AddressChar) == |tail|
  }

  /** The language of the pattern, as a decomposition of the string: name,
      `*`, label, `.`, rest. */
  ghost predicate AddressPattern(str: string) {
    exists i, j :: 0 < i && i + 1 < j && j + 1 < |str| && str[i] == '*' && str[j] == '.'
      && AllIn(str[..i], AddressChar) && AllIn(str[i + 1..j], LabelChar) && AllIn(str[j + 1..], AddressChar)
  }

  lemma AllInAll(s: string, k: CharClass)
    requires AllIn(s, k)
    ensures RunLength(s, k) == |s|
  {
    assert s[..|s|] == s;
    RunLengthExact(s, k, |s|);
  }

  /** The positions of the `*` and the `.` the recogniser found. */
  lemma AddressDecomposition(str: string) returns (i: nat, j: nat)
    requires AddressScan(str)
    ensures 0 < i && i + 1 < j && j + 1 < |str| && str[i] == '*' && str[j] == '.'
    ensures AllIn(str[..i], AddressChar) && AllIn(str[i + 1..j], LabelChar) && AllIn(str[j + 1..], AddressChar)
  {
    var n := RunLength(str, AddressChar);
    var rest := str[n + 1..];
    var m := RunLength(rest, LabelChar);
    var tail := rest[m + 1..];
    RunLengthRun(str, AddressChar);
    RunLengthRun(rest, LabelChar);
    RunLengthRun(tail, AddressChar);
    assert tail[..|tail|] == tail;
    i, j := n, n + 1 + m;
    assert str[j] == rest[m];
    assert str[i + 1..j] == rest[..m];
    assert str[j + 1..] == tail;
  }

  lemma ScanMatchesPattern(str: string)
    requires AddressScan(str)
    ensures AddressPattern(str)
  {
    var i, j := AddressDecomposition(str);
  }

  lemma PatternMatchesScan(str: string)
    requires AddressPattern(str)
    ensures AddressScan(str)
  {
    var i, j :| 0 < i && i + 1 < j && j + 1 < |str| && str[i] == '*' && str[j] == '.'
      && AllIn(str[..i], AddressChar) && AllIn(str[i + 1..j], LabelChar) && AllIn(str[j + 1..], AddressChar);
    DecompositionIsAddress(str, i, j);
  }

  lemma DecompositionIsAddress(str: string, i: nat, j: nat)
    requires 0 < i && i + 1 < j && j + 1 < |str| && str[i] == '*' && str[j] == '.'
    requires AllIn(str[..i], AddressChar) && AllIn(str[i + 1..j], LabelChar) && AllIn(str[j + 1..], AddressChar)
    ensures AddressScan(str)
  {
    RunLengthExact(str, AddressChar, i);
    var rest := str[i + 1..];
    assert rest[..j - i - 1] == str[i + 1..j];
    assert rest[j - i - 1] == str[j];
    RunLengthExact(rest, LabelChar, j - i - 1);
    var tail := rest[j - i..];
    assert tail == str[j + 1..];
    AllInAll(tail, AddressChar);
  }

  /** The recogniser accepts exactly the language of the pattern. */
  lemma AddressScanIsPattern(str: string)
    ensures AddressScan(str) <==> AddressPattern(str)
  {
    if AddressScan(str) {
      ScanMatchesPattern(str);
    }
    if AddressPattern(str) {
      PatternMatchesScan(str);
    }
  }

  /** `isStellarAddress`: the strings the pattern accepts, and only those. */
  function IsStellarAddress(str: string): (r: bool)
    ensures r <==> AddressPattern(str)
  {
    AddressScanIsPattern(str);
    AddressScan(str)
  }

  /** An address has exactly one `*`, a non-empty name before it, and no
      space, tab, line break or `>` anywhere. */
  lemma StellarAddressShape(str: string) returns (star: nat)
    requires IsStellarAddress(str)
    ensures 0 < star < |str| && str[star] == '*'
    ensures forall k :: 0 <= k < |str| && str[k] == '*' ==> k == star
    ensures forall k :: 0 <= k < |str| ==> !IsBlank(str[k])
  {
    var i, j := AddressDecomposition(str);
    assert str[..i] == str[0..i];
    AllInSlice(str, 0, i, AddressChar);
    AllInSlice(str, i + 1, j, LabelChar);
    assert str[j + 1..] == str[j + 1..|str|];
    AllInSlice(str, j + 1, |str|, AddressChar);
    star := i;
    DecomposedShape(str, i, j);
  }

  lemma DecomposedShape(str: string, i: nat, j: nat)
    requires i < j < |str| && str[i] == '*' && str[j] == '.'
    requires forall x :: 0 <= x < i ==> InClass(str[x], AddressChar)
    requires forall x :: i < x < j ==> InClass(str[x], LabelChar)
    requires forall x :: j < x < |str| ==> InClass(str[x], AddressChar)
    ensures forall k :: 0 <= k < |str| && str[k] == '*' ==> k == i
    ensures forall k :: 0 <= k < |str| ==> !IsBlank(str[k])
  {
  }

  lemma AllInSlice(s: string, lo: nat, hi: nat, k: CharClass)
    requires lo <= hi <= |s| && AllIn(s[lo..hi], k)
    ensures forall x :: lo <= x < hi ==> InClass(s[x], k)
  {
    forall x | lo <= x < hi ensures InClass(s[x], k) {
      assert s[x] == s[lo..hi][x - lo];
    }
  }

  /** No string is both a public key and a federation address: a key has
      no `*`. */
  lemma PublicKeyIsNoAddress(str: string)
    ensures !(IsPublicKey(str) && IsStellarAddress(str))
  {
    if IsPublicKey(str) {
      PublicKeyShape(str);
      assert forall k :: 0 <= k < |str| ==> str[k] != '*';
    }
  }

  // ---------------------------------------------------------------------
  // lookupFederationRecord
  // ---------------------------------------------------------------------

  /** The part of a federation record the lookup uses. */
  datatype FederationRecord = FederationRecord(accountId: string, memoType: Option<string>, memo: Option<string>)

  /** A rejection of `resolveStellarAddress`: whether the error is truthy
      and carries a request and a response, and what `isNotFoundError`
      says of it. */
  datatype ResolveFailure = ResolveFailure(
    truthy: bool, hasRequest: bool, hasResponse: bool, notFound: bool, message: string)

  datatype LookupError =
    | RequestFailed(message: string)
    | AddressNotFound(message: string)
    | Rethrown(original: ResolveFailure)

  const RequestFailedPrefix := "Request for resolving the stellar address failed: "
  const NotFoundPrefix := "Stellar address not found: "

  /** The `catch` block: a request without a response comes first, then a
      not-found error; anything else is rethrown as it is. */
  function ClassifyResolveError(stellarAddress: string, error: ResolveFailure): (r: LookupError)
    ensures r.RequestFailed? <==> error.truthy && error.hasRequest && !error.hasResponse
    ensures r.AddressNotFound? <==> !(error.truthy && error.hasRequest && !error.hasResponse) && error.notFound
    ensures r.RequestFailed? ==> r.message == RequestFailedPrefix + stellarAddress
    ensures r.AddressNotFound? ==> r.message == NotFoundPrefix + stellarAddress
    ensures r.Rethrown? ==> r.original == error
  {
    if error.truthy && error.hasRequest && !error.hasResponse then
      RequestFailed(RequestFailedPrefix + stellarAddress)
    else if error.notFound then
      AddressNotFound(NotFoundPrefix + stellarAddress)
    else
      Rethrown(error)
  }

  /** The two caches handed to the lookup, and the number of resolve calls
      made so far. */
  class FederationLookup {
    var lookupCache: map<string, FederationRecord>
    var reverseLookupCache: map<string, string>
    var resolveCalls: nat

    /** Every reverse entry names an address whose cached record has that
        account id. */
    ghost predicate Valid()
      reads this
    {
      forall account :: account in reverseLookupCache ==>
        reverseLookupCache[account] in lookupCache
        && lookupCache[reverseLookupCache[account]].accountId == account
    }

    constructor ()
      ensures Valid()
      ensures lookupCache == map[] && reverseLookupCache == map[] && resolveCalls == 0
    {
      lookupCache := map[];
      reverseLookupCache := map[];
      resolveCalls := 0;
    }

    /** One lookup of `stellarAddress`; `outcome` is what the resolve call
        would deliver if it were made. */
    method Lookup(stellarAddress: string, outcome: Result<FederationRecord, ResolveFailure>)
      returns (r: Result<FederationRecord, LookupError>)
      requires Valid()
      modifies this
      ensures Valid()
      ensures stellarAddress in old(lookupCache) ==>
        && r == Success(old(lookupCache)[stellarAddress])
        && lookupCache == old(lookupCache) && reverseLookupCache == old(reverseLookupCache)
        && resolveCalls == old(resolveCalls)
      ensures stellarAddress !in old(lookupCache) ==> resolveCalls == old(resolveCalls) + 1
      ensures stellarAddress !in old(lookupCache) && outcome.Success? ==>
        && r == Success(outcome.value)
        && lookupCache == old(lookupCache)[stellarAddress := outcome.value]
        && reverseLookupCache == old(reverseLookupCache)[outcome.value.accountId := stellarAddress]
      ensures stellarAddress !in old(lookupCache) && outcome.Failure? ==>
        && r == Failure(ClassifyResolveError(stellarAddress, outcome.error))
        && lookupCache == old(lookupCache) && reverseLookupCache == old(reverseLookupCache)
    {
      if stellarAddress in lookupCache {
        return Success(lookupCache[stellarAddress]);
      }
      resolveCalls := resolveCalls + 1;
      match outcome
      case Failure(error) =>
        r := Failure(ClassifyResolveError(stellarAddress, error));
      case Success(resolved) =>
        lookupCache := lookupCache[stellarAddress := resolved];
        reverseLookupCache := reverseLookupCache[resolved.accountId := stellarAddress];
        r := Success(resolved);
    }
  }

  /** A second lookup of a resolved address is served from the cache. */
  method SecondLookupIsCached(stellarAddress: string, record: FederationRecord, ignored: Result<FederationRecord, ResolveFailure>)
    returns (first: Result<FederationRecord, LookupError>, second: Result<FederationRecord, LookupError>, calls: nat, reverse: Option<string>)
    ensures first == Success(record) && second == Success(record) && calls == 1
    ensures reverse == Some(stellarAddress)
  {
    var lookup := new FederationLookup();
    first := lookup.Lookup(stellarAddress, Success(record));
    second := lookup.Lookup(stellarAddress, ignored);
    calls := lookup.resolveCalls;
    reverse := if record.accountId in lookup.reverseLookupCache then Some(lookup.reverseLookupCache[record.accountId]) else None;
  }

  /** A failed lookup caches nothing, so the next lookup resolves again. */
  method FailureIsRetried(stellarAddress: string, error: ResolveFailure, record: FederationRecord)
    returns (first: Result<FederationRecord, LookupError>, second: Result<FederationRecord, LookupError>, calls: nat)
    ensures first == Failure(ClassifyResolveError(stellarAddress, error))
    ensures second == Success(record) && calls == 2
  {
    var lookup := new FederationLookup();
    first := lookup.Lookup(stellarAddress, Failure(error));
    second := lookup.Lookup(stellarAddress, Success(record));
    calls := lookup.resolveCalls;
  }
}
