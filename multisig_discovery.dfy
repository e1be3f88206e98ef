/** Resolution of a domain to its multi-signature coordinator endpoint, the
    `MULTISIG_ENDPOINT` field of the domain's stellar.toml (SEP-0001), with
    a process-wide success cache and a map of pending lookups. */
module MultisigDiscovery {
  import opened Wrappers

  /** The part of a fetched stellar.toml this resolver reads. */
  datatype StellarToml = StellarToml(multisigEndpoint: Option<string>)

  datatype ResolveError =
    | MultisigServiceNotLocatable(domain: string)
    | FetchFailed(reason: string)

  /** The state of one started fetch (one promise `pending`). */
  datatype OperationState = Running | Resolved(endpoint: string) | Rejected(error: ResolveError)

  datatype Operation = Operation(domain: string, state: OperationState)

  /** What one call of `resolveMultiSignatureCoordinator` returns at once:
      the cached endpoint, the already pending operation, or a call that is
      suspended at the `await workers` before any fetch is started. */
  datatype Call = Cached(endpoint: string) | Joined(operation: nat) | Suspended(ticket: nat)

  /** `toml?.MULTISIG_ENDPOINT` when it is truthy: an absent document, an
      absent field and the empty string all count as not locatable. */
  function LocatedEndpoint(toml: Option<StellarToml>): (r: Option<string>)
    ensures r.Some? <==> (toml.Some? && toml.value.multisigEndpoint.Some? && toml.value.multisigEndpoint.value != "")
    ensures r.Some? ==> r.value == toml.value.multisigEndpoint.value && r.value != ""
  {
    match toml
    case None => None
    case Some(t) =>
      match t.multisigEndpoint
      case None => None
      case Some(e) => if e == "" then None else Some(e)
  }

  /** The two module-level maps and the fetches started so far. Operations
      are numbered by the order in which their fetches started; tickets
      number the calls suspended at the `await` of line 14. */
  class CoordinatorResolver {
    var cache: map<string, string>
    var pending: map<string, nat>
    var operations: seq<Operation>
    var waiting: map<nat, string>
    var tickets: nat

    ghost predicate Valid()
      reads this
    {
      && (forall d :: d in pending ==>
            pending[d] < |operations| && operations[pending[d]].domain == d
            && (operations[pending[d]].state.Running?
                || operations[pending[d]].state == Rejected(MultisigServiceNotLocatable(d))))
      && (forall t :: t in waiting ==> t < tickets)
      && (forall d :: d in cache ==> cache[d] != "")
    }

    constructor ()
      ensures Valid()
      ensures cache == map[] && pending == map[] && operations == [] && waiting == map[] && tickets == 0
    {
      cache := map[];
      pending := map[];
      operations := [];
      waiting := map[];
      tickets := 0;
    }

    /** A call for `domain`: a cache hit or a pending hit changes nothing and
        starts no fetch; otherwise the call is suspended and registers
        nothing in `pending` yet. */
    method Resolve(domain: string) returns (c: Call)
      requires Valid()
      modifies this`waiting, this`tickets
      ensures Valid()
      ensures domain in cache ==> c == Cached(cache[domain])
      ensures domain !in cache && domain in pending ==> c == Joined(pending[domain])
      ensures (domain in cache || domain in pending) ==> waiting == old(waiting) && tickets == old(tickets)
      ensures domain !in cache && domain !in pending ==>
        && c == Suspended(old(tickets))
        && waiting == old(waiting)[old(tickets) := domain] && tickets == old(tickets) + 1
    {
      if domain in cache {
        c := Cached(cache[domain]);
      } else if domain in pending {
        c := Joined(pending[domain]);
      } else {
        c := Suspended(tickets);
        waiting := waiting[tickets := domain];
        tickets := tickets + 1;
      }
    }

    /** The `await workers` of a suspended call completes: one fetch starts
        and its operation is stored in `pending`, replacing any entry that a
        call resumed earlier stored there. */
    method Resume(ticket: nat) returns (op: nat)
      requires Valid() && ticket in waiting
      modifies this`operations, this`pending, this`waiting
      ensures Valid()
      ensures op == |old(operations)|
      ensures operations == old(operations) + [Operation(old(waiting)[ticket], Running)]
      ensures pending == old(pending)[old(waiting)[ticket] := op]
      ensures waiting == old(waiting) - {ticket}
    {
      var domain := waiting[ticket];
      op := |operations|;
      operations := operations + [Operation(domain, Running)];
      pending := pending[domain := op];
      waiting := waiting - {ticket};
    }

    /** The fetch of operation `op` delivers a document. A truthy endpoint is
        cached and the domain's pending entry deleted; otherwise the
        operation fails as not locatable and the pending entry stays, since
        the throw comes before the delete. */
    method SettleFetchOk(op: nat, toml: Option<StellarToml>) returns (outcome: Result<string, ResolveError>)
      requires Valid() && op < |operations| && operations[op].state.Running?
      modifies this`operations, this`cache, this`pending
      ensures Valid()
      ensures var domain := old(operations)[op].domain;
        match LocatedEndpoint(toml)
        case Some(endpoint) =>
          && outcome == Success(endpoint)
          && cache == old(cache)[domain := endpoint]
          && pending == old(pending) - {domain}
          && operations == old(operations)[op := Operation(domain, Resolved(endpoint))]
        case None =>
          && outcome == Failure(MultisigServiceNotLocatable(domain))
          && cache == old(cache) && pending == old(pending)
          && operations == old(operations)[op := Operation(domain, Rejected(MultisigServiceNotLocatable(domain)))]
    {
      var domain := operations[op].domain;
      match LocatedEndpoint(toml)
      case Some(endpoint) =>
        cache := cache[domain := endpoint];
        pending := pending - {domain};
        operations := operations[op := Operation(domain, Resolved(endpoint))];
        outcome := Success(endpoint);
      case None =>
        operations := operations[op := Operation(domain, Rejected(MultisigServiceNotLocatable(domain)))];
        outcome := Failure(MultisigServiceNotLocatable(domain));
    }

    /** The fetch of operation `op` rejects: the domain's pending entry is
        deleted, the error is rethrown and the cache is left alone. */
    method SettleFetchErr(op: nat, reason: string) returns (outcome: Result<string, ResolveError>)
      requires Valid() && op < |operations| && operations[op].state.Running?
      modifies this`operations, this`pending
      ensures Valid()
      ensures var domain := old(operations)[op].domain;
        && outcome == Failure(FetchFailed(reason))
        && pending == old(pending) - {domain}
        && operations == old(operations)[op := Operation(domain, Rejected(FetchFailed(reason)))]
    {
      var domain := operations[op].domain;
      pending := pending - {domain};
      operations := operations[op := Operation(domain, Rejected(FetchFailed(reason)))];
      outcome := Failure(FetchFailed(reason));
    }
  }

  /** Two calls made after the first one registered its fetch share that
      fetch: one operation, and the later call joins it. */
  method CallsAfterRegistrationShareOneFetch(domain: string, endpoint: string)
    returns (first: Call, second: Call, fetches: nat, result: Call)
    requires endpoint != ""
    ensures first == Suspended(0) && second == Joined(0) && fetches == 1
    ensures result == Cached(endpoint)
  {
    var r := new CoordinatorResolver();
    first := r.Resolve(domain);
    var op := r.Resume(0);
    second := r.Resolve(domain);
    fetches := |r.operations|;
    var _ := r.SettleFetchOk(op, Some(StellarToml(Some(endpoint))));
    result := r.Resolve(domain);
  }

  /** Two calls made before either passed the `await` both start a fetch:
      coalescing does not cover them. */
  method CallsBeforeRegistrationFetchTwice(domain: string)
    returns (first: Call, second: Call, fetches: nat)
    ensures first == Suspended(0) && second == Suspended(1) && fetches == 2
  {
    var r := new CoordinatorResolver();
    first := r.Resolve(domain);
    second := r.Resolve(domain);
    var _ := r.Resume(0);
    var _ := r.Resume(1);
    fetches := |r.operations|;
  }

  /** A not-locatable result is sticky: the failed operation stays pending,
      so a later call joins it and no new fetch starts. */
  method NotLocatableIsSticky(domain: string)
    returns (outcome: Result<string, ResolveError>, later: Call, fetches: nat)
    ensures outcome == Failure(MultisigServiceNotLocatable(domain))
    ensures later == Joined(0) && fetches == 1
  {
    var r := new CoordinatorResolver();
    var _ := r.Resolve(domain);
    var op := r.Resume(0);
    outcome := r.SettleFetchOk(op, Some(StellarToml(None)));
    later := r.Resolve(domain);
    fetches := |r.operations|;
  }

  /** A rejected fetch is not sticky: the next call starts over. */
  method RejectionAllowsRetry(domain: string, reason: string)
    returns (outcome: Result<string, ResolveError>, later: Call)
    ensures outcome == Failure(FetchFailed(reason)) && later == Suspended(1)
  {
    var r := new CoordinatorResolver();
    var _ := r.Resolve(domain);
    var op := r.Resume(0);
    outcome := r.SettleFetchErr(op, reason);
    later := r.Resolve(domain);
  }
}
