/** The multi-signature coordinator client of the network worker:
    de-duplication of account ids, the snapshot request and its error rule,
    the stream message normaliser and the reconnecting subscription. */
module MultisigWorker {
  import opened Wrappers
  import opened Strings

  predicate NoDuplicates<T(==)>(s: seq<T>) {
    forall i, j :: 0 <= i < j < |s| ==> s[i] != s[j]
  }

  /** Position of the first occurrence of `x` in `s`. */
  function FirstIndex<T(==)>(s: seq<T>, x: T): (k: nat)
    requires x in s
    ensures k < |s| && s[k] == x && x !in s[..k]
  {
    if s[0] == x then 0 else 1 + FirstIndex(s[1..], x)
  }

  /** `Array.from(new Set(array))`: a set iterates in insertion order, so
      each element is kept where it first occurs and later repeats are
      dropped. */
  function Dedupe<T(==)>(list: seq<T>): (r: seq<T>)
    ensures forall i :: 0 <= i < |r| ==> r[i] in list
    ensures forall i :: 0 <= i < |list| ==> list[i] in r
    ensures NoDuplicates(r)
    ensures |r| <= |list|
    decreases |list|
  {
    if list == [] then []
    else
      var kept := Dedupe(list[..|list| - 1]);
      var last := list[|list| - 1];
      assert list == list[..|list| - 1] + [last];
      if last in kept then kept else kept + [last]
  }

  lemma {:induction false} FirstIndexPrefix<T>(a: seq<T>, b: seq<T>, x: T)
    requires x in a
    ensures FirstIndex(a + b, x) == FirstIndex(a, x)
  {
    if a[0] != x {
      assert (a + b)[1..] == a[1..] + b;
      FirstIndexPrefix(a[1..], b, x);
    }
  }

  /** The kept elements appear in the order of their first occurrences. */
  lemma {:induction false} DedupeKeepsFirstOccurrenceOrder<T>(list: seq<T>, i: nat, j: nat)
    requires i < j < |Dedupe(list)|
    ensures FirstIndex(list, Dedupe(list)[i]) < FirstIndex(list, Dedupe(list)[j])
    decreases |list|
  {
    var init := list[..|list| - 1];
    var last := list[|list| - 1];
    var kept := Dedupe(init);
    var r := Dedupe(list);
    assert list == init + [last];
    assert r[i] in kept;
    FirstIndexPrefix(init, [last], r[i]);
    if j < |kept| {
      DedupeKeepsFirstOccurrenceOrder(init, i, j);
      FirstIndexPrefix(init, [last], r[j]);
    } else {
      assert r[j] == last && last !in init;
      assert FirstIndex(init + [last], last) == |init|;
    }
  }

  /** A list without repeats is left as it is; in particular `Dedupe` is
      idempotent. */
  lemma {:induction false} DedupeWithoutRepeats<T>(list: seq<T>)
    requires NoDuplicates(list)
    ensures Dedupe(list) == list
    decreases |list|
  {
    if list != [] {
      var init := list[..|list| - 1];
      assert NoDuplicates(init);
      DedupeWithoutRepeats(init);
      assert list == init + [list[|list| - 1]];
    }
  }

  lemma DedupeIdempotent<T>(list: seq<T>)
    ensures Dedupe(Dedupe(list)) == Dedupe(list)
  {
    DedupeWithoutRepeats(Dedupe(list));
  }

  /** Appending an id already present does not change the list. */
  lemma DedupeIgnoresRepeat<T>(list: seq<T>, x: T)
    requires x in list
    ensures Dedupe(list + [x]) == Dedupe(list)
  {
    assert (list + [x])[..|list + [x]| - 1] == list;
  }

  /** The worked example of the snapshot request: ["A","A","B"] gives ["A","B"]. */
  lemma DedupeExample()
    ensures Dedupe(["A", "A", "B"]) == ["A", "B"]
  {
    assert ["A", "A", "B"][..2] == ["A", "A"];
    assert ["A", "A"][..1] == ["A"];
    assert ["A"][..0] == [];
  }

  /** A stream message's `data`: one item or a batch. */
  datatype Payload<T> = One(item: T) | Batch(items: seq<T>)

  /** `toArray`: a batch as it is, a single item as a one-element list. */
  function ToArray<T>(thing: Payload<T>): (r: seq<T>)
    ensures thing.Batch? ==> r == thing.items
    ensures thing.One? ==> r == [thing.item]
  {
    match thing
    case One(item) => [item]
    case Batch(items) => items
  }

  predicate NoCommas(accountIDs: seq<string>) {
    forall k :: 0 <= k < |accountIDs| ==> ',' !in accountIDs[k]
  }

  lemma DedupeNoCommas(accountIDs: seq<string>)
    requires NoCommas(accountIDs)
    ensures NoCommas(Dedupe(accountIDs))
  {
    var d := Dedupe(accountIDs);
    forall k | 0 <= k < |d| ensures ',' !in d[k] {
      assert d[k] in accountIDs;
    }
  }

  /** The joined de-duplicated ids split back into them, when there is at
      least one id and none holds a comma. */
  lemma JoinedIdsSplit(accountIDs: seq<string>)
    ensures accountIDs != [] && NoCommas(accountIDs) ==>
      Split(Join(Dedupe(accountIDs), ','), ',') == Dedupe(accountIDs)
  {
    if accountIDs != [] && NoCommas(accountIDs) {
      var d := Dedupe(accountIDs);
      assert accountIDs[0] in d;
      DedupeNoCommas(accountIDs);
      SplitJoin(d, ',');
    }
  }

  /** Path of the snapshot request: "/requests/" and then text that splits
      at "," into exactly the de-duplicated ids. */
  function RequestsPath(accountIDs: seq<string>): (r: string)
    ensures |r| >= 10 && r[..10] == "/requests/"
    ensures accountIDs != [] && NoCommas(accountIDs) ==> Split(r[10..], ',') == Dedupe(accountIDs)
  {
    var ids := Join(Dedupe(accountIDs), ',');
    JoinedIdsSplit(accountIDs);
    assert ("/requests/" + ids)[10..] == ids;
    "/requests/" + ids
  }

  /** Path of the event stream, built like the snapshot path after
      "/stream/". */
  function StreamPath(accountIDs: seq<string>): (r: string)
    ensures |r| >= 8 && r[..8] == "/stream/"
    ensures accountIDs != [] && NoCommas(accountIDs) ==> Split(r[8..], ',') == Dedupe(accountIDs)
  {
    var ids := Join(Dedupe(accountIDs), ',');
    JoinedIdsSplit(accountIDs);
    assert ("/stream/" + ids)[8..] == ids;
    "/stream/" + ids
  }

  /** Repeating an id does not change either path. */
  lemma PathsIgnoreRepeats(accountIDs: seq<string>, k: nat)
    requires k < |accountIDs|
    ensures RequestsPath(accountIDs + [accountIDs[k]]) == RequestsPath(accountIDs)
    ensures StreamPath(accountIDs + [accountIDs[k]]) == StreamPath(accountIDs)
  {
    DedupeIgnoresRepeat(accountIDs, accountIDs[k]);
  }

  /** A decoded signature request. `JSON.parse` is not modelled: a request
      is represented by the JSON text it was decoded from. */
  datatype SignatureRequest = SignatureRequest(json: string)

  function Parse(data: string): SignatureRequest {
    SignatureRequest(data)
  }

  /** The response of the snapshot `fetch`: its `ok` flag, its body text and
      the requests its JSON body holds. */
  datatype Response = Response(ok: bool, text: string, json: seq<SignatureRequest>)

  const SnapshotFailurePrefix := "Fetching signature requests failed: "
  const ServiceLabel := "\nService: "

  /** `fetchSignatureRequests`: `fetch(service, path)` stands for fetching
      `joinURL(service, path)`. A response that is not OK fails with a
      message holding the body text and the service URL. */
  function FetchSignatureRequests(serviceURL: string, accountIDs: seq<string>,
                                  fetch: (string, string) -> Response)
    : (r: Result<seq<SignatureRequest>, string>)
    ensures var response := fetch(serviceURL, RequestsPath(accountIDs));
      && (r.Failure? <==> !response.ok)
      && (r.Success? ==> r.value == response.json)
      && (r.Failure? ==>
            var p := |SnapshotFailurePrefix|;
            var m := r.error;
            && |m| == p + |response.text| + |ServiceLabel| + |serviceURL|
            && m[..p] == SnapshotFailurePrefix
            && m[p..p + |response.text|] == response.text
            && m[p + |response.text|..|m| - |serviceURL|] == ServiceLabel
            && m[|m| - |serviceURL|..] == serviceURL)
  {
    var response := fetch(serviceURL, RequestsPath(accountIDs));
    if !response.ok then
      Failure(SnapshotFailurePrefix + response.text + ServiceLabel + serviceURL)
    else
      Success(response.json)
  }

  /** The three named stream events a subscription listens for. */
  datatype Channel = Requested | Updated | Submitted

  function ChannelOf(eventName: string): (r: Option<Channel>)
    ensures r == Some(Requested) <==> eventName == "signature-request"
    ensures r == Some(Updated) <==> eventName == "signature-request:updated"
    ensures r == Some(Submitted) <==> eventName == "signature-request:submitted"
  {
    if eventName == "signature-request" then Some(Requested)
    else if eventName == "signature-request:updated" then Some(Updated)
    else if eventName == "signature-request:submitted" then Some(Submitted)
    else None
  }

  datatype EventType = NewSignatureRequest | SignatureRequestUpdate | SignatureRequestSubmitted

  datatype SignatureRequestEvent = SignatureRequestEvent(kind: EventType, signatureRequest: SignatureRequest)

  function EventTypeOf(channel: Channel): EventType {
    match channel
    case Requested => NewSignatureRequest
    case Updated => SignatureRequestUpdate
    case Submitted => SignatureRequestSubmitted
  }

  /** The normaliser: one typed event per item of the payload, in order. */
  function Normalize(channel: Channel, items: seq<string>): (r: seq<SignatureRequestEvent>)
    ensures |r| == |items|
    ensures forall i :: 0 <= i < |items| ==>
      r[i].kind == EventTypeOf(channel) && r[i].signatureRequest == Parse(items[i])
  {
    if items == [] then []
    else [SignatureRequestEvent(EventTypeOf(channel), Parse(items[0]))] + Normalize(channel, items[1..])
  }

  /** A batch yields the events of its parts one after the other, so a batch
      is indistinguishable from its items sent one by one. */
  lemma NormalizeConcat(channel: Channel, a: seq<string>, b: seq<string>)
    ensures Normalize(channel, a + b) == Normalize(channel, a) + Normalize(channel, b)
  {
    var l, r := Normalize(channel, a + b), Normalize(channel, a) + Normalize(channel, b);
    assert |l| == |r|;
    forall i | 0 <= i < |l| ensures l[i] == r[i] {
      if i < |a| {
        assert (a + b)[i] == a[i];
      } else {
        assert (a + b)[i] == b[i - |a|];
      }
    }
  }

  /** A batch of n items emits exactly n events, each of the channel's type. */
  lemma BatchEmitsOnePerItem(channel: Channel, items: seq<string>)
    ensures |Normalize(channel, ToArray(Batch(items)))| == |items|
    ensures forall i :: 0 <= i < |items| ==>
      Normalize(channel, ToArray(Batch(items)))[i] == SignatureRequestEvent(EventTypeOf(channel), Parse(items[i]))
  {
  }

  /** What one message of the named event emits: nothing for a name no
      listener is registered for. */
  function MessageEvents(eventName: string, data: Payload<string>): (r: seq<SignatureRequestEvent>)
    ensures ChannelOf(eventName).None? ==> r == []
    ensures ChannelOf(eventName).Some? ==> r == Normalize(ChannelOf(eventName).value, ToArray(data))
  {
    match ChannelOf(eventName)
    case None => []
    case Some(channel) => Normalize(channel, ToArray(data))
  }

  /** Log lines are rate limited: an error is logged only when more than
      this many milliseconds passed since the previous error. */
  const ErrorLogInterval := 10000
  /** Delay of the reconnect timer after the connection reports CLOSED. */
  const ReconnectDelay := 500

  /** One subscribed observer of `subscribeToSignatureRequests(url, ids)`.
      Connections are numbered 1, 2, ... in the order `init` opens them;
      only the current one (`connection`) dispatches events, and a
      connection closed by `close()` dispatches none (section 9.2 of the
      HTML Living Standard). */
  class Subscription {
    const accountIDs: seq<string>
    /** The stream path the connections open (joined to the service URL). */
    const path: string
    /** The current connection, 0 while none was ever opened. */
    var connection: nat
    var lastErrorTime: int
    /** Whether `onerror` of the current connection is the recovery handler
        (`clearOnError` replaces it with a no-op). */
    var handlerInstalled: bool
    /** The delay of a scheduled `setTimeout(() => init(), ...)`, if any. */
    var timer: Option<nat>
    /** Whether `whenBackOnline(() => init())` is registered. */
    var onlinePending: bool
    /** Connections closed by `eventSource.close()`. */
    var closed: set<nat>
    /** Connections whose stream-manager `unsubscribe` was called. */
    var unsubscribed: set<nat>
    /** The events passed to `observer.next`, in order, whether or not the
        subscriber has unsubscribed. */
    var log: seq<SignatureRequestEvent>
    /** The times at which the crash was logged. */
    var errorLog: seq<int>

    ghost predicate Valid()
      reads this
    {
      && (accountIDs == [] ==>
            connection == 0 && !handlerInstalled && timer == None && !onlinePending
            && closed == {} && unsubscribed == {} && log == [] && errorLog == [])
      && (accountIDs != [] ==> connection > 0 && path == StreamPath(accountIDs))
      && (handlerInstalled ==> timer == None && !onlinePending)
      && !(timer.Some? && onlinePending)
      && (timer.Some? ==> timer.value == ReconnectDelay)
      && (forall c :: c in closed ==> 0 < c <= connection)
      && (forall c :: c in unsubscribed ==> 0 < c <= connection)
    }

    /** Whether the current connection can still dispatch events. */
    predicate Live()
      reads this
    {
      connection > 0 && connection !in closed
    }

    /** Creating the observable and subscribing one observer. An empty id
        list gives an observable whose subscriber does nothing. */
    constructor (accountIDs: seq<string>)
      ensures Valid()
      ensures this.accountIDs == accountIDs
      ensures accountIDs == [] ==> connection == 0 && log == [] && errorLog == []
      ensures accountIDs != [] ==>
        && connection == 1 && handlerInstalled && path == StreamPath(accountIDs)
        && lastErrorTime == 0 && timer == None && !onlinePending
        && closed == {} && unsubscribed == {} && log == [] && errorLog == []
    {
      this.accountIDs := accountIDs;
      path := if accountIDs == [] then "" else StreamPath(accountIDs);
      connection := 0;
      lastErrorTime := 0;
      handlerInstalled := false;
      timer := None;
      onlinePending := false;
      closed := {};
      unsubscribed := {};
      log := [];
      errorLog := [];
      new;
      if accountIDs != [] {
        Init();
      }
    }

    /** `init`: a brand-new connection with the recovery handler installed. */
    method Init()
      requires accountIDs != [] && path == StreamPath(accountIDs)
      requires timer == None && !onlinePending
      requires forall c :: c in closed ==> 0 < c <= connection
      requires forall c :: c in unsubscribed ==> 0 < c <= connection
      modifies this
      ensures Valid()
      ensures connection == old(connection) + 1 && handlerInstalled
      ensures timer == None && !onlinePending
      ensures lastErrorTime == old(lastErrorTime)
      ensures closed == old(closed) && unsubscribed == old(unsubscribed)
      ensures log == old(log) && errorLog == old(errorLog)
    {
      connection := connection + 1;
      handlerInstalled := true;
    }

    /** A message of the named event arrives: each item of its payload is
        decoded and emitted in order. */
    method OnMessage(eventName: string, data: Payload<string>)
      requires Valid()
      modifies this`log
      ensures Valid()
      ensures log == old(log) + (if Live() then MessageEvents(eventName, data) else [])
    {
      var channel := ChannelOf(eventName);
      if Live() && channel.Some? {
        var items := ToArray(data);
        for i := 0 to |items|
          invariant log == old(log) + Normalize(channel.value, items[..i])
        {
          assert items[..i + 1] == items[..i] + [items[i]];
          NormalizeConcat(channel.value, items[..i], [items[i]]);
          log := log + [SignatureRequestEvent(EventTypeOf(channel.value), Parse(items[i]))];
        }
        assert items[..|items|] == items;
      }
    }

    /** The current connection reports an error. `Date.now()` is read twice:
        `checkedAt` for the rate-limit test and `storedAt` for the new
        `lastErrorTime`. `online` is `navigator.onLine` and
        `readyStateClosed` says whether the connection's `readyState` is
        CLOSED. */
    method OnError(checkedAt: int, storedAt: int, online: bool, readyStateClosed: bool)
      requires Valid()
      modifies this
      ensures Valid()
      ensures connection == old(connection) && closed == old(closed) && log == old(log)
      ensures !old(Live() && handlerInstalled) ==>
        && lastErrorTime == old(lastErrorTime) && errorLog == old(errorLog)
        && handlerInstalled == old(handlerInstalled) && timer == old(timer)
        && onlinePending == old(onlinePending) && unsubscribed == old(unsubscribed)
      ensures old(Live() && handlerInstalled) ==>
        && errorLog == old(errorLog) + (if checkedAt - old(lastErrorTime) > ErrorLogInterval then [checkedAt] else [])
        && lastErrorTime == storedAt
        && (!online ==>
              !handlerInstalled && onlinePending && timer == None
              && unsubscribed == old(unsubscribed) + {connection})
        && (online && readyStateClosed ==>
              !handlerInstalled && timer == Some(ReconnectDelay) && !onlinePending
              && unsubscribed == old(unsubscribed))
        && (online && !readyStateClosed ==>
              handlerInstalled && timer == None && !onlinePending
              && unsubscribed == old(unsubscribed))
    {
      if Live() && handlerInstalled {
        if checkedAt - lastErrorTime > ErrorLogInterval {
          errorLog := errorLog + [checkedAt];
        }
        lastErrorTime := storedAt;
        if !online {
          handlerInstalled := false;
          unsubscribed := unsubscribed + {connection};
          onlinePending := true;
        } else if readyStateClosed {
          handlerInstalled := false;
          timer := Some(ReconnectDelay);
        }
      }
    }

    /** The reconnect timer fires and calls `init`. */
    method TimerFires()
      requires Valid() && timer.Some?
      modifies this
      ensures Valid()
      ensures connection == old(connection) + 1 && handlerInstalled
      ensures timer == None && !onlinePending && lastErrorTime == old(lastErrorTime)
      ensures closed == old(closed) && unsubscribed == old(unsubscribed)
      ensures log == old(log) && errorLog == old(errorLog)
    {
      timer := None;
      Init();
    }

    /** The network is back online and the registered callback calls `init`. */
    method BackOnline()
      requires Valid() && onlinePending
      modifies this
      ensures Valid()
      ensures connection == old(connection) + 1 && handlerInstalled
      ensures timer == None && !onlinePending && lastErrorTime == old(lastErrorTime)
      ensures closed == old(closed) && unsubscribed == old(unsubscribed)
      ensures log == old(log) && errorLog == old(errorLog)
    {
      onlinePending := false;
      Init();
    }

    /** The observer unsubscribes: the most recent connection is closed. A
        scheduled timer and a back-online registration stay in place. */
    method Teardown()
      requires Valid()
      modifies this`closed
      ensures Valid()
      ensures closed == if accountIDs == [] then old(closed) else old(closed) + {connection}
    {
      if accountIDs != [] {
        closed := closed + {connection};
      }
    }
  }

  /** An empty id list: no connection is ever opened and nothing is emitted,
      whatever messages and errors the environment produces. */
  method EmptySubscriptionIsSilent(eventName: string, data: Payload<string>, now: int, online: bool)
    returns (connections: nat, emitted: seq<SignatureRequestEvent>)
    ensures connections == 0 && emitted == []
  {
    var s := new Subscription([]);
    s.OnMessage(eventName, data);
    s.OnError(now, now, online, true);
    s.Teardown();
    connections, emitted := s.connection, s.log;
  }

  /** An error while offline waits for the network: no timer, no new
      connection until the back-online callback runs, which opens one. */
  method OfflineErrorWaitsForNetwork(id: string, now: int)
    returns (waiting: bool, beforeOnline: nat, afterOnline: nat)
    ensures waiting && beforeOnline == 1 && afterOnline == 2
  {
    var s := new Subscription([id]);
    s.OnError(now, now, false, true);
    waiting := s.onlinePending && s.timer == None;
    beforeOnline := s.connection;
    s.BackOnline();
    afterOnline := s.connection;
  }

  /** Tearing down while a reconnect is scheduled does not cancel it: the
      timer opens a new connection, and its messages are still passed to
      `observer.next` (whether a closed subscriber still receives them is
      up to the observable library, which is not part of this model). */
  method TeardownKeepsScheduledReconnect(id: string, now: int, item: string)
    returns (emitted: seq<SignatureRequestEvent>)
    ensures emitted == [SignatureRequestEvent(NewSignatureRequest, SignatureRequest(item))]
  {
    var s := new Subscription([id]);
    s.OnError(now, now, true, true);
    s.Teardown();
    s.TimerFires();
    s.OnMessage("signature-request", One(item));
    emitted := s.log;
  }
}
