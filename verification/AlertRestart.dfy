/** What a restart reads back of the saved alert events: three lists, one of each kind of event, each
    with at most the newest hundred. */
module AlertRestart {
  import opened Wrappers
  import opened Alerts

  const LIMIT := 100

  datatype Kind = KindTriggered | KindDeliveryFailed | KindRecovered

  /** A saved event, stamped with the time of the request end it comes from. */
  datatype Row = Row(at: int, provider: string, event: AlertEvent)

  function KindOf(e: AlertEvent): Kind {
    match e
    case Triggered(_, _) => KindTriggered
    case DeliveryFailed(_, _) => KindDeliveryFailed
    case Recovered(_) => KindRecovered
  }

  /** The three kinds of events are told apart. */
  lemma SameKindIff(a: AlertEvent, b: AlertEvent)
    ensures KindOf(a) == KindOf(b) <==>
              (a.Triggered? <==> b.Triggered?) && (a.Recovered? <==> b.Recovered?)
  {
  }

  /** The rows are saved in the order of their times. */
  predicate InOrder(rows: seq<Row>) {
    forall i, j :: 0 <= i < j < |rows| ==> rows[i].at < rows[j].at
  }

  /** The filter of a list; an empty provider id does not filter. */
  predicate Matches(r: Row, kind: Kind, provider: string) {
    KindOf(r.event) == kind && (provider == "" || r.provider == provider)
  }

  function Matching(rows: seq<Row>, kind: Kind, provider: string): nat {
    if rows == [] then 0
    else Matching(rows[..|rows| - 1], kind, provider) + if Matches(rows[|rows| - 1], kind, provider) then 1 else 0
  }

  /** `ListEvents`: the newest matching rows first, at most `limit` of them. */
  function Listed(rows: seq<Row>, kind: Kind, provider: string, limit: nat): seq<Row>
    decreases |rows|
  {
    if rows == [] || limit == 0 then []
    else
      var n := |rows| - 1;
      if Matches(rows[n], kind, provider)
      then [rows[n]] + Listed(rows[..n], kind, provider, limit - 1)
      else Listed(rows[..n], kind, provider, limit)
  }

  /** The i-th row is among the newest `limit` ones that match. */
  predicate Within(rows: seq<Row>, i: nat, kind: Kind, provider: string, limit: nat)
    requires i < |rows|
  {
    Matches(rows[i], kind, provider) && Matching(rows[i + 1..], kind, provider) < limit
  }

  lemma MatchingTail(rows: seq<Row>, i: nat, kind: Kind, provider: string)
    requires i < |rows| - 1
    ensures Matching(rows[i + 1..], kind, provider)
            == Matching(rows[..|rows| - 1][i + 1..], kind, provider)
               + if Matches(rows[|rows| - 1], kind, provider) then 1 else 0
  {
    assert rows[i + 1..][..|rows| - i - 2] == rows[..|rows| - 1][i + 1..];
  }

  /** A list holds exactly the newest matching rows. */
  lemma {:induction false} ListedIff(rows: seq<Row>, kind: Kind, provider: string, limit: nat, r: Row)
    ensures r in Listed(rows, kind, provider, limit)
            <==> exists i :: 0 <= i < |rows| && rows[i] == r && Within(rows, i, kind, provider, limit)
    ensures r in Listed(rows, kind, provider, limit) ==> provider in {"", r.provider} && KindOf(r.event) == kind
    decreases |rows|
  {
    if rows != [] && limit > 0 {
      var n := |rows| - 1;
      var rest := if Matches(rows[n], kind, provider) then limit - 1 else limit;
      ListedIff(rows[..n], kind, provider, rest, r);
      forall i | 0 <= i < n
        ensures Within(rows, i, kind, provider, limit) <==> Within(rows[..n], i, kind, provider, rest)
      {
        MatchingTail(rows, i, kind, provider);
      }
      assert Within(rows, n, kind, provider, limit) <==> Matches(rows[n], kind, provider);
      if i :| 0 <= i < n && rows[i] == r && Within(rows, i, kind, provider, limit) {
        assert rows[..n][i] == r && Within(rows[..n], i, kind, provider, rest);
      }
      if i :| 0 <= i < n && rows[..n][i] == r && Within(rows[..n], i, kind, provider, rest) {
        assert rows[i] == r && Within(rows, i, kind, provider, limit);
      }
    }
  }

  // ---------- the scan ----------

  /** The row belongs to the key and is on one of the three lists. */
  predicate Shown(rows: seq<Row>, i: nat, key: ProviderKey, provider: string)
    requires i < |rows|
  {
    rows[i].event.key == key && Within(rows, i, KindOf(rows[i].event), provider, LIMIT)
  }

  /** The newest of the first n rows that is shown. */
  function NewestShown(rows: seq<Row>, n: nat, key: ProviderKey, provider: string): Option<Row>
    requires n <= |rows|
  {
    if n == 0 then None
    else if Shown(rows, n - 1, key, provider) then Some(rows[n - 1])
    else NewestShown(rows, n - 1, key, provider)
  }

  function EventOf(r: Option<Row>): Option<AlertEvent> {
    if r.Some? then Some(r.value.event) else None
  }

  /** The state after these rows, and the time of the row it comes from: the newest one of the key. */
  ghost predicate Best(seen: seq<Row>, key: ProviderKey, last: Option<int>, state: State) {
    match last
    case None => state == CALM && forall r :: r in seen ==> r.event.key != key
    case Some(at) =>
      && (exists r :: r in seen && r.event.key == key && r.at == at && state == Loaded(Some(r.event)))
      && (forall r :: r in seen && r.event.key == key ==> r.at <= at)
  }

  lemma BestNext(seen: seq<Row>, key: ProviderKey, last: Option<int>, state: State, r: Row)
    requires Best(seen, key, last, state)
    ensures r.event.key != key || (last.Some? && r.at < last.value) ==> Best(seen + [r], key, last, state)
    ensures r.event.key == key && (last.Some? ==> r.at >= last.value) ==>
              Best(seen + [r], key, Some(r.at), Loaded(Some(r.event)))
  {
    assert r in seen + [r];
    assert forall q :: q in seen + [r] <==> q in seen || q == r;
    if last.Some? {
      var q :| q in seen && q.event.key == key && q.at == last.value && state == Loaded(Some(q.event));
      assert q in seen + [r];
    }
  }

  const KINDS := [KindTriggered, KindDeliveryFailed, KindRecovered]

  /** The rows of the three lists, in the order in which they are read. */
  function Lists(rows: seq<Row>, provider: string, n: nat): seq<Row>
    requires n <= 3
  {
    if n == 0 then [] else Lists(rows, provider, n - 1) + Listed(rows, KINDS[n - 1], provider, LIMIT)
  }

  /** `reliabilityState` after a restart: of all rows on the three lists, the newest one of the key
      decides, whichever list it is on. */
  method ReliabilityState(rows: seq<Row>, key: ProviderKey, provider: string) returns (state: State)
    requires InOrder(rows)
    ensures state == Loaded(EventOf(NewestShown(rows, |rows|, key, provider)))
  {
    state := CALM;
    var last: Option<int> := None;
    for n := 0 to 3
      invariant Best(Lists(rows, provider, n), key, last, state)
    {
      var events := Listed(rows, KINDS[n], provider, LIMIT);
      hide Best, Listed, Loaded;
      ghost var seen := Lists(rows, provider, n);
      assert seen + events[..0] == seen;
      for i := 0 to |events|
        invariant Best(seen + events[..i], key, last, state)
      {
        var r := events[i];
        BestNext(seen + events[..i], key, last, state, r);
        assert seen + events[..i] + [r] == seen + events[..i + 1];
        if r.event.key != key || (last.Some? && r.at < last.value) { continue; }
        last := Some(r.at);
        match r.event {
          case Triggered(_, count) => state := State(true, count, 0);
          case DeliveryFailed(_, count) => state := State(true, count, 0);
          case Recovered(_) => state := CALM;
        }
        LoadedIs(r.event);
      }
      assert events[..|events|] == events;
    }
    BestIsNewest(rows, key, provider, last, state);
  }

  lemma LoadedIs(e: AlertEvent)
    ensures Loaded(Some(e)) == match e
                               case Triggered(_, count) => State(true, count, 0)
                               case DeliveryFailed(_, count) => State(true, count, 0)
                               case Recovered(_) => CALM
  {
  }

  lemma ListsShow(rows: seq<Row>, provider: string, r: Row)
    ensures r in Lists(rows, provider, 3)
            <==> exists i :: 0 <= i < |rows| && rows[i] == r && Within(rows, i, KindOf(r.event), provider, LIMIT)
  {
    hide Within, Listed;
    forall kind ensures r in Listed(rows, kind, provider, LIMIT)
                        <==> exists i :: 0 <= i < |rows| && rows[i] == r && Within(rows, i, kind, provider, LIMIT) {
      ListedIff(rows, kind, provider, LIMIT, r);
    }
    forall i, kind | 0 <= i < |rows| && rows[i] == r && Within(rows, i, kind, provider, LIMIT)
      ensures kind == KindOf(r.event)
    {
      WithinKind(rows, i, kind, provider);
    }
    assert Lists(rows, provider, 3) == Lists(rows, provider, 2) + Listed(rows, KindRecovered, provider, LIMIT);
    assert Lists(rows, provider, 2) == Lists(rows, provider, 1) + Listed(rows, KindDeliveryFailed, provider, LIMIT);
    assert Lists(rows, provider, 1) == Lists(rows, provider, 0) + Listed(rows, KindTriggered, provider, LIMIT);
  }

  lemma WithinKind(rows: seq<Row>, i: nat, kind: Kind, provider: string)
    requires i < |rows| && Within(rows, i, kind, provider, LIMIT)
    ensures kind == KindOf(rows[i].event)
  {
  }

  lemma {:induction false} NewestShownIs(rows: seq<Row>, n: nat, key: ProviderKey, provider: string)
    requires n <= |rows|
    ensures var newest := NewestShown(rows, n, key, provider);
            && (newest.None? ==> forall i :: 0 <= i < n ==> !Shown(rows, i, key, provider))
            && (newest.Some? ==> exists i :: 0 <= i < n && rows[i] == newest.value && Shown(rows, i, key, provider)
                                             && forall j :: i < j < n ==> !Shown(rows, j, key, provider))
  {
    hide Shown;
    if n > 0 {
      NewestShownIs(rows, n - 1, key, provider);
      if Shown(rows, n - 1, key, provider) { assert rows[n - 1] == NewestShown(rows, n, key, provider).value; }
    }
  }

  /** The row a scan ends with is shown, and none that is shown is newer. */
  lemma BestIsShown(rows: seq<Row>, key: ProviderKey, provider: string, at: int, state: State) returns (j: nat)
    requires Best(Lists(rows, provider, 3), key, Some(at), state)
    ensures j < |rows| && Shown(rows, j, key, provider)
    ensures rows[j].at == at && state == Loaded(Some(rows[j].event))
    ensures forall i :: 0 <= i < |rows| && Shown(rows, i, key, provider) ==> rows[i].at <= at
  {
    hide Within, Lists, Loaded;
    var lists := Lists(rows, provider, 3);
    var r :| r in lists && r.event.key == key && r.at == at && state == Loaded(Some(r.event));
    ListsShow(rows, provider, r);
    j :| 0 <= j < |rows| && rows[j] == r && Within(rows, j, KindOf(r.event), provider, LIMIT);
    forall i | 0 <= i < |rows| && Shown(rows, i, key, provider) ensures rows[i].at <= at {
      ListsShow(rows, provider, rows[i]);
    }
  }

  lemma NoneIsShown(rows: seq<Row>, key: ProviderKey, provider: string, state: State)
    requires Best(Lists(rows, provider, 3), key, None, state)
    ensures state == CALM && forall i :: 0 <= i < |rows| ==> !Shown(rows, i, key, provider)
  {
    hide Within, Lists;
    forall i | 0 <= i < |rows| ensures !Shown(rows, i, key, provider) { ListsShow(rows, provider, rows[i]); }
  }

  lemma BestIsNewest(rows: seq<Row>, key: ProviderKey, provider: string, last: Option<int>, state: State)
    requires InOrder(rows) && Best(Lists(rows, provider, 3), key, last, state)
    ensures state == Loaded(EventOf(NewestShown(rows, |rows|, key, provider)))
  {
    NewestShownIs(rows, |rows|, key, provider);
    hide Shown, Lists, NewestShown, Best;
    if last.Some? {
      var j := BestIsShown(rows, key, provider, last.value, state);
      var newest := NewestShown(rows, |rows|, key, provider);
      var i :| 0 <= i < |rows| && rows[i] == newest.value && Shown(rows, i, key, provider)
               && forall k :: i < k < |rows| ==> !Shown(rows, k, key, provider);
      assert j <= i && rows[i].at <= rows[j].at;
    } else {
      NoneIsShown(rows, key, provider, state);
    }
  }

  // ---------- what the limit hides ----------

  /** The newest row of the key, wherever it is. */
  predicate IsNewest(rows: seq<Row>, i: nat, key: ProviderKey)
    requires i < |rows|
  {
    rows[i].event.key == key && forall j :: i < j < |rows| ==> rows[j].event.key != key
  }

  /** The scan decides on the newest event of the key exactly when fewer than a hundred events of the
      same kind, of any key that passes the filter, have been saved after it. */
  lemma NewestIsShownIff(rows: seq<Row>, i: nat, key: ProviderKey, provider: string)
    requires InOrder(rows) && i < |rows| && IsNewest(rows, i, key) && (provider == "" || rows[i].provider == provider)
    ensures NewestShown(rows, |rows|, key, provider) == Some(rows[i])
            <==> Matching(rows[i + 1..], KindOf(rows[i].event), provider) < LIMIT
  {
    NewestShownIs(rows, |rows|, key, provider);
    hide NewestShown, Matching;
    assert Shown(rows, i, key, provider) <==> Matching(rows[i + 1..], KindOf(rows[i].event), provider) < LIMIT;
    var newest := NewestShown(rows, |rows|, key, provider);
    if newest.Some? {
      var j :| 0 <= j < |rows| && rows[j] == newest.value && Shown(rows, j, key, provider)
               && forall k :: j < k < |rows| ==> !Shown(rows, k, key, provider);
      assert j <= i;
      if j < i { assert rows[j].at < rows[i].at; }
    }
  }

  /** The saved events without their times. */
  function Events(rows: seq<Row>): (events: seq<AlertEvent>)
    ensures |events| == |rows| && forall i :: 0 <= i < |rows| ==> events[i] == rows[i].event
  {
    seq(|rows|, i requires 0 <= i < |rows| => rows[i].event)
  }

  lemma {:induction false} NewestIs(events: seq<AlertEvent>, key: ProviderKey, i: nat)
    requires i < |events| && events[i].key == key && forall j :: i < j < |events| ==> events[j].key != key
    ensures Newest(events, key) == Some(events[i])
  {
    if i < |events| - 1 { NewestIs(events[..|events| - 1], key, i); }
  }

  /** With the newest event of the key among the last hundred of its kind, the state read back at a
      restart is the one that was lost exactly when the provider is not alerted or no request has
      succeeded since its last alert. */
  lemma ScannedStateIff(rows: seq<Row>, i: nat, key: ProviderKey, provider: string, state: State, h: History,
                        s: Settings)
    requires InOrder(rows) && i < |rows| && IsNewest(rows, i, key) && (provider == "" || rows[i].provider == provider)
    requires Matching(rows[i + 1..], KindOf(rows[i].event), provider) < LIMIT
    requires Remembers(state, h, s) && Records(Newest(Events(rows), key), h, s)
    ensures Loaded(EventOf(NewestShown(rows, |rows|, key, provider))) == state <==> !Alerted(h, s) || StillFailing(h, s)
  {
    NewestIsShownIff(rows, i, key, provider);
    NewestIs(Events(rows), key, i);
    RestartKeepsStateIff(state, Newest(Events(rows), key), h, s);
    hide Alerted, StillFailing, NewestShown, Remembers, Records, Loaded, Matching;
  }

  /** An alert that a hundred later ones have crowded out is forgotten: if it was the key's first
      event, the restart finds none. */
  lemma CrowdedOutIsForgotten(rows: seq<Row>, i: nat, key: ProviderKey, provider: string)
    requires i < |rows| && IsNewest(rows, i, key) && Matching(rows[i + 1..], KindOf(rows[i].event), provider) >= LIMIT
    requires forall j :: 0 <= j < i ==> rows[j].event.key != key
    ensures Loaded(EventOf(NewestShown(rows, |rows|, key, provider))) == CALM
  {
    NewestShownIs(rows, |rows|, key, provider);
    hide NewestShown, Matching;
    forall j | 0 <= j < |rows| ensures !Shown(rows, j, key, provider) {
      assert rows[j].event.key == key ==> j == i;
    }
  }
}
