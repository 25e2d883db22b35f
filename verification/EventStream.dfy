/** The resumable event stream of one job: a ring of the last 256 events and bounded subscriber
    channels that drop what does not fit. */
module EventStream {
  import opened Wrappers

  const RING := 256
  const BUFFER := 64

  datatype Kind = JobState | Cleanup | Output | Other(name: string)

  datatype Event = Event(id: nat, kind: Kind)

  /** How many of `n` published events the ring has dropped. */
  function Oldest(n: nat): nat {
    if n > RING then n - RING else 0
  }

  function Max(a: nat, b: nat): nat {
    if a < b then b else a
  }

  /** The events a job has published are numbered from one, and none of them is raw output. */
  predicate Numbered(all: seq<Event>) {
    forall i :: 0 <= i < |all| ==> all[i].id == i + 1 && all[i].kind != Output
  }

  /** The ring is the last 256 of all published events. */
  predicate IsRing(events: seq<Event>, all: seq<Event>) {
    Numbered(all) && events == all[Oldest(|all|)..]
  }

  /** What a subscriber gets of the events since it joined, when `fits` says of each whether its
      buffer had room. */
  function Got<T>(since: seq<T>, fits: seq<bool>): seq<T>
    requires |fits| == |since|
  {
    if fits == [] then []
    else
      var n := |fits| - 1;
      Got(since[..n], fits[..n]) + if fits[n] then [since[n]] else []
  }

  lemma GotNext<T>(since: seq<T>, fits: seq<bool>, e: T, fit: bool)
    requires |fits| == |since|
    ensures Got(since + [e], fits + [fit]) == Got(since, fits) + if fit then [e] else []
  {
    assert (fits + [fit])[..|fits|] == fits && (since + [e])[..|since|] == since;
  }

  /** These events of the job have increasing ids, and each of them was published since `start`. */
  ghost predicate Increasing(got: seq<Event>, all: seq<Event>, start: nat) {
    && (forall i :: 0 <= i < |got| ==> start < got[i].id <= |all| && got[i] == all[got[i].id - 1])
    && (forall i, j :: 0 <= i < j < |got| ==> got[i].id < got[j].id)
  }

  lemma IncreasingNext(got: seq<Event>, all: seq<Event>, start: nat, e: Event)
    requires Increasing(got, all, start) && start <= |all| && e.id == |all| + 1
    ensures Increasing(got, all + [e], start) && Increasing(got + [e], all + [e], start)
  {
  }

  /** Whatever was dropped, a subscriber sees strictly increasing ids, each published since it joined. */
  lemma {:induction false} GotIsIncreasing(all: seq<Event>, start: nat, fits: seq<bool>)
    requires Numbered(all) && start + |fits| == |all|
    ensures Increasing(Got(all[start..], fits), all, start)
  {
    if fits != [] {
      var n := |fits| - 1;
      var front, since := all[..start + n], all[start..];
      assert since[..n] == front[start..] && since[n] == all[start + n];
      GotIsIncreasing(front, start, fits[..n]);
      IncreasingNext(Got(since[..n], fits[..n]), front, start, all[start + n]);
      assert front + [all[start + n]] == all;
      hide Increasing;
      assert Got(since[..n], fits[..n]) + [] == Got(since[..n], fits[..n]);
    }
  }

  lemma {:induction false} GotLength<T>(since: seq<T>, fits: seq<bool>)
    requires |fits| == |since|
    ensures |Got(since, fits)| <= |since|
    ensures |Got(since, fits)| == |since| <==> forall i :: 0 <= i < |fits| ==> fits[i]
  {
    if fits != [] {
      var n := |fits| - 1;
      GotLength(since[..n], fits[..n]);
      assert fits == fits[..n] + [fits[n]];
    }
  }

  /** A subscriber whose buffer never filled got every event since it joined, in order. */
  lemma {:induction false} LosslessGot<T>(since: seq<T>, fits: seq<bool>)
    requires |fits| == |since| && forall i :: 0 <= i < |fits| ==> fits[i]
    ensures Got(since, fits) == since
  {
    if fits != [] {
      var n := |fits| - 1;
      LosslessGot(since[..n], fits[..n]);
      assert since == since[..n] + [since[n]];
    }
  }

  /** Resuming after event `after` of a job that had published `n0` events: the replayed part of the
      ring followed by what the channel gets is the published run up to the newest event, from the
      event after `after` or the oldest one kept, exactly when nothing was dropped. */
  lemma ResumptionIsContiguousIff(all: seq<Event>, after: nat, n0: nat, replay: seq<Event>, fits: seq<bool>)
    requires n0 + |fits| == |all| && after <= n0 && replay == all[Max(after, Oldest(n0))..n0]
    ensures replay + Got(all[n0..], fits) == all[Max(after, Oldest(n0))..]
            <==> forall i :: 0 <= i < |fits| ==> fits[i]
  {
    GotLength(all[n0..], fits);
    hide Got;
    if forall i :: 0 <= i < |fits| ==> fits[i] {
      LosslessGot(all[n0..], fits);
    } else {
      assert |replay + Got(all[n0..], fits)| < |all[Max(after, Oldest(n0))..]|;
    }
  }

  // ---------- one more event ----------

  /** The ring with one more event, trimmed to its capacity. */
  function Append(events: seq<Event>, e: Event): seq<Event> {
    var longer := events + [e];
    if |longer| > RING then longer[|longer| - RING..] else longer
  }

  lemma AppendKeepsRing(events: seq<Event>, all: seq<Event>, e: Event)
    requires IsRing(events, all) && e.id == |all| + 1 && e.kind != Output
    ensures IsRing(Append(events, e), all + [e])
  {
  }

  // ---------- the part of the ring a subscriber has not seen ----------

  /** The events with ids above `after`, in their order. */
  function Unseen(events: seq<Event>, after: nat): seq<Event> {
    if events == [] then []
    else
      var n := |events| - 1;
      Unseen(events[..n], after) + if events[n].id > after then [events[n]] else []
  }

  lemma {:induction false} UnseenHas(events: seq<Event>, after: nat)
    ensures forall e :: e in Unseen(events, after) <==> e in events && e.id > after
  {
    if events != [] {
      UnseenHas(events[..|events| - 1], after);
      assert events == events[..|events| - 1] + [events[|events| - 1]];
    }
  }

  lemma SuffixNext(s: seq<Event>, k: nat)
    requires s != [] && k < |s|
    ensures s[..|s| - 1][k..] + [s[|s| - 1]] == s[k..]
  {
  }

  /** Of events numbered from `lo` on, these are the last ones. */
  lemma {:induction false} UnseenOf(s: seq<Event>, lo: nat, after: nat)
    requires forall i :: 0 <= i < |s| ==> s[i].id == lo + 1 + i
    ensures Unseen(s, after)
            == if after <= lo then s else if after - lo <= |s| then s[after - lo..] else []
  {
    if s != [] {
      var n := |s| - 1;
      UnseenOf(s[..n], lo, after);
      assert s[n].id == lo + 1 + n;
      var k := if after <= lo then 0 else after - lo;
      if k <= n { SuffixNext(s, k); }
      WholeFront(s);
    }
  }

  lemma WholeFront(s: seq<Event>)
    requires s != []
    ensures s[0..] == s && s[..|s| - 1][0..] == s[..|s| - 1]
    ensures s[|s|..] == []
  {
  }

  /** Of a ring these are its last events: those published after `after`, as far as they are kept. */
  lemma UnseenIsSuffix(all: seq<Event>, after: nat)
    requires Numbered(all)
    ensures Unseen(all[Oldest(|all|)..], after) == if after < |all| then all[Max(after, Oldest(|all|))..] else []
  {
    var lo := Oldest(|all|);
    UnseenOf(all[lo..], lo, after);
    if lo <= after <= |all| { assert all[lo..][after - lo..] == all[after..]; }
  }

  /** A client that claims events the job has not published yet gets some of them again: the
      stream then starts at the next event, not after the claimed one. */
  lemma ClaimedFutureIsRepeated(all: seq<Event>, after: nat, n0: nat, fits: seq<bool>)
    requires Numbered(all) && n0 + |fits| == |all| && n0 < after
    requires fits != [] && forall i :: 0 <= i < |fits| ==> fits[i]
    ensures var replay := Unseen(all[Oldest(n0)..n0], after); var got := Got(all[n0..], fits);
            replay == [] && replay + got == all[n0..] != Unseen(all, after)
  {
    LosslessGot(all[n0..], fits);
    UnseenIsSuffix(all[..n0], after);
    assert all[..n0][Oldest(n0)..] == all[Oldest(n0)..n0];
    UnseenHas(all, after);
    assert all[n0] in all[n0..] && all[n0] !in Unseen(all, after);
  }
}
