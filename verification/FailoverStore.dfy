/** What the group store accepts and keeps, and what a maintenance window is. */
module FailoverStore {
  import opened Wrappers
  import opened Failover

  /** A field left at zero gets its default. */
  predicate Defaulted(given: int, kept: int, default: int) {
    kept == if given == 0 then default else given
  }

  /** The group that is kept for a given one: a group without an active provider serves its primary, the
      four numbers have their defaults, and nothing else changes. */
  predicate KeptFor(g: Group, n: Group) {
    && n == g.(active := n.active, recoveryThreshold := n.recoveryThreshold, probeInterval := n.probeInterval,
               failureThreshold := n.failureThreshold, cooldown := n.cooldown)
    && n.active == (if g.active == "" then g.primary else g.active)
    && Defaulted(g.failureThreshold, n.failureThreshold, 3) && Defaulted(g.recoveryThreshold, n.recoveryThreshold, 2)
    && Defaulted(g.cooldown, n.cooldown, 300) && Defaulted(g.probeInterval, n.probeInterval, 300)
  }

  /** A primary and one to nineteen backups, all different and none empty, one of which is active; the
      numbers are in range, and a maintenance window that has a start has a later end. */
  ghost predicate WellFormed(n: Group) {
    var members := [n.primary] + n.backups;
    && 2 <= |members| <= 20 && n.active in members
    && (forall i :: 0 <= i < |members| ==> members[i] != "")
    && (forall i, j :: 0 <= i < |members| && 0 <= j < |members| && members[i] == members[j] ==> i == j)
    && 0 < n.failureThreshold <= 100 && 0 < n.recoveryThreshold <= 100
    && 30 <= n.probeInterval <= 24 * 3600 && 0 <= n.cooldown <= 24 * 3600
    && (n.maintenanceStartsAt.Some? ==>
          n.maintenanceUntil.Some? && n.maintenanceStartsAt.value < n.maintenanceUntil.value)
  }

  lemma MembersIff(g: Group)
    ensures var members := [g.primary] + g.backups;
            && ("" in g.backups || g.primary == "" <==> exists i :: 0 <= i < |members| && members[i] == "")
            && (Distinct(members) <==>
                  forall i, j :: 0 <= i < |members| && 0 <= j < |members| && members[i] == members[j] ==> i == j)
  {
    var members := [g.primary] + g.backups;
    if "" in g.backups {
      var k :| 0 <= k < |g.backups| && g.backups[k] == "";
      assert members[k + 1] == "";
    }
    if g.primary == "" { assert members[0] == ""; }
  }

  /** A given group is accepted exactly when what would be kept for it is well-formed, and that is kept. */
  lemma NormalizeIff(g: Group, n: Group)
    ensures Normalize(g) == Some(n) <==> KeptFor(g, n) && WellFormed(n)
  {
    MembersIff(g);
    ActiveIsMember(g);
    hide Distinct;
  }

  lemma ActiveIsMember(g: Group)
    ensures forall p :: p in [g.primary] + g.backups <==> p == g.primary || p in g.backups
  {
  }

  /** What is kept is accepted again as it is. */
  lemma KeptIsKept(g: Group)
    requires Normalize(g).Some?
    ensures Normalize(Normalize(g).value) == Normalize(g)
  {
    var n := Normalize(g).value;
    NormalizeIff(g, n);
    NormalizeIff(n, n);
    hide Normalize, WellFormed;
  }

  /** A write is accepted exactly when the store works, the group is acceptable, and there is a row for
      it or room for one more; then its row is the group as it is kept, with the advice of the row it
      replaces if it brings none, and no other row changes. */
  lemma SaveIff(s: State, w: Group, ok: bool)
    ensures Saved(s, w, ok) <==>
              ok && (exists n :: KeptFor(w, n) && WellFormed(n)) && (w.id in s.groups || |s.groups| < 50)
    ensures Saved(s, w, ok) ==>
              && Save(s, w, ok) == s.(groups := Save(s, w, ok).groups) && w.id in Save(s, w, ok).groups
              && Save(s, w, ok).groups - {w.id} == s.groups - {w.id}
              && var row := Save(s, w, ok).groups[w.id];
                 && KeptFor(w, row.(advice := w.advice)) && WellFormed(row.(advice := w.advice))
                 && row.advice == if w.advice.None? && w.id in s.groups then s.groups[w.id].advice else w.advice
    ensures !Saved(s, w, ok) ==> Save(s, w, ok) == s
  {
    if Normalize(w).Some? { NormalizeIff(w, Normalize(w).value); }
    if n :| KeptFor(w, n) && WellFormed(n) { NormalizeIff(w, n); }
    hide Normalize, WellFormed;
  }

  /** The copies that a goroutine reads are the rows of the groups that exist, in the given order. */
  lemma {:induction false} SnapshotsAre(s: State, order: seq<GroupId>)
    ensures forall g :: g in Snapshots(s, order) <==>
                        exists gid :: gid in order && gid in s.groups && s.groups[gid] == g
    ensures (forall gid :: gid in order ==> gid in s.groups) ==>
              Snapshots(s, order)
              == seq(|order|, i requires 0 <= i < |order| && order[i] in s.groups => s.groups[order[i]])
  {
    if order != [] {
      SnapshotsAre(s, order[1..]);
      assert order == [order[0]] + order[1..];
    }
  }

  /** Maintenance is one stretch of time: it ends just before `until`, it begins at the start, if there
      is one, and has always been on if there is none. */
  lemma MaintenanceIsOneInterval(g: Group, t: Time, u: Time, v: Time)
    requires t <= u <= v
    ensures InMaintenance(g, t) && InMaintenance(g, v) ==> InMaintenance(g, u)
    ensures g.maintenanceUntil.None? ==> !InMaintenance(g, t)
    ensures g.maintenanceUntil.Some? && (g.maintenanceStartsAt.Some? ==> WellFormed(g)) ==>
              InMaintenance(g, g.maintenanceUntil.value - 1) && !InMaintenance(g, g.maintenanceUntil.value)
    ensures g.maintenanceStartsAt.Some? && WellFormed(g) ==>
              InMaintenance(g, g.maintenanceStartsAt.value) && !InMaintenance(g, g.maintenanceStartsAt.value - 1)
    ensures g.maintenanceStartsAt.None? && InMaintenance(g, v) ==> InMaintenance(g, t)
  {
  }
}
