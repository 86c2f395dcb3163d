/** Sequences of database operations on the three tables, and what holds
    across them: the log is append-only, and a cooldown started by an issue
    lasts until the player is reset, while the gate's query works and the
    player's issues read no clock earlier than the one that started it. */
module Lifecycle {
  import opened Catalog
  import opened Store

  /** One operation, with the inputs its outcome depends on. */
  datatype Op =
    | Issue(player: PlayerId, rewardId: RewardId, catalog: seq<Reward>, perm: seq<nat>,
            now: Seconds, queryFails: bool, fault: Fault)
    | Claim(player: PlayerId, rewardId: RewardId, reward: Reward, now: Seconds, fault: Fault)
    | Reset(player: PlayerId, fails: bool)

  /** The shuffle of an issue is a permutation of its catalog. */
  predicate WellFormed(op: Op) {
    op.Issue? ==> IsPermutation(op.perm, |op.catalog|)
  }

  predicate AllWellFormed(ops: seq<Op>) {
    forall i :: 0 <= i < |ops| ==> WellFormed(ops[i])
  }

  function Apply(t: Tables, connected: bool, op: Op): (r: Tables)
    requires WellFormed(op)
  {
    match op
    case Issue(p, id, catalog, perm, now, queryFails, fault) =>
      IssueSpec(t, connected, p, id, catalog, perm, now, queryFails, fault)
    case Claim(p, id, reward, now, fault) => ClaimSpec(t, connected, p, id, reward, now, fault)
    case Reset(p, fails) => ResetSpec(t, connected, p, fails)
  }

  /** The tables after the operations `ops`, first to last. */
  function Run(t: Tables, connected: bool, ops: seq<Op>): (r: Tables)
    requires AllWellFormed(ops)
    decreases |ops|
  {
    if ops == [] then t else Run(Apply(t, connected, ops[0]), connected, ops[1..])
  }

  /** Rows once in the log stay there, in place: every run only appends. */
  lemma {:induction false} LogAppendOnly(t: Tables, connected: bool, ops: seq<Op>)
    requires AllWellFormed(ops)
    ensures t.log <= Run(t, connected, ops).log
    decreases |ops|
  {
    if ops != [] {
      var next := Apply(t, connected, ops[0]);
      assert t.log <= next.log;
      assert AllWellFormed(ops[1..]) by {
        forall i | 0 <= i < |ops[1..]| ensures WellFormed(ops[1..][i]) {
          assert ops[1..][i] == ops[i + 1];
        }
      }
      LogAppendOnly(next, connected, ops[1..]);
    }
  }

  /** No operation in `ops` resets player `p`. */
  predicate NoResetOf(ops: seq<Op>, p: PlayerId) {
    forall i :: 0 <= i < |ops| ==> !(ops[i].Reset? && ops[i].player == p)
  }

  /** No issue to player `p` in `ops` reads the clock earlier than `since`. */
  predicate ClockFrom(ops: seq<Op>, p: PlayerId, since: Seconds) {
    forall i :: 0 <= i < |ops| ==> (ops[i].Issue? && ops[i].player == p ==> ops[i].now >= since)
  }

  /** A usage time of at least `since` stays at least `since` across any
      operations that do not reset the player, as long as no issue to the
      player reads a clock earlier than `since` (a failing gate query lets
      an issue through at any time, and that issue writes the time it
      read: see `ClockBackShortensCooldown`). */
  lemma {:induction false} UsagePersists(t: Tables, connected: bool, ops: seq<Op>, p: PlayerId, since: Seconds)
    requires AllWellFormed(ops) && NoResetOf(ops, p) && ClockFrom(ops, p, since)
    requires p in t.usage && t.usage[p] >= since
    ensures var r := Run(t, connected, ops); p in r.usage && r.usage[p] >= since
    decreases |ops|
  {
    if ops != [] {
      var next := Apply(t, connected, ops[0]);
      assert p in next.usage && next.usage[p] >= since by {
        assert WellFormed(ops[0]) && !(ops[0].Reset? && ops[0].player == p);
        assert ops[0].Issue? && ops[0].player == p ==> ops[0].now >= since;
        var q := ops[0].player;
        if q != p {
          assert next.usage - {q} == t.usage - {q};
          assert p in t.usage - {q};
        }
      }
      var rest := ops[1..];
      assert AllWellFormed(rest) && NoResetOf(rest, p) && ClockFrom(rest, p, since) by {
        forall i | 0 <= i < |rest| ensures rest[i] == ops[i + 1] { }
      }
      UsagePersists(next, connected, rest, p, since);
    }
  }

  /** After an issue that commits at `now`, a working gate denies the
      player at every time before `now + 7200`, across any operations that
      do not reset the player and in which no issue to the player reads a
      clock earlier than `now`. */
  lemma DeniedUntilReset(t: Tables, connected: bool, p: PlayerId, id: RewardId, catalog: seq<Reward>,
                         perm: seq<nat>, now: Seconds, queryFails: bool, fault: Fault,
                         ops: seq<Op>, later: Seconds)
    requires IsPermutation(perm, |catalog|)
    requires CanUse(t, connected, queryFails, p, now) && |catalog| >= 3 && Commits(connected, fault)
    requires AllWellFormed(ops) && NoResetOf(ops, p) && ClockFrom(ops, p, now)
    requires later < now + CooldownSeconds
    ensures var issued := IssueSpec(t, connected, p, id, catalog, perm, now, queryFails, fault);
            !CanUse(Run(issued, connected, ops), connected, false, p, later)
  {
    var issued := IssueSpec(t, connected, p, id, catalog, perm, now, queryFails, fault);
    UsagePersists(issued, connected, ops, p, now);
  }

  /** The clock hypothesis is needed: when the wall clock runs back to
      `earlier` and the gate's query then throws, the gate fails open and the
      issue writes `earlier`, so a working gate lets the player through again
      at `earlier + 7200`, before the first issue's cooldown is over. */
  lemma ClockBackShortensCooldown(t: Tables, p: PlayerId, id: RewardId, id2: RewardId, catalog: seq<Reward>,
                                  perm: seq<nat>, now: Seconds, earlier: Seconds)
    requires IsPermutation(perm, |catalog|) && |catalog| >= 3
    requires CanUse(t, true, false, p, now)
    requires earlier < now
    ensures !CanUse(IssueSpec(t, true, p, id, catalog, perm, now, false, NoFault), true, false, p,
                    earlier + CooldownSeconds)
    ensures var r := Run(t, true, [Issue(p, id, catalog, perm, now, false, NoFault),
                                   Issue(p, id2, catalog, perm, earlier, true, NoFault)]);
            CanUse(r, true, false, p, earlier + CooldownSeconds)
  {
    var ops := [Issue(p, id, catalog, perm, now, false, NoFault), Issue(p, id2, catalog, perm, earlier, true, NoFault)];
    var issued := IssueSpec(t, true, p, id, catalog, perm, now, false, NoFault);
    var again := IssueSpec(issued, true, p, id2, catalog, perm, earlier, true, NoFault);
    assert ops[1..] == [ops[1]] && ops[1..][1..] == [];
    assert Run(t, true, ops) == Run(issued, true, ops[1..]);
    assert Run(issued, true, ops[1..]) == Run(again, true, []);
    assert p in again.usage && again.usage[p] == earlier;
  }

  /** A reset after an issue lifts the cooldown at once, whatever the issue
      did: the player then passes the gate at any time. */
  lemma ResetLiftsCooldown(t: Tables, connected: bool, p: PlayerId, id: RewardId, catalog: seq<Reward>,
                           perm: seq<nat>, now: Seconds, queryFails: bool, fault: Fault,
                           laterQueryFails: bool, later: Seconds)
    requires IsPermutation(perm, |catalog|)
    ensures var r := Run(t, connected, [Issue(p, id, catalog, perm, now, queryFails, fault), Reset(p, false)]);
            CanUse(r, connected, laterQueryFails, p, later)
  {
    var issued := IssueSpec(t, connected, p, id, catalog, perm, now, queryFails, fault);
    var ops := [Issue(p, id, catalog, perm, now, queryFails, fault), Reset(p, false)];
    assert ops[1..] == [Reset(p, false)];
    assert Run(t, connected, ops) == Run(issued, connected, [Reset(p, false)]);
    assert Run(issued, connected, [Reset(p, false)]) == ResetSpec(issued, connected, p, false);
  }
}
