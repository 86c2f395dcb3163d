/** The three persisted tables and the effect of each database operation on
    them, as functions of the tables before the operation.

    - `pending` is `rewards_web`, keyed by player: the unclaimed offer.
    - `usage` is `rewards_usage`, keyed by player: the last issuance time.
    - `log` is `rewards_log`, unkeyed and only appended to: claimed rewards.

    `REPLACE INTO` is an upsert by key (a map update), `DELETE ... WHERE
    player_uuid = ?` removes one key. Times are whole seconds. A failing
    statement or commit is a `Fault`; the rollback that follows restores the
    tables as they were before the transaction. */
module Store {
  import opened Catalog

  type PlayerId = string
  type RewardId = string
  type Seconds = int

  /** The cooldown between two issuances to one player: 2 hours. */
  const CooldownSeconds: int := 7200

  /** A row of `rewards_web` without its key. */
  datatype Offer = Offer(lastUsed: Seconds, rewardId: RewardId, reward1: Reward, reward2: Reward, reward3: Reward)

  /** A row of `rewards_log`; `claimedAt` is the database's CURRENT_TIMESTAMP default. */
  datatype LogRow = LogRow(player: PlayerId, rewardId: RewardId, reward: Reward, claimedAt: Seconds)

  datatype Tables = Tables(pending: map<PlayerId, Offer>, usage: map<PlayerId, Seconds>, log: seq<LogRow>)

  /** Where a two-statement transaction throws, if it does. */
  datatype Fault = NoFault | FirstStatementFails | SecondStatementFails | CommitFails

  /** A transaction commits when there is a connection and nothing throws. */
  predicate Commits(connected: bool, fault: Fault) {
    connected && fault == NoFault
  }

  /** `canUseRewards`: without a connection, or when the query throws, the
      gate lets the player through. Otherwise it denies exactly while a usage
      row exists and `now` is before `lastUsed + 7200`. */
  function CanUse(t: Tables, connected: bool, queryFails: bool, p: PlayerId, now: Seconds): (allowed: bool)
    ensures p !in t.usage ==> allowed
    ensures !connected || queryFails ==> allowed
    ensures !allowed <==> connected && !queryFails && p in t.usage && now < t.usage[p] + CooldownSeconds
  {
    if !connected then true
    else if queryFails then true
    else if p in t.usage && now < t.usage[p] + CooldownSeconds then false
    else true
  }

  /** The offer `saveReward` writes for the first three drawn rewards. */
  function NewOffer(offerTime: Seconds, id: RewardId, rewards: seq<Reward>): (o: Offer)
    requires |rewards| >= 3
    ensures o.lastUsed == offerTime && o.rewardId == id
    ensures [o.reward1, o.reward2, o.reward3] == rewards[..3]
  {
    Offer(offerTime, id, rewards[0], rewards[1], rewards[2])
  }

  /** `saveReward`: in one transaction, upsert the player's offer and usage
      row. All or nothing; other players' rows and the log never change. */
  function SaveSpec(t: Tables, connected: bool, p: PlayerId, id: RewardId, rewards: seq<Reward>,
                    offerTime: Seconds, usageTime: Seconds, fault: Fault): (r: Tables)
    requires |rewards| >= 3
    ensures r.log == t.log
    ensures r.pending - {p} == t.pending - {p} && r.usage - {p} == t.usage - {p}
    ensures Commits(connected, fault) ==>
              p in r.pending && r.pending[p] == Offer(offerTime, id, rewards[0], rewards[1], rewards[2]) &&
              p in r.usage && r.usage[p] == usageTime
    ensures !Commits(connected, fault) ==> r == t
  {
    if Commits(connected, fault) then
      t.(pending := t.pending[p := NewOffer(offerTime, id, rewards)], usage := t.usage[p := usageTime])
    else
      t
  }

  /** `claimReward`: in one transaction, append one log row for the one
      claimed reward and delete the player's pending offer, whatever offer
      (if any) is stored there. All or nothing; usage never changes. */
  function ClaimSpec(t: Tables, connected: bool, p: PlayerId, id: RewardId, reward: Reward,
                     now: Seconds, fault: Fault): (r: Tables)
    ensures r.usage == t.usage
    ensures r.pending - {p} == t.pending - {p}
    ensures Commits(connected, fault) ==> r.log == t.log + [LogRow(p, id, reward, now)] && p !in r.pending
    ensures !Commits(connected, fault) ==> r == t
  {
    if Commits(connected, fault) then
      t.(log := t.log + [LogRow(p, id, reward, now)], pending := t.pending - {p})
    else
      t
  }

  /** `resetRewards`: a single auto-committed delete of the player's usage
      row. Pending offers and the log never change. */
  function ResetSpec(t: Tables, connected: bool, p: PlayerId, fails: bool): (r: Tables)
    ensures r.pending == t.pending && r.log == t.log
    ensures r.usage - {p} == t.usage - {p}
    ensures connected && !fails ==> p !in r.usage
    ensures !(connected && !fails) ==> r == t
  {
    if connected && !fails then t.(usage := t.usage - {p}) else t
  }

  /** The issue path of `/rewards`: gate, draw three, and save only when
      three were drawn. The gate, the offer and the usage row all read the
      one clock value `now`. */
  function IssueSpec(t: Tables, connected: bool, p: PlayerId, id: RewardId, catalog: seq<Reward>,
                     perm: seq<nat>, now: Seconds, queryFails: bool, fault: Fault): (r: Tables)
    requires IsPermutation(perm, |catalog|)
    ensures !CanUse(t, connected, queryFails, p, now) ==> r == t
    ensures |catalog| < 3 ==> r == t
    ensures r.log == t.log
    ensures r.pending - {p} == t.pending - {p} && r.usage - {p} == t.usage - {p}
    ensures CanUse(t, connected, queryFails, p, now) && |catalog| >= 3 && Commits(connected, fault) ==>
              p in r.pending && r.pending[p] == Offer(now, id, catalog[perm[0]], catalog[perm[1]], catalog[perm[2]]) &&
              p in r.usage && r.usage[p] == now
    ensures !Commits(connected, fault) ==> r == t
  {
    if !CanUse(t, connected, queryFails, p, now) then t
    else
      var drawn := Draw(catalog, perm, 3);
      if |drawn| == 3 then SaveSpec(t, connected, p, id, drawn, now, now, fault) else t
  }

  // Properties of the gate

  /** The cooldown boundary is exact: one second before `lastUsed + 7200`
      the player is denied, at `lastUsed + 7200` allowed. */
  lemma GateBoundary(t: Tables, p: PlayerId)
    requires p in t.usage
    ensures !CanUse(t, true, false, p, t.usage[p] + CooldownSeconds - 1)
    ensures CanUse(t, true, false, p, t.usage[p] + CooldownSeconds)
  {
  }

  /** Once the gate lets a player through, it does so at every later time. */
  lemma GateMonotone(t: Tables, connected: bool, queryFails: bool, p: PlayerId, now: Seconds, later: Seconds)
    requires now <= later
    requires CanUse(t, connected, queryFails, p, now)
    ensures CanUse(t, connected, queryFails, p, later)
  {
  }

  // Properties of issuance

  /** Issuing at `now` closes the gate for the player until `now + 7200`. */
  lemma IssueStartsCooldown(t: Tables, connected: bool, p: PlayerId, id: RewardId, catalog: seq<Reward>,
                            perm: seq<nat>, now: Seconds, queryFails: bool, fault: Fault, later: Seconds)
    requires IsPermutation(perm, |catalog|)
    requires CanUse(t, connected, queryFails, p, now) && |catalog| >= 3 && Commits(connected, fault)
    requires later < now + CooldownSeconds
    ensures !CanUse(IssueSpec(t, connected, p, id, catalog, perm, now, queryFails, fault), connected, false, p, later)
  {
  }

  /** With a working gate, the usage time of a player only ever moves
      forward, and by at least the cooldown when it moves at all. */
  lemma IssueAdvancesCooldown(t: Tables, connected: bool, p: PlayerId, id: RewardId, catalog: seq<Reward>,
                              perm: seq<nat>, now: Seconds, fault: Fault)
    requires IsPermutation(perm, |catalog|)
    requires p in t.usage
    ensures var r := IssueSpec(t, connected, p, id, catalog, perm, now, false, fault);
            p in r.usage && (r.usage[p] == t.usage[p] || r.usage[p] >= t.usage[p] + CooldownSeconds)
  {
  }

  /** The gate fails open: when its query throws, a player still inside the
      cooldown receives a new offer and a new usage time. */
  lemma FailOpenIssuesInsideCooldown(t: Tables, p: PlayerId, id: RewardId, catalog: seq<Reward>,
                                     perm: seq<nat>, now: Seconds)
    requires IsPermutation(perm, |catalog|) && |catalog| >= 3
    requires p in t.usage && now < t.usage[p] + CooldownSeconds
    ensures !CanUse(t, true, false, p, now)
    ensures var r := IssueSpec(t, true, p, id, catalog, perm, now, true, NoFault);
            p in r.pending && r.pending[p].rewardId == id && r.usage[p] == now
  {
  }

  // Properties of claiming and resetting

  /** Claiming does not look at the pending offer: with no offer at all, or
      an offer under another id, the claim is still logged. */
  lemma ClaimIgnoresOffer(t: Tables, p: PlayerId, id: RewardId, reward: Reward, now: Seconds)
    requires p !in t.pending || t.pending[p].rewardId != id
    ensures ClaimSpec(t, true, p, id, reward, now, NoFault).log == t.log + [LogRow(p, id, reward, now)]
  {
  }

  /** Claiming is not once-only: claiming the same offer twice logs it twice. */
  lemma ClaimTwiceLogsTwice(t: Tables, p: PlayerId, id: RewardId, reward: Reward, now: Seconds, later: Seconds)
    ensures var once := ClaimSpec(t, true, p, id, reward, now, NoFault);
            ClaimSpec(once, true, p, id, reward, later, NoFault).log
              == t.log + [LogRow(p, id, reward, now), LogRow(p, id, reward, later)]
  {
  }

  /** A claim leaves the cooldown running: the gate answers as before. */
  lemma ClaimKeepsCooldown(t: Tables, connected: bool, p: PlayerId, id: RewardId, reward: Reward,
                           claimedAt: Seconds, fault: Fault, q: PlayerId, queryFails: bool, now: Seconds)
    ensures CanUse(ClaimSpec(t, connected, p, id, reward, claimedAt, fault), connected, queryFails, q, now)
            == CanUse(t, connected, queryFails, q, now)
  {
  }

  /** Resetting twice is resetting once, and resetting a player without a
      usage row changes nothing. */
  lemma ResetIdempotent(t: Tables, connected: bool, p: PlayerId, fails: bool)
    ensures ResetSpec(ResetSpec(t, connected, p, fails), connected, p, fails) == ResetSpec(t, connected, p, fails)
    ensures p !in t.usage ==> ResetSpec(t, connected, p, fails) == t
  {
  }

  /** After a reset the player passes the gate at any time. */
  lemma ResetReopensGate(t: Tables, p: PlayerId, queryFails: bool, now: Seconds)
    ensures CanUse(ResetSpec(t, true, p, false), true, queryFails, p, now)
  {
  }
}
