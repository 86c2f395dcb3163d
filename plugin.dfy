/** The plugin object: the three tables as fields, changed statement by
    statement by the database methods, and the `/rewards` command that
    drives them. Each method is proved against the table function of the
    `Store` module that gives its whole effect. */
module Plugin {
  import opened Catalog
  import opened Store
  import opened Command

  /** How a transaction ended. */
  datatype TxOutcome = Committed | RolledBack | NoConnection

  /** The chat message the command sends, if any. */
  datatype Reply =
    | RewardReceived(url: string)
    | NotEnoughRewards
    | AlreadyClaimed
    | ResetSuccess(name: string)
    | NoPermission
    | Silent

  /** Who sent the command. */
  datatype Sender = Sender(uuid: PlayerId, isPlayer: bool, isOp: bool)

  /** Everything one command reads from outside: the clock, a fresh random
      offer id, the configured catalog and the shuffle of it, the configured
      web address, which database calls throw, and the id the server
      resolves the name given to `reset` to. */
  datatype Env = Env(now: Seconds, freshId: RewardId, catalog: seq<Reward>, perm: seq<nat>,
                     urlBase: string, queryFails: bool, saveFault: Fault, resetFails: bool,
                     resolved: PlayerId)

  /** The claim address sent to the player: `<base>?reward_id=<id>`. */
  function RewardUrl(base: string, id: RewardId): (url: string)
    ensures |url| == |base| + |"?reward_id="| + |id|
    ensures url[..|base|] == base && url[|url| - |id|..] == id
    ensures url[|base|..|url| - |id|] == "?reward_id="
  {
    base + "?reward_id=" + id
  }

  /** The message of the issue path. It depends on the gate and the catalog
      size only: a player is sent the address of the new offer even when
      saving it failed or there is no connection. */
  function IssueReply(t: Tables, connected: bool, p: PlayerId, id: RewardId, catalog: seq<Reward>,
                      now: Seconds, queryFails: bool, urlBase: string): (reply: Reply)
    ensures reply == AlreadyClaimed <==> !CanUse(t, connected, queryFails, p, now)
    ensures reply == NotEnoughRewards <==> CanUse(t, connected, queryFails, p, now) && |catalog| < 3
    ensures reply.RewardReceived? <==> CanUse(t, connected, queryFails, p, now) && |catalog| >= 3
    ensures reply.RewardReceived? ==> reply.url == RewardUrl(urlBase, id)
  {
    if !CanUse(t, connected, queryFails, p, now) then AlreadyClaimed
    else if Min(3, |catalog|) == 3 then RewardReceived(RewardUrl(urlBase, id))
    else NotEnoughRewards
  }

  class WebRewards {
    /** Whether the plugin holds a database connection. */
    const connected: bool
    /** `rewards_web`. */
    var pending: map<PlayerId, Offer>
    /** `rewards_usage`. */
    var usage: map<PlayerId, Seconds>
    /** `rewards_log`. */
    var log: seq<LogRow>

    function State(): Tables
      reads this
    {
      Tables(pending, usage, log)
    }

    /** A plugin over tables that already hold `existing`. */
    constructor (connected: bool, existing: Tables)
      ensures this.connected == connected && State() == existing
    {
      this.connected := connected;
      pending, usage, log := existing.pending, existing.usage, existing.log;
    }

    /** The rollback after a statement or the commit threw: the tables are
        as they were when the transaction began. */
    method Rollback(before: Tables) returns (outcome: TxOutcome)
      modifies this
      ensures State() == before && outcome == RolledBack
    {
      pending, usage, log := before.pending, before.usage, before.log;
      outcome := RolledBack;
    }

    /** `saveReward`: `REPLACE INTO rewards_web`, then `REPLACE INTO
        rewards_usage`, then commit; a throw at any of the three rolls back. */
    method SaveReward(p: PlayerId, id: RewardId, rewards: seq<Reward>,
                      offerTime: Seconds, usageTime: Seconds, fault: Fault) returns (outcome: TxOutcome)
      requires |rewards| >= 3
      modifies this
      ensures State() == SaveSpec(old(State()), connected, p, id, rewards, offerTime, usageTime, fault)
      ensures outcome == Committed <==> Commits(connected, fault)
      ensures outcome == NoConnection <==> !connected
    {
      if !connected {
        return NoConnection;
      }
      var before := State();
      if fault == FirstStatementFails {
        outcome := Rollback(before);
        return;
      }
      pending := pending[p := NewOffer(offerTime, id, rewards)];
      if fault == SecondStatementFails {
        outcome := Rollback(before);
        return;
      }
      usage := usage[p := usageTime];
      if fault == CommitFails {
        outcome := Rollback(before);
        return;
      }
      outcome := Committed;
    }

    /** `claimReward`: `INSERT INTO rewards_log`, then `DELETE FROM
        rewards_web` by player, then commit; a throw at any of the three
        rolls back. */
    method ClaimReward(p: PlayerId, id: RewardId, reward: Reward, now: Seconds, fault: Fault)
      returns (outcome: TxOutcome)
      modifies this
      ensures State() == ClaimSpec(old(State()), connected, p, id, reward, now, fault)
      ensures outcome == Committed <==> Commits(connected, fault)
      ensures outcome == NoConnection <==> !connected
    {
      if !connected {
        return NoConnection;
      }
      var before := State();
      if fault == FirstStatementFails {
        outcome := Rollback(before);
        return;
      }
      log := log + [LogRow(p, id, reward, now)];
      if fault == SecondStatementFails {
        outcome := Rollback(before);
        return;
      }
      pending := pending - {p};
      if fault == CommitFails {
        outcome := Rollback(before);
        return;
      }
      outcome := Committed;
    }

    /** `resetRewards`: one `DELETE FROM rewards_usage` by player, outside
        any explicit transaction. */
    method ResetRewards(p: PlayerId, fails: bool)
      modifies this
      ensures State() == ResetSpec(old(State()), connected, p, fails)
    {
      if connected && !fails {
        usage := usage - {p};
      }
    }

    /** The issue path of `/rewards` for player `p`. */
    method Issue(p: PlayerId, id: RewardId, catalog: seq<Reward>, perm: seq<nat>, now: Seconds,
                 queryFails: bool, fault: Fault, urlBase: string) returns (reply: Reply)
      requires IsPermutation(perm, |catalog|)
      modifies this
      ensures State() == IssueSpec(old(State()), connected, p, id, catalog, perm, now, queryFails, fault)
      ensures reply == IssueReply(old(State()), connected, p, id, catalog, now, queryFails, urlBase)
    {
      if CanUse(State(), connected, queryFails, p, now) {
        var rewards := Draw(catalog, perm, 3);
        if |rewards| == 3 {
          var _ := SaveReward(p, id, rewards, now, now, fault);
          reply := RewardReceived(RewardUrl(urlBase, id));
        } else {
          reply := NotEnoughRewards;
        }
      } else {
        reply := AlreadyClaimed;
      }
    }

    /** `onCommand`: dispatch, then issue to the sender, reset the named
        player, or only answer. */
    method OnCommand(command: string, args: seq<string>, sender: Sender, env: Env)
      returns (handled: bool, reply: Reply)
      requires IsPermutation(env.perm, |env.catalog|)
      modifies this
      ensures handled == Dispatch(command, args, sender.isPlayer, sender.isOp).handled
      ensures var action := Dispatch(command, args, sender.isPlayer, sender.isOp).action;
              match action
              case IssueToSender =>
                State() == IssueSpec(old(State()), connected, sender.uuid, env.freshId, env.catalog, env.perm,
                                     env.now, env.queryFails, env.saveFault) &&
                reply == IssueReply(old(State()), connected, sender.uuid, env.freshId, env.catalog,
                                    env.now, env.queryFails, env.urlBase)
              case ResetPlayer(name) =>
                State() == ResetSpec(old(State()), connected, env.resolved, env.resetFails) &&
                reply == ResetSuccess(name)
              case RefuseReset => State() == old(State()) && reply == NoPermission
              case NoAction => State() == old(State()) && reply == Silent
    {
      var decision := Dispatch(command, args, sender.isPlayer, sender.isOp);
      handled := decision.handled;
      match decision.action
      case IssueToSender =>
        reply := Issue(sender.uuid, env.freshId, env.catalog, env.perm, env.now,
                       env.queryFails, env.saveFault, env.urlBase);
      case ResetPlayer(name) =>
        ResetRewards(env.resolved, env.resetFails);
        reply := ResetSuccess(name);
      case RefuseReset =>
        reply := NoPermission;
      case NoAction =>
        reply := Silent;
    }
  }
}
