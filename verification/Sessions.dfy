/** The bot and the database session as the program has them: objects whose fields
    change step by step. */
module Sessions {
  import opened Types
  import opened Rows
  import opened Runs

  /** Telegram as an append-only record; it answers `serves` more calls, then is
      down. Nothing here is undone by a rollback. */
  class Bot {
    var log: seq<Effect>
    var serves: nat
    var nextLink: string

    constructor (serves: nat, nextLink: string)
      ensures log == [] && this.serves == serves && this.nextLink == nextLink
    {
      log, this.serves, this.nextLink := [], serves, nextLink;
    }

    /** Ask for an invite; the answer is whatever `nextLink` holds. */
    method CreateInvite(channel: int, expires: Time) returns (up: bool, link: string)
      modifies this
      ensures up <==> old(serves) > 0
      ensures log == if up then old(log) + [Mint(channel, expires)] else old(log)
      ensures serves == if up then old(serves) - 1 else 0
      ensures link == old(nextLink)
    {
      link := nextLink;
      up := Call(Mint(channel, expires));
    }

    method Call(e: Effect) returns (up: bool)
      modifies this
      ensures up <==> old(serves) > 0
      ensures log == if up then old(log) + [e] else old(log)
      ensures serves == (if up then old(serves) - 1 else 0) && nextLink == old(nextLink)
    {
      up := serves > 0;
      if up {
        log := log + [e];
        serves := serves - 1;
      }
    }
  }

  /** One database session. The tables are the open transaction's view, `saved`
      is what is committed, `broken` says a constraint error poisoned the
      transaction. */
  class Session {
    var users: seq<User>
    var accounts: seq<Account>
    var subscriptions: seq<Subscription>
    var memberships: seq<Membership>
    var configs: map<(Provider, Market), Config>
    var channels: map<Market, Channel>
    var snapshots: map<(nat, Time), Snapshot>
    var jobs: map<Time, Job>
    var saved: Db
    var broken: bool

    function View(): Db
      reads this
    {
      Db(users, accounts, subscriptions, memberships, configs, channels, snapshots, jobs)
    }

    constructor (db: Db)
      ensures View() == db && saved == db && !broken
    {
      users, accounts, subscriptions, memberships := db.users, db.accounts, db.subscriptions, db.memberships;
      configs, channels, snapshots, jobs := db.configs, db.channels, db.snapshots, db.jobs;
      saved, broken := db, false;
    }

    method Restore(mark: Db)
      modifies this`users, this`accounts, this`subscriptions, this`memberships, this`configs, this`channels,
               this`snapshots, this`jobs, this`broken
      ensures View() == mark && !broken
    {
      users, accounts, subscriptions, memberships := mark.users, mark.accounts, mark.subscriptions, mark.memberships;
      configs, channels, snapshots, jobs := mark.configs, mark.channels, mark.snapshots, mark.jobs;
      broken := false;
    }

    method Commit()
      requires !broken
      modifies this
      ensures saved == old(View()) && View() == old(View()) && !broken
    {
      saved := View();
    }

    method Rollback()
      modifies this
      ensures View() == old(saved) && saved == old(saved) && !broken
    {
      Restore(saved);
    }

    /** The unique key on (tenant, job, period start). */
    method InsertJob(start: Time, row: Job)
      requires !broken
      modifies this`jobs, this`broken
      ensures broken <==> start in old(jobs)
      ensures jobs == if broken then old(jobs) else old(jobs)[start := row]
    {
      if start in jobs { broken := true; } else { jobs := jobs[start := row]; }
    }

    /** The unique key on (tenant, account, period start). */
    method InsertSnapshot(key: (nat, Time), row: Snapshot)
      requires !broken
      modifies this`snapshots, this`broken
      ensures broken <==> key in old(snapshots)
      ensures snapshots == if broken then old(snapshots) else old(snapshots)[key := row]
    {
      if key in snapshots { broken := true; } else { snapshots := snapshots[key := row]; }
    }

    /** Take the period, or leave the transaction as it was: losing the race rolls
        back to the savepoint only, so earlier uncommitted work survives. */
    method ClaimPeriod(start: Time) returns (granted: bool)
      requires !broken
      modifies this`users, this`accounts, this`subscriptions, this`memberships, this`configs, this`channels,
               this`snapshots, this`jobs, this`broken
      ensures granted <==> start !in old(jobs)
      ensures View() == if granted then Claim(old(View()), start) else old(View())
      ensures !broken
    {
      var mark := View();
      InsertJob(start, CLAIMED);
      granted := !broken;
      if broken { Restore(mark); }
    }

    method Finish(start: Time, row: Job)
      requires start in jobs
      modifies this`jobs
      ensures jobs == old(jobs)[start := row]
    {
      jobs := jobs[start := row];
    }
  }
}
