/** One tenant's tables. A row's id is its position, so ids are fresh by
    construction and insertion order is the order of every listing. */
module Rows {
  import opened Types
  import opened Eligibility

  datatype User = User(telegramId: int, pendingMarket: Option<Market>)

  datatype Account = Account(
    user: nat, provider: Provider, market: Market, uid: string, status: AccountStatus, compliance: ComplianceState,
    balance: Option<Amount>, lastChecked: Option<Time>, verifiedAt: Option<Time>, rejection: Option<Reason>)

  datatype Subscription = Subscription(
    user: nat, market: Market, status: SubscriptionStatus, startsAt: Option<Time>, endsAt: Option<Time>)

  datatype Membership = Membership(
    user: nat, channel: nat, subscription: nat, status: MembershipStatus, link: Option<string>, issuedAt: Option<Time>,
    createdAt: Time, joinedAt: Option<Time>, revokedAt: Option<Time>, revocationReason: Option<Reason>,
    warnings: int, lastWarning: Option<Time>)

  datatype Config = Config(rules: Rules, graceDays: int, active: bool, referralLink: string)

  datatype Channel = Channel(id: nat, chat: int, active: bool)

  datatype Snapshot = Snapshot(end: Time, trades: int, balance: Amount, registered: bool, state: ComplianceState)

  datatype Job = Job(state: JobState, processed: int, warned: int, revoked: int, skipped: int)

  /** Snapshots are unique per (account, period start), job rows per period start
      (one job name), configs per (provider, market), channels per market. */
  datatype Db = Db(
    users: seq<User>, accounts: seq<Account>, subscriptions: seq<Subscription>, memberships: seq<Membership>,
    configs: map<(Provider, Market), Config>, channels: map<Market, Channel>,
    snapshots: map<(nat, Time), Snapshot>, jobs: map<Time, Job>)

  /** What Telegram was asked to do; never rolled back. */
  datatype Text = Warning(number: int, of: int, reason: Reason) | Removed(reason: Reason) | Restored

  datatype Effect =
    | Message(chat: int, text: Text)
    | Ban(channel: int, member: int)
    | Unban(channel: int, member: int)
    | Mint(channel: int, expires: Time)

  // Lookups. Each returns the first match in insertion order.

  function FindUser(users: seq<User>, telegramId: int): (r: Option<nat>)
    ensures r.Some? ==> r.value < |users| && users[r.value].telegramId == telegramId
    ensures r.None? ==> forall i | 0 <= i < |users| :: users[i].telegramId != telegramId
  {
    if users == [] then None
    else
      var k := |users| - 1;
      var earlier := FindUser(users[..k], telegramId);
      if earlier.Some? then earlier else if users[k].telegramId == telegramId then Some(k) else None
  }

  function FindUid(accounts: seq<Account>, provider: Provider, uid: string): (r: Option<nat>)
    ensures r.Some? ==> r.value < |accounts| && accounts[r.value].provider == provider && accounts[r.value].uid == uid
                        && forall i | 0 <= i < r.value :: !(accounts[i].provider == provider && accounts[i].uid == uid)
    ensures r.None? ==> forall i | 0 <= i < |accounts| :: !(accounts[i].provider == provider && accounts[i].uid == uid)
  {
    if accounts == [] then None
    else
      var k := |accounts| - 1;
      var earlier := FindUid(accounts[..k], provider, uid);
      if earlier.Some? then earlier
      else if accounts[k].provider == provider && accounts[k].uid == uid then Some(k)
      else None
  }

  function FirstAccount(accounts: seq<Account>, user: nat): (r: Option<nat>)
    ensures r.Some? ==> r.value < |accounts| && accounts[r.value].user == user
                        && forall i | 0 <= i < r.value :: accounts[i].user != user
    ensures r.None? ==> forall i | 0 <= i < |accounts| :: accounts[i].user != user
  {
    if accounts == [] then None
    else
      var k := |accounts| - 1;
      var earlier := FirstAccount(accounts[..k], user);
      if earlier.Some? then earlier else if accounts[k].user == user then Some(k) else None
  }

  function FirstSubscription(subs: seq<Subscription>, user: nat, market: Market): (r: Option<nat>)
    ensures r.Some? ==> r.value < |subs| && subs[r.value].user == user && subs[r.value].market == market
                        && forall i | 0 <= i < r.value :: !(subs[i].user == user && subs[i].market == market)
    ensures r.None? ==> forall i | 0 <= i < |subs| :: !(subs[i].user == user && subs[i].market == market)
  {
    if subs == [] then None
    else
      var k := |subs| - 1;
      var earlier := FirstSubscription(subs[..k], user, market);
      if earlier.Some? then earlier else if subs[k].user == user && subs[k].market == market then Some(k) else None
  }

  function FindMembership(rows: seq<Membership>, user: nat, channel: nat): (r: Option<nat>)
    ensures r.Some? ==> r.value < |rows| && rows[r.value].user == user && rows[r.value].channel == channel
    ensures r.None? ==> forall i | 0 <= i < |rows| :: !(rows[i].user == user && rows[i].channel == channel)
  {
    if rows == [] then None
    else
      var k := |rows| - 1;
      var earlier := FindMembership(rows[..k], user, channel);
      if earlier.Some? then earlier else if rows[k].user == user && rows[k].channel == channel then Some(k) else None
  }

  /** The only way to a chat id: the market's channel, if it is active. */
  function ChannelFor(db: Db, market: Market): (r: Option<Channel>)
    ensures r.Some? <==> market in db.channels && db.channels[market].active
    ensures r.Some? ==> r.value == db.channels[market]
  {
    if market in db.channels && db.channels[market].active then Some(db.channels[market]) else None
  }

  function ConfigFor(db: Db, provider: Provider, market: Market): (r: Option<Config>)
    ensures r.Some? <==> (provider, market) in db.configs
    ensures r.Some? ==> r.value == db.configs[(provider, market)]
  {
    if (provider, market) in db.configs then Some(db.configs[(provider, market)]) else None
  }

  /** Positions of the rows a monitoring pass lists, in insertion order. */
  function MonitoredIds(rows: seq<Membership>): (ids: seq<nat>)
    ensures forall i | 0 <= i < |ids| :: ids[i] < |rows| && Monitored(rows[ids[i]].status)
    ensures forall i, j | 0 <= i < j < |ids| :: ids[i] < ids[j]
    ensures forall m: nat | m < |rows| && Monitored(rows[m].status) :: m in ids
  {
    if rows == [] then []
    else
      var k := |rows| - 1;
      var earlier := MonitoredIds(rows[..k]);
      if Monitored(rows[k].status) then earlier + [k] else earlier
  }
}
