/** A UID arrives: the admission sequence as a function of the tables. */
module Onboarding {
  import opened Types
  import opened Eligibility
  import opened Rows
  import opened Lifecycle
  import Uid

  /** One submission and what the world answers while it is handled. */
  datatype Request = Request(
    telegramId: int, market: Market, provider: Provider, oracle: map<string, Check>,
    now: Time, ttl: Time, minted: string)

  datatype Answer =
    | AnswerInvited | AnswerAlreadyMember | AnswerInvalidUid | AnswerClaimed | AnswerNotRegistered
    | AnswerInsufficient | AnswerUnavailable | AnswerNotConfigured

  /** `effects` is what Telegram is asked to do: nothing, or one invite. */
  datatype Submission = Submission(answer: Answer, db: Db, link: Option<string>, effects: seq<Effect>,
      verdict: Option<Verdict>)

  /** The table with the user present, and the user's id. */
  function EnsureUser(db: Db, telegramId: int): (r: (Db, nat))
    ensures r.1 < |r.0.users| && r.0.users[r.1].telegramId == telegramId
    ensures r.0 == db.(users := r.0.users) && db.users <= r.0.users
  {
    var found := FindUser(db.users, telegramId);
    if found.Some? then (db, found.value)
    else (db.(users := db.users + [User(telegramId, None)]), |db.users|)
  }

  function EnsureSubscription(db: Db, user: nat, market: Market, now: Time): (r: (Db, nat))
    ensures r.1 < |r.0.subscriptions| && r.0 == db.(subscriptions := r.0.subscriptions)
  {
    var found := FirstSubscription(db.subscriptions, user, market);
    if found.Some? then
      var s := db.subscriptions[found.value];
      var revived := s.(status := SubActive, startsAt := if s.startsAt.Some? then s.startsAt else Some(now));
      (db.(subscriptions := db.subscriptions[found.value := revived]), found.value)
    else
      (db.(subscriptions := db.subscriptions + [Subscription(user, market, SubActive, Some(now), None)]),
          |db.subscriptions|)
  }

  function EnsureMembership(db: Db, user: nat, channel: nat, subscription: nat, now: Time): (r: (Db, nat))
    ensures r.1 < |r.0.memberships| && r.0 == db.(memberships := r.0.memberships)
  {
    var found := FindMembership(db.memberships, user, channel);
    if found.Some? then
      (db.(memberships := db.memberships[found.value := Readmitted(db.memberships[found.value], subscription)]),
          found.value)
    else
      (db.(memberships := db.memberships + [NewMembership(user, channel, subscription, now)]), |db.memberships|)
  }

  /** The account row this submission works on: the claimed one, or a new one. */
  function AccountFor(db: Db, user: nat, rq: Request, uid: string): (r: (Db, nat))
    ensures r.1 < |r.0.accounts| && r.0 == db.(accounts := r.0.accounts)
    ensures FindUid(db.accounts, rq.provider, uid).Some? ==>
              r.0 == db && r.1 == FindUid(db.accounts, rq.provider, uid).value
  {
    var claimed := FindUid(db.accounts, rq.provider, uid);
    if claimed.Some? then (db, claimed.value)
    else
      (db.(accounts := db.accounts + [Account(user, rq.provider, rq.market, uid, Unverified, VerificationPending,
          None, None, None, None)]),
       |db.accounts|)
  }

  /** The account row after the sign-up verdict. */
  function JudgedAccount(a: Account, check: Option<Check>, v: Verdict, now: Time): Account {
    var checked := a.(compliance := v.state, lastChecked := Some(now),
                      balance := if check.Some? then Some(v.balance) else a.balance);
    match v.reason
    case ProviderUnavailable => checked.(status := Unverified)
    case Eligible => checked.(status := Verified, rejection := None, verifiedAt := Some(now))
    case _ => checked.(status := Rejected, rejection := Some(v.reason))
  }

  function SignUpCheck(rq: Request, uid: string): Option<Check> {
    if uid in rq.oracle then Some(rq.oracle[uid]) else None
  }

  /** An admitted user's subscription, membership and invite. */
  function Admit(db: Db, user: nat, channel: Channel, rq: Request): Submission {
    var (db1, sub) := EnsureSubscription(db, user, rq.market, rq.now);
    var (db2, mid) := EnsureMembership(db1, user, channel.id, sub, rq.now);
    var m := db2.memberships[mid];
    var live := LiveLink(m, rq.now, rq.ttl);
    var final := Issued(m, rq.now, rq.ttl, rq.minted);
    Submission(if m.status == Active then AnswerAlreadyMember else AnswerInvited,
               db2.(memberships := db2.memberships[mid := final]), final.link,
               if live.Some? then [] else [Mint(channel.chat, rq.now + rq.ttl)], None)
  }

  /** From a verdict on: record it, and admit the user if it is favourable. */
  function Judge(db: Db, user: nat, uid: string, config: Config, channel: Channel, rq: Request): Submission {
    var check := SignUpCheck(rq, uid);
    var v := Evaluate(check, config.rules, false);
    var (db1, j) := AccountFor(db, user, rq, uid);
    var db2 := db1.(accounts := db1.accounts[j := JudgedAccount(db1.accounts[j], check, v, rq.now)]);
    match v.reason
    case ProviderUnavailable => Submission(AnswerUnavailable, db2, None, [], Some(v))
    case Eligible => Admit(db2, user, channel, rq).(verdict := Some(v))
    case NotRegistered => Submission(AnswerNotRegistered, db2, None, [], Some(v))
    case _ => Submission(AnswerInsufficient, db2, None, [], Some(v))
  }

  function SubmitCanonical(db: Db, uid: string, rq: Request): Submission {
    var config := ConfigFor(db, rq.provider, rq.market);
    var channel := ChannelFor(db, rq.market);
    if !Uid.IsValid(uid) then Submission(AnswerInvalidUid, db, None, [], None)
    else if config == None || channel == None || !config.value.active
      then Submission(AnswerNotConfigured, db, None, [], None)
    else
      var (db1, user) := EnsureUser(db, rq.telegramId);
      var claimed := FindUid(db1.accounts, rq.provider, uid);
      if claimed.Some? && db1.accounts[claimed.value].user != user then Submission(AnswerClaimed, db1, None, [], None)
      else Judge(db1, user, uid, config.value, channel.value, rq)
  }

  function Submit(db: Db, rawUid: string, rq: Request): Submission {
    SubmitCanonical(db, Uid.Normalize(rawUid), rq)
  }

  /** Two texts are one submission whenever typing separators in or out and
      swapping digit scripts links them; so is the text the bot has already
      normalised. */
  lemma SpellingIsImmaterial(db: Db, raw: string, other: string, path: seq<string>, rq: Request)
    requires Uid.Respelling(path, raw, other)
    ensures Submit(db, other, rq) == Submit(db, raw, rq)
    ensures Submit(db, Uid.Normalize(raw), rq) == Submit(db, raw, rq)
  {
    hide SubmitCanonical;
    Uid.SameUidIffRespelling(raw, other);
    Uid.NormalizeIdempotent(raw);
  }
}
