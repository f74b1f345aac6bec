/** Admission and invites as the program has them, working on the session's rows
    step by step; each method is tied to a function of Onboarding or Lifecycle. */
module Services {
  import opened Types
  import opened Eligibility
  import opened Rows
  import opened Lifecycle
  import opened Onboarding
  import opened Runs
  import opened Sessions
  import Uid

  class InviteService {
    const session: Session
    const bot: Bot
    const ttl: Time

    constructor (session: Session, bot: Bot, ttl: Time)
      ensures this.session == session && this.bot == bot && this.ttl == ttl
    {
      this.session, this.bot, this.ttl := session, bot, ttl;
    }

    /** A usable invite: the live link again, or a freshly minted one recorded on
        the row. If Telegram is down nothing is recorded. */
    method Issue(mid: nat, channel: Channel, now: Time) returns (link: Option<string>, reused: bool, raised: bool)
      requires mid < |session.memberships|
      modifies session`memberships, bot
      ensures var row := old(session.memberships[mid]);
              var planned := if LiveLink(row, now, ttl).Some? then [] else [Mint(channel.chat, now + ttl)];
              && (raised <==> |planned| > old(bot.serves))
              && bot.log == old(bot.log) + Delivered(planned, old(bot.serves))
              && (raised ==> session.memberships == old(session.memberships))
              && (!raised ==>
                    && session.memberships == old(session.memberships)[mid := Issued(row, now, ttl, old(bot.nextLink))]
                              && link == session.memberships[mid].link && reused == LiveLink(row, now, ttl).Some?)
    {
      raised, reused := false, false;
      var m := session.memberships[mid];
      link := LiveLink(m, now, ttl);
      if link.Some? {
        reused := true;
        return;
      }
      var up, minted := bot.CreateInvite(channel.chat, now + ttl);
      if !up { return None, false, true; }
      m := m.(link := Some(minted), issuedAt := Some(now));
      if m.status != Active { m := m.(status := Invited); }
      session.memberships := session.memberships[mid := m];
      link := Some(minted);
    }
  }

  class ReferralOnboardingService {
    const session: Session
    const invites: InviteService
    const provider: Provider
    const oracle: map<string, Check>

    constructor (session: Session, invites: InviteService, provider: Provider, oracle: map<string, Check>)
      ensures this.session == session && this.invites == invites && this.provider == provider && this.oracle == oracle
    {
      this.session, this.invites, this.provider, this.oracle := session, invites, provider, oracle;
    }

    method FindOrAddUser(telegramId: int) returns (user: nat)
      modifies session`users
      ensures var (next, id) := EnsureUser(old(session.View()), telegramId); session.users == next.users && user == id
    {
      var found := FindUser(session.users, telegramId);
      if found.Some? {
        user := found.value;
      } else {
        user := |session.users|;
        session.users := session.users + [User(telegramId, None)];
      }
    }

    method ReviveOrAddSubscription(user: nat, market: Market, now: Time) returns (sub: nat)
      modifies session`subscriptions
      ensures var (next, id) := EnsureSubscription(old(session.View()), user, market, now);
              session.subscriptions == next.subscriptions && sub == id
    {
      var found := FirstSubscription(session.subscriptions, user, market);
      if found.Some? {
        sub := found.value;
        var row := session.subscriptions[sub].(status := SubActive);
        if row.startsAt == None { row := row.(startsAt := Some(now)); }
        session.subscriptions := session.subscriptions[sub := row];
      } else {
        sub := |session.subscriptions|;
        session.subscriptions := session.subscriptions + [Subscription(user, market, SubActive, Some(now), None)];
      }
    }

    method ReadmitOrAddMembership(user: nat, channel: nat, sub: nat, now: Time) returns (mid: nat)
      modifies session`memberships
      ensures var (next, id) := EnsureMembership(old(session.View()), user, channel, sub, now);
              session.memberships == next.memberships && mid == id
    {
      var found := FindMembership(session.memberships, user, channel);
      if found.Some? {
        mid := found.value;
        var row := session.memberships[mid].(subscription := sub);
        if row.status == Revoked || row.status == Expired {
          row := row.(status := Pending, revokedAt := None, revocationReason := None);
          row := row.(warnings := 0, lastWarning := None);
        }
        session.memberships := session.memberships[mid := row];
      } else {
        mid := |session.memberships|;
        session.memberships := session.memberships + [NewMembership(user, channel, sub, now)];
      }
    }

    method FindOrAddAccount(user: nat, rq: Request, uid: string) returns (j: nat)
      modifies session`accounts
      ensures var (next, id) := AccountFor(old(session.View()), user, rq, uid);
              session.accounts == next.accounts && j == id
    {
      var claimed := FindUid(session.accounts, rq.provider, uid);
      if claimed.Some? {
        j := claimed.value;
      } else {
        j := |session.accounts|;
        session.accounts := session.accounts
          + [Account(user, rq.provider, rq.market, uid, Unverified, VerificationPending, None, None, None, None)];
      }
    }

    method RecordVerdict(j: nat, check: Option<Check>, v: Verdict, now: Time)
      requires j < |session.accounts|
      modifies session`accounts
      ensures session.accounts == old(session.accounts)[j := JudgedAccount(old(session.accounts[j]), check, v, now)]
    {
      var row := session.accounts[j].(compliance := v.state, lastChecked := Some(now));
      if check.Some? { row := row.(balance := Some(v.balance)); }
      if v.reason == ProviderUnavailable {
        row := row.(status := Unverified);
      } else if v.reason != Eligible {
        row := row.(status := Rejected, rejection := Some(v.reason));
      } else {
        row := row.(status := Verified, rejection := None, verifiedAt := Some(now));
      }
      session.accounts := session.accounts[j := row];
    }

    /** Subscription, membership, invite: the admitted user's part. */
    method AdmitUser(user: nat, channel: Channel, rq: Request) returns (answer: Answer, link: Option<string>,
            raised: bool)
      requires invites.session == session && rq.ttl == invites.ttl && rq.minted == invites.bot.nextLink
      modifies session`subscriptions, session`memberships, invites.bot
      ensures var s := Admit(old(session.View()), user, channel, rq);
              && (raised <==> |s.effects| > old(invites.bot.serves))
              && invites.bot.log == old(invites.bot.log) + Delivered(s.effects, old(invites.bot.serves))
              && (!raised ==> session.View() == s.db && answer == s.answer && link == s.link)
    {
      hide Issued, Readmitted, FindMembership, FirstSubscription;
      var sub := ReviveOrAddSubscription(user, rq.market, rq.now);
      var mid := ReadmitOrAddMembership(user, channel.id, sub, rq.now);
      answer := if session.memberships[mid].status == Active then AnswerAlreadyMember else AnswerInvited;
      var reused;
      link, reused, raised := invites.Issue(mid, channel, rq.now);
    }

    /** From the user on: refuse a uid someone else holds, ask, record, admit. */
    method JudgeUid(user: nat, uid: string, config: Config, channel: Channel, rq: Request)
      returns (answer: Answer, link: Option<string>, verdict: Option<Verdict>, raised: bool)
      requires invites.session == session && rq.ttl == invites.ttl
      requires rq.minted == invites.bot.nextLink && rq.oracle == oracle
      modifies session`accounts, session`subscriptions, session`memberships, invites.bot
      ensures var s := Judge(old(session.View()), user, uid, config, channel, rq);
              && (raised <==> |s.effects| > old(invites.bot.serves))
              && invites.bot.log == old(invites.bot.log) + Delivered(s.effects, old(invites.bot.serves))
              && (!raised ==> session.View() == s.db && answer == s.answer && link == s.link && verdict == s.verdict)
    {
      hide Admit, JudgedAccount, FindUid;
      link, raised := None, false;
      var j := FindOrAddAccount(user, rq, uid);
      var check := if uid in oracle then Some(oracle[uid]) else None;
      var v := Evaluate(check, config.rules, false);
      RecordVerdict(j, check, v, rq.now);
      verdict := Some(v);
      if v.reason == ProviderUnavailable { return AnswerUnavailable, None, verdict, false; }
      if v.reason == NotRegistered { return AnswerNotRegistered, None, verdict, false; }
      if v.reason != Eligible { return AnswerInsufficient, None, verdict, false; }
      answer, link, raised := AdmitUser(user, channel, rq);
    }

    /** The whole sequence for one submitted UID. */
    method SubmitUid(telegramId: int, market: Market, rawUid: string, now: Time)
      returns (answer: Answer, link: Option<string>, verdict: Option<Verdict>, raised: bool)
      requires invites.session == session
      modifies session`users, session`accounts, session`subscriptions, session`memberships, invites.bot
      ensures var rq := Request(telegramId, market, provider, oracle, now, invites.ttl, old(invites.bot.nextLink));
              var s := Submit(old(session.View()), rawUid, rq);
              && (raised <==> |s.effects| > old(invites.bot.serves))
              && invites.bot.log == old(invites.bot.log) + Delivered(s.effects, old(invites.bot.serves))
              && (!raised ==> session.View() == s.db && answer == s.answer && link == s.link && verdict == s.verdict)
    {
      hide Judge, Uid.IsValid, Uid.Normalize, FindUid, FindUser;
      link, verdict, raised := None, None, false;
      var rq := Request(telegramId, market, provider, oracle, now, invites.ttl, invites.bot.nextLink);
      var uid := Uid.Normalize(rawUid);
      if !Uid.IsValid(uid) { return AnswerInvalidUid, None, None, false; }
      var config := ConfigFor(session.View(), provider, market);
      var channel := ChannelFor(session.View(), market);
      if config == None || channel == None || !config.value.active { return AnswerNotConfigured, None, None, false; }
      var user := FindOrAddUser(telegramId);
      var claimed := FindUid(session.accounts, provider, uid);
      if claimed.Some? && session.accounts[claimed.value].user != user { return AnswerClaimed, None, None, false; }
      answer, link, verdict, raised := JudgeUid(user, uid, config.value, channel.value, rq);
    }
  }
}
