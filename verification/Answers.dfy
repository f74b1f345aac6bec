/** What a submission answers and records, in terms of the tables before it and of
    the provider's own answer. */
module Answers {
  import opened Types
  import opened Eligibility
  import opened Rows
  import opened Lifecycle
  import opened Onboarding
  import opened Admissions
  import Uid

  /** The sender's user id: the first row with the Telegram id, or the next free one. */
  ghost predicate SenderAt(db: Db, telegramId: int, i: nat) {
    && i <= |db.users| && (i < |db.users| ==> db.users[i].telegramId == telegramId)
    && forall k | 0 <= k < i :: db.users[k].telegramId != telegramId
  }

  /** The first account of this uid at the provider. */
  ghost predicate AccountAt(accounts: seq<Account>, provider: Provider, uid: string, j: nat) {
    && j < |accounts| && accounts[j].provider == provider && accounts[j].uid == uid
    && forall k | 0 <= k < j :: accounts[k].provider != provider || accounts[k].uid != uid
  }

  /** The first membership of this user in the channel. */
  ghost predicate MembershipAt(rows: seq<Membership>, user: nat, channel: nat, x: nat) {
    && x < |rows| && rows[x].user == user && rows[x].channel == channel
    && forall k | 0 <= k < x :: rows[k].user != user || rows[k].channel != channel
  }

  ghost predicate Configured(db: Db, rq: Request) {
    && (rq.provider, rq.market) in db.configs && db.configs[(rq.provider, rq.market)].active
    && rq.market in db.channels && db.channels[rq.market].active
  }

  ghost predicate HeldByAnother(db: Db, rq: Request, uid: string) {
    exists j: nat, i: nat :: AccountAt(db.accounts, rq.provider, uid, j) && SenderAt(db, rq.telegramId, i)
      && db.accounts[j].user != i
  }

  /** The provider gets asked. */
  ghost predicate Asks(db: Db, rq: Request, uid: string) {
    Uid.NineDigits(uid) && Configured(db, rq) && !HeldByAnother(db, rq, uid)
  }

  ghost predicate WasActive(db: Db, rq: Request)
    requires rq.market in db.channels
  {
    exists x: nat, i: nat ::
      SenderAt(db, rq.telegramId, i) && MembershipAt(db.memberships, i, db.channels[rq.market].id, x)
      && db.memberships[x].status == Active
  }

  lemma {:induction false} FirstUser(users: seq<User>, telegramId: int)
    ensures var f := FindUser(users, telegramId);
            f.Some? ==> forall k | 0 <= k < f.value :: users[k].telegramId != telegramId
  {
    if users != [] { FirstUser(users[..|users| - 1], telegramId); }
  }

  lemma {:induction false} FirstMembership(rows: seq<Membership>, user: nat, channel: nat)
    ensures var f := FindMembership(rows, user, channel);
            f.Some? ==> forall k | 0 <= k < f.value :: rows[k].user != user || rows[k].channel != channel
  {
    if rows != [] { FirstMembership(rows[..|rows| - 1], user, channel); }
  }

  lemma SenderFound(db: Db, telegramId: int, i: nat)
    ensures SenderAt(db, telegramId, i) <==> EnsureUser(db, telegramId).1 == i
  {
    FirstUser(db.users, telegramId);
  }

  lemma AccountFound(accounts: seq<Account>, provider: Provider, uid: string, j: nat)
    ensures AccountAt(accounts, provider, uid, j) <==> FindUid(accounts, provider, uid) == Some(j)
  {
    var f := FindUid(accounts, provider, uid);
    if f.Some? && AccountAt(accounts, provider, uid, j) { assert !(j < f.value) && !(f.value < j); }
  }

  lemma MembershipFound(rows: seq<Membership>, user: nat, channel: nat, x: nat)
    ensures MembershipAt(rows, user, channel, x) <==> FindMembership(rows, user, channel) == Some(x)
  {
    FirstMembership(rows, user, channel);
    var f := FindMembership(rows, user, channel);
    if f.Some? && MembershipAt(rows, user, channel, x) { assert !(x < f.value) && !(f.value < x); }
  }

  lemma HeldFound(db: Db, rq: Request, uid: string)
    ensures var j := FindUid(db.accounts, rq.provider, uid);
            HeldByAnother(db, rq, uid) <==>
              j.Some? && db.accounts[j.value].user != EnsureUser(db, rq.telegramId).1
  {
    hide EnsureUser;
    var j, user := FindUid(db.accounts, rq.provider, uid), EnsureUser(db, rq.telegramId).1;
    SenderFound(db, rq.telegramId, user);
    if j.Some? { AccountFound(db.accounts, rq.provider, uid, j.value); }
    forall k: nat, i: nat | AccountAt(db.accounts, rq.provider, uid, k) && SenderAt(db, rq.telegramId, i)
      ensures j == Some(k) && i == user
    {
      AccountFound(db.accounts, rq.provider, uid, k);
      SenderFound(db, rq.telegramId, i);
    }
  }

  lemma ActiveFound(db: Db, rq: Request)
    requires rq.market in db.channels
    ensures var x := FindMembership(db.memberships, EnsureUser(db, rq.telegramId).1, db.channels[rq.market].id);
            WasActive(db, rq) <==> x.Some? && db.memberships[x.value].status == Active
  {
    hide EnsureUser;
    var user, channel := EnsureUser(db, rq.telegramId).1, db.channels[rq.market].id;
    var x := FindMembership(db.memberships, user, channel);
    SenderFound(db, rq.telegramId, user);
    if x.Some? { MembershipFound(db.memberships, user, channel, x.value); }
    forall k: nat, i: nat | SenderAt(db, rq.telegramId, i) && MembershipAt(db.memberships, i, channel, k)
      ensures x == Some(k)
    {
      SenderFound(db, rq.telegramId, i);
      MembershipFound(db.memberships, i, channel, k);
    }
  }

  /** From the provider's answer on. */
  lemma JudgeAnswers(db: Db, user: nat, uid: string, config: Config, channel: Channel, rq: Request)
    ensures var a := Judge(db, user, uid, config, channel, rq).answer;
            var x := FindMembership(db.memberships, user, channel.id);
            a == if uid !in rq.oracle then AnswerUnavailable
                 else if !rq.oracle[uid].registered then AnswerNotRegistered
                 else if rq.oracle[uid].deposit < config.rules.minimumBalance then AnswerInsufficient
                 else if x.Some? && db.memberships[x.value].status == Active then AnswerAlreadyMember
                 else AnswerInvited
  {
    hide FindUid, FindMembership, FirstSubscription, Issued;
  }

  /** Each of the eight answers comes exactly in its case. */
  lemma AnswerIff(db: Db, raw: string, rq: Request)
    ensures var answer, uid := Submit(db, raw, rq).answer, Uid.Normalize(raw);
            && (answer == AnswerInvalidUid <==> !Uid.NineDigits(uid))
            && (answer == AnswerNotConfigured <==> Uid.NineDigits(uid) && !Configured(db, rq))
            && (answer == AnswerClaimed <==> Uid.NineDigits(uid) && Configured(db, rq) && HeldByAnother(db, rq, uid))
            && (answer == AnswerUnavailable <==> Asks(db, rq, uid) && uid !in rq.oracle)
            && (answer == AnswerNotRegistered <==>
                  Asks(db, rq, uid) && uid in rq.oracle && !rq.oracle[uid].registered)
            && (answer == AnswerInsufficient <==>
                  Asks(db, rq, uid) && uid in rq.oracle && rq.oracle[uid].registered
                  && rq.oracle[uid].deposit < db.configs[(rq.provider, rq.market)].rules.minimumBalance)
            && (answer == AnswerAlreadyMember <==>
                  Asks(db, rq, uid) && uid in rq.oracle
                  && Qualifies(rq.oracle[uid], db.configs[(rq.provider, rq.market)].rules) && WasActive(db, rq))
            && (answer == AnswerInvited <==>
                  Asks(db, rq, uid) && uid in rq.oracle
                  && Qualifies(rq.oracle[uid], db.configs[(rq.provider, rq.market)].rules) && !WasActive(db, rq))
  {
    hide Uid.IsValid, Uid.Normalize, Uid.NineDigits, Judge, HeldByAnother, WasActive, EnsureUser, FindUid;
    var uid := Uid.Normalize(raw);
    Uid.ValidNormalized(raw);
    HeldFound(db, rq, uid);
    if Configured(db, rq) {
      var (db1, user) := EnsureUser(db, rq.telegramId);
      ActiveFound(db, rq);
      JudgeAnswers(db1, user, uid, db.configs[(rq.provider, rq.market)], db.channels[rq.market], rq);
    }
  }

  // What a submission records.

  /** The account row as a submission found it: the first of its uid, or a blank one
      of the sender. */
  ghost predicate AccountBefore(db: Db, rq: Request, uid: string, j: nat, row: Account) {
    if j < |db.accounts| then row == db.accounts[j]
    else
      j == |db.accounts| && SenderAt(db, rq.telegramId, row.user)
      && row == Account(row.user, rq.provider, rq.market, uid, Unverified, VerificationPending, None, None, None, None)
  }

  /** The columns the answer decides; every other column keeps what it held. */
  ghost predicate TellsAnswer(before: Account, after: Account, answer: Option<Check>, rules: Rules, now: Time) {
    if answer == None then
      after == before.(status := Unverified, compliance := Unavailable, lastChecked := Some(now))
    else
      var c := answer.value;
      var told := before.(lastChecked := Some(now), balance := Some(c.deposit));
      if !c.registered then
        after == told.(status := Rejected, compliance := NonCompliant, rejection := Some(NotRegistered))
      else if c.deposit < rules.minimumBalance then
        after == told.(status := Rejected, compliance := NonCompliant, rejection := Some(InsufficientBalance))
      else
        after == told.(status := Verified, compliance := Compliant, rejection := None, verifiedAt := Some(now))
  }

  /** Row `j` is judged, and no other account changes. */
  ghost predicate OneJudged(db: Db, next: Db, rq: Request, uid: string, j: nat, rules: Rules) {
    && |next.accounts| == (if j < |db.accounts| then |db.accounts| else |db.accounts| + 1)
    && AccountAt(next.accounts, rq.provider, uid, j)
    && (forall k | 0 <= k < |db.accounts| && k != j :: next.accounts[k] == db.accounts[k])
    && exists row ::
         AccountBefore(db, rq, uid, j, row)
         && TellsAnswer(row, next.accounts[j], if uid in rq.oracle then Some(rq.oracle[uid]) else None, rules, rq.now)
  }

  lemma JudgedTells(before: Account, answer: Option<Check>, rules: Rules, now: Time)
    ensures TellsAnswer(before, JudgedAccount(before, answer, Evaluate(answer, rules, false), now), answer, rules, now)
  {
  }

  lemma JudgeRecords(db: Db, user: nat, uid: string, config: Config, channel: Channel, rq: Request)
    requires SenderAt(db, rq.telegramId, user)
    ensures var found := FindUid(db.accounts, rq.provider, uid);
            var j := if found.Some? then found.value else |db.accounts|;
            OneJudged(db, Judge(db, user, uid, config, channel, rq).db, rq, uid, j, config.rules)
  {
    hide Admit, JudgedAccount, FindUid, SenderAt, TellsAnswer;
    var s := Judge(db, user, uid, config, channel, rq);
    var (db1, j) := AccountFor(db, user, rq, uid);
    var v := Evaluate(SignUpCheck(rq, uid), config.rules, false);
    AdmitFrame(db1.(accounts := db1.accounts[j := JudgedAccount(db1.accounts[j], SignUpCheck(rq, uid), v, rq.now)]),
        user, channel, rq);
    JudgedTells(db1.accounts[j], SignUpCheck(rq, uid), config.rules, rq.now);
    TellingKeepsOwner(db1.accounts[j], s.db.accounts[j], SignUpCheck(rq, uid), config.rules, rq.now);
    assert AccountBefore(db, rq, uid, j, db1.accounts[j]);
  }

  lemma TellingKeepsOwner(before: Account, after: Account, answer: Option<Check>, rules: Rules, now: Time)
    requires TellsAnswer(before, after, answer, rules, now)
    ensures after.user == before.user && after.provider == before.provider && after.uid == before.uid
  {
  }

  /** The first subscription of this user and market. */
  ghost predicate SubscriptionAt(subs: seq<Subscription>, user: nat, market: Market, k: nat) {
    && k < |subs| && subs[k].user == user && subs[k].market == market
    && forall i | 0 <= i < k :: subs[i].user != user || subs[i].market != market
  }

  /** Revived in place, its start and end kept, or added. */
  ghost predicate Entitled(before: seq<Subscription>, after: seq<Subscription>, user: nat, rq: Request, k: nat) {
    if k < |before| then
      && SubscriptionAt(before, user, rq.market, k)
      && var start := if before[k].startsAt.Some? then before[k].startsAt else Some(rq.now);
         after == before[k := Subscription(user, rq.market, SubActive, start, before[k].endsAt)]
    else
      && k == |before| && (forall i :: !SubscriptionAt(before, user, rq.market, i))
      && after == before + [Subscription(user, rq.market, SubActive, Some(rq.now), None)]
  }

  /** A link handed out before can be handed out again. */
  predicate StillGood(m: Membership, now: Time, ttl: Time) {
    && (m.status == Invited || m.status == Active) && m.link.Some? && m.link.value != ""
    && m.issuedAt.Some? && now < m.issuedAt.value + ttl
  }

  /** The admitted member's row: on the subscription, with a good link; a removed or
      expired one starts clean, and only an ACTIVE one does not become INVITED. */
  ghost predicate LetIn(before: Membership, after: Membership, sub: nat, rq: Request) {
    var clean := if before.status == Revoked || before.status == Expired
      then before.(revokedAt := None, revocationReason := None, warnings := 0, lastWarning := None) else before;
    if StillGood(before, rq.now, rq.ttl) then after == clean.(subscription := sub)
    else
      after == clean.(subscription := sub, link := Some(rq.minted), issuedAt := Some(rq.now),
                      status := if before.status == Active then Active else Invited)
  }

  /** The row as the admission found it, or a blank one. */
  ghost predicate RowBefore(before: seq<Membership>, user: nat, channel: nat, sub: nat, now: Time, x: nat,
      row: Membership) {
    if x < |before| then MembershipAt(before, user, channel, x) && row == before[x]
    else
      && x == |before| && (forall i :: !MembershipAt(before, user, channel, i))
      && row == Membership(user, channel, sub, Pending, None, None, now, None, None, None, 0, None)
  }

  /** Row `x` is let in on subscription `k`, no other membership changes, and Telegram
      is asked for a link only if there is no good one. */
  ghost predicate OneLetIn(db: Db, s: Submission, user: nat, channel: Channel, rq: Request, k: nat, x: nat) {
    && Entitled(db.subscriptions, s.db.subscriptions, user, rq, k)
    && |s.db.memberships| == (if x < |db.memberships| then |db.memberships| else |db.memberships| + 1)
    && x < |s.db.memberships| && s.link == s.db.memberships[x].link
    && (forall i | 0 <= i < |db.memberships| && i != x :: s.db.memberships[i] == db.memberships[i])
    && exists row ::
         RowBefore(db.memberships, user, channel.id, k, rq.now, x, row)
         && LetIn(row, s.db.memberships[x], k, rq)
         && s.effects == if StillGood(row, rq.now, rq.ttl) then [] else [Mint(channel.chat, rq.now + rq.ttl)]
  }

  lemma SubscriptionFound(subs: seq<Subscription>, user: nat, market: Market)
    ensures var f := FirstSubscription(subs, user, market);
            if f.Some? then SubscriptionAt(subs, user, market, f.value)
            else forall i :: !SubscriptionAt(subs, user, market, i)
  {
  }

  lemma IssuedLetsIn(row: Membership, sub: nat, rq: Request)
    ensures LetIn(row, Issued(Readmitted(row, sub), rq.now, rq.ttl, rq.minted), sub, rq)
    ensures StillGood(row, rq.now, rq.ttl) <==> LiveLink(Readmitted(row, sub), rq.now, rq.ttl).Some?
    ensures Readmitted(row, sub).status == Active <==> row.status == Active
  {
  }

  lemma AdmitLetsIn(db: Db, user: nat, channel: Channel, rq: Request)
    ensures exists k, x :: OneLetIn(db, Admit(db, user, channel, rq), user, channel, rq, k, x)
  {
    hide Issued, Readmitted, LiveLink, FindMembership, FirstSubscription, LetIn, StillGood, MembershipAt,
        SubscriptionAt;
    var s := Admit(db, user, channel, rq);
    var (db1, k) := EnsureSubscription(db, user, rq.market, rq.now);
    var found := FindMembership(db.memberships, user, channel.id);
    var x := if found.Some? then found.value else |db.memberships|;
    var row := if found.Some? then db.memberships[x] else NewMembership(user, channel.id, k, rq.now);
    SubscriptionFound(db.subscriptions, user, rq.market);
    forall i: nat ensures MembershipAt(db.memberships, user, channel.id, i) <==> found == Some(i) {
      MembershipFound(db.memberships, user, channel.id, i);
    }
    IssuedLetsIn(row, k, rq);
    if found == None { NewIsReadmitted(row, k); }
    assert s.db.memberships[x] == Issued(Readmitted(row, k), rq.now, rq.ttl, rq.minted);
    assert OneLetIn(db, s, user, channel, rq, k, x);
  }

  lemma NewIsReadmitted(row: Membership, sub: nat)
    requires row.status == Pending && row.subscription == sub
    ensures Readmitted(row, sub) == row
  {
  }

  /** The users with the sender among them; only a sender not seen before is added. */
  ghost predicate SenderKnown(db: Db, users: seq<User>, telegramId: int, i: nat) {
    SenderAt(db, telegramId, i) && users == if i < |db.users| then db.users else db.users + [User(telegramId, None)]
  }

  lemma SenderEnsured(db: Db, telegramId: int)
    ensures SenderKnown(db, EnsureUser(db, telegramId).0.users, telegramId, EnsureUser(db, telegramId).1)
  {
    SenderFound(db, telegramId, EnsureUser(db, telegramId).1);
  }

  /** A submission turned away before the provider is asked records nothing beyond
      its sender, and that only once the market is set up. */
  lemma TurnedAwayRecordsNothing(db: Db, raw: string, rq: Request)
    requires !Asks(db, rq, Uid.Normalize(raw))
    ensures var s := Submit(db, raw, rq);
            && s.effects == [] && s.link == None && s.verdict == None && s.db == db.(users := s.db.users)
            && if Uid.NineDigits(Uid.Normalize(raw)) && Configured(db, rq)
                 then exists i :: SenderKnown(db, s.db.users, rq.telegramId, i)
               else s.db.users == db.users
  {
    hide Uid.IsValid, Uid.Normalize, Uid.NineDigits, Judge, HeldByAnother, EnsureUser, FindUid, SenderKnown;
    Uid.ValidNormalized(raw);
    HeldFound(db, rq, Uid.Normalize(raw));
    SenderEnsured(db, rq.telegramId);
  }

  lemma JudgeShows(db: Db, user: nat, uid: string, config: Config, channel: Channel, rq: Request)
    ensures var s := Judge(db, user, uid, config, channel, rq);
            && s.verdict == Some(Evaluate(SignUpCheck(rq, uid), config.rules, false))
            && s.db == db.(accounts := s.db.accounts, subscriptions := s.db.subscriptions,
                           memberships := s.db.memberships)
            && if s.answer == AnswerInvited || s.answer == AnswerAlreadyMember
                 then exists k, x :: OneLetIn(db, s, user, channel, rq, k, x)
               else s.effects == [] && s.link == None && s.db.subscriptions == db.subscriptions
                    && s.db.memberships == db.memberships
  {
    hide Admit, JudgedAccount, FindUid, Evaluate, OneLetIn;
    var v := Evaluate(SignUpCheck(rq, uid), config.rules, false);
    var (db1, j) := AccountFor(db, user, rq, uid);
    var judged := db1.(accounts := db1.accounts[j := JudgedAccount(db1.accounts[j], SignUpCheck(rq, uid), v, rq.now)]);
    AdmitLetsIn(judged, user, channel, rq);
    AdmitKeepsRest(judged, user, channel, rq);
    var k, x :| OneLetIn(judged, Admit(judged, user, channel, rq), user, channel, rq, k, x);
    var admitted := Admit(judged, user, channel, rq);
    LetInAlike(judged, db, admitted, admitted.(verdict := Some(v)), user, channel, rq, k, x);
  }

  lemma AdmitKeepsRest(db: Db, user: nat, channel: Channel, rq: Request)
    ensures var s := Admit(db, user, channel, rq);
            && (s.answer == AnswerInvited || s.answer == AnswerAlreadyMember)
            && s.db == db.(subscriptions := s.db.subscriptions, memberships := s.db.memberships)
  {
    hide Issued, Readmitted;
  }

  lemma LetInAlike(a: Db, b: Db, s: Submission, t: Submission, user: nat, channel: Channel, rq: Request, k: nat, x: nat)
    requires OneLetIn(a, s, user, channel, rq, k, x) && t == s.(verdict := t.verdict)
    requires a.subscriptions == b.subscriptions && a.memberships == b.memberships
    ensures OneLetIn(b, t, user, channel, rq, k, x)
  {
    hide LetIn, RowBefore, Entitled;
  }

  /** Once the provider is asked: exactly the account of the uid is judged, on the
      answer; the verdict handed back is that of the answer; and the sender is let in
      if the answer suffices, otherwise no entitlement and no membership moves. */
  lemma AskingRecords(db: Db, raw: string, rq: Request)
    requires Asks(db, rq, Uid.Normalize(raw))
    ensures var s, uid := Submit(db, raw, rq), Uid.Normalize(raw);
            var rules := db.configs[(rq.provider, rq.market)].rules;
            && s.verdict == Some(Evaluate(if uid in rq.oracle then Some(rq.oracle[uid]) else None, rules, false))
            && (exists j :: OneJudged(db, s.db, rq, uid, j, rules))
            && (exists i :: SenderKnown(db, s.db.users, rq.telegramId, i)
                  && if uid in rq.oracle && Qualifies(rq.oracle[uid], rules)
                       then exists k, x :: OneLetIn(db, s, i, db.channels[rq.market], rq, k, x)
                     else s.effects == [] && s.link == None && s.db.subscriptions == db.subscriptions
                          && s.db.memberships == db.memberships)
            && s.db.snapshots == db.snapshots && s.db.jobs == db.jobs && s.db.configs == db.configs
            && s.db.channels == db.channels
  {
    hide Uid.IsValid, Uid.Normalize, Uid.NineDigits, Judge, HeldByAnother, WasActive, EnsureUser, FindUid, SenderKnown,
        OneLetIn, OneJudged, SenderAt;
    var s, uid := Submit(db, raw, rq), Uid.Normalize(raw);
    var (db1, user) := EnsureUser(db, rq.telegramId);
    var config, channel := db.configs[(rq.provider, rq.market)], db.channels[rq.market];
    Uid.ValidNormalized(raw);
    HeldFound(db, rq, uid);
    SenderEnsured(db, rq.telegramId);
    SenderStays(db, rq.telegramId);
    assert s == Judge(db1, user, uid, config, channel, rq);
    JudgeRecords(db1, user, uid, config, channel, rq);
    JudgeShows(db1, user, uid, config, channel, rq);
    JudgeAnswers(db1, user, uid, config, channel, rq);
    hide Submit;
    var j :| OneJudged(db1, s.db, rq, uid, j, config.rules);
    JudgedAlike(db1, db, s.db, rq, uid, j, config.rules);
    if uid in rq.oracle && Qualifies(rq.oracle[uid], config.rules) {
      var k, x :| OneLetIn(db1, s, user, channel, rq, k, x);
      LetInAlike(db1, db, s, s, user, channel, rq, k, x);
    }
  }

  lemma SenderStays(db: Db, telegramId: int)
    ensures var (next, user) := EnsureUser(db, telegramId);
            && SenderAt(next, telegramId, user)
            && forall i :: SenderAt(next, telegramId, i) ==> SenderAt(db, telegramId, i)
  {
    var (next, user) := EnsureUser(db, telegramId);
    SenderFound(db, telegramId, user);
  }

  lemma JudgedAlike(a: Db, b: Db, next: Db, rq: Request, uid: string, j: nat, rules: Rules)
    requires OneJudged(a, next, rq, uid, j, rules) && a.accounts == b.accounts
    requires forall i :: SenderAt(a, rq.telegramId, i) ==> SenderAt(b, rq.telegramId, i)
    ensures OneJudged(b, next, rq, uid, j, rules)
  {
    hide TellsAnswer, SenderAt, AccountAt;
    var answer := if uid in rq.oracle then Some(rq.oracle[uid]) else None;
    var row :| AccountBefore(a, rq, uid, j, row) && TellsAnswer(row, next.accounts[j], answer, rules, rq.now);
    assert AccountBefore(b, rq, uid, j, row);
  }
}
