/** What each reply of the chat says, in terms of the tables, the provider's answer
    and what the person sent. */
module Replies {
  import opened Types
  import opened Eligibility
  import opened Rows
  import opened Onboarding
  import opened Admissions
  import opened Answers
  import opened Conversation
  import Uid

  // A UID that reaches onboarding.

  /** The figure shown for an amount: whole cents, never less, under a cent more. */
  predicate ShownFor(shown: Amount, amount: Amount) {
    shown % CENT == 0 && amount <= shown < amount + CENT
  }

  /** The three figures of the refusal: what is asked, what is there, what to add. */
  predicate ShowsGap(reply: Reply, c: Check, rules: Rules) {
    && reply.InsufficientReply?
    && ShownFor(reply.minimum, rules.minimumBalance) && ShownFor(reply.balance, c.deposit)
    && ShownFor(reply.shortfall, rules.minimumBalance - c.deposit)
    && Qualifies(c.(deposit := c.deposit + reply.shortfall), rules)
  }

  /** The link in the reply is the one now on the sender's row for the channel. */
  ghost predicate CarriesLink(db: Db, next: Db, telegramId: int, channel: nat, link: Option<string>) {
    link.Some?
    && exists i: nat, x: nat ::
         SenderAt(db, telegramId, i) && MembershipAt(next.memberships, i, channel, x)
         && link == next.memberships[x].link
  }

  lemma FormattedIsShown(value: Amount)
    ensures ShownFor(FormatAmount(value, CENT), value)
  {
    CeilingBounds(value, CENT);
    assert (-((-value) / CENT) * CENT) % CENT == 0;
  }

  /** The message the eight answers turn into, with what they carry. */
  lemma RefusalShowsGap(c: Check, rules: Rules, link: Option<string>, referral: string)
    requires c.registered && c.deposit < rules.minimumBalance
    ensures ShowsGap(Render(AnswerInsufficient, link, Some(Evaluate(Some(c), rules, false)), referral), c, rules)
  {
    FormattedIsShown(rules.minimumBalance);
    FormattedIsShown(c.deposit);
    FormattedIsShown(rules.minimumBalance - c.deposit);
  }

  /** An admission's link is the one on the sender's row. */
  lemma LetInCarriesLink(db: Db, s: Submission, telegramId: int, user: nat, channel: Channel, rq: Request, k: nat,
      x: nat)
    requires SenderAt(db, telegramId, user) && OneLetIn(db, s, user, channel, rq, k, x)
    ensures CarriesLink(db, s.db, telegramId, channel.id, s.link)
  {
    hide Entitled;
    var row :| RowBefore(db.memberships, user, channel.id, k, rq.now, x, row)
        && LetIn(row, s.db.memberships[x], k, rq)
        && s.effects == if StillGood(row, rq.now, rq.ttl) then [] else [Mint(channel.chat, rq.now + rq.ttl)];
    var rows := s.db.memberships;
    assert rows[x].user == user && rows[x].channel == channel.id && rows[x].link.Some?;
    if x == |db.memberships| { NoneBefore(db.memberships, user, channel.id); }
    assert MembershipAt(rows, user, channel.id, x);
  }

  lemma NoneBefore(rows: seq<Membership>, user: nat, channel: nat)
    requires forall i :: !MembershipAt(rows, user, channel, i)
    ensures forall i | 0 <= i < |rows| :: rows[i].user != user || rows[i].channel != channel
  {
    var f := FindMembership(rows, user, channel);
    if f.Some? {
      MembershipFound(rows, user, channel, f.value);
      assert false;
    }
  }

  /** How `reply` answers a UID for `rq`, case by case; `next` are the tables after. */
  ghost predicate AnswersUid(db: Db, next: Db, rq: Request, uid: string, reply: Reply) {
    var key := (rq.provider, rq.market);
    && (reply.NotConfiguredReply? <==> !Configured(db, rq))
    && (reply.ClaimedReply? <==> Configured(db, rq) && HeldByAnother(db, rq, uid))
    && (reply.UnavailableReply? <==> Asks(db, rq, uid) && uid !in rq.oracle)
    && (reply.NotRegisteredReply? <==> Asks(db, rq, uid) && uid in rq.oracle && !rq.oracle[uid].registered)
    && (reply.InsufficientReply? <==>
          Asks(db, rq, uid) && uid in rq.oracle && rq.oracle[uid].registered
          && rq.oracle[uid].deposit < db.configs[key].rules.minimumBalance)
    && (reply.AlreadyMemberReply? <==>
          Asks(db, rq, uid) && uid in rq.oracle && Qualifies(rq.oracle[uid], db.configs[key].rules)
          && WasActive(db, rq))
    && (reply.InvitedReply? <==>
          Asks(db, rq, uid) && uid in rq.oracle && Qualifies(rq.oracle[uid], db.configs[key].rules)
          && !WasActive(db, rq))
    && (reply.NotRegisteredReply? ==> reply.referralLink == db.configs[key].referralLink)
    && (reply.InsufficientReply? ==> ShowsGap(reply, rq.oracle[uid], db.configs[key].rules))
    && (reply.AlreadyMemberReply? || reply.InvitedReply? ==>
          CarriesLink(db, next, rq.telegramId, db.channels[rq.market].id, reply.invite))
  }

  lemma RenderAnswersUid(db: Db, uid: string, rq: Request)
    requires Uid.NineDigits(uid) && Uid.Normalize(uid) == uid
    ensures var s, key := Submit(db, uid, rq), (rq.provider, rq.market);
            AnswersUid(db, s.db, rq, uid,
              Render(s.answer, s.link, s.verdict, if key in db.configs then db.configs[key].referralLink else ""))
  {
    hide Uid.Normalize, Uid.NineDigits, Submit, HeldByAnother, WasActive, SenderKnown, OneLetIn, ShowsGap, CarriesLink,
        Evaluate, SenderAt;
    var s, key := Submit(db, uid, rq), (rq.provider, rq.market);
    AnswerIff(db, uid, rq);
    if Asks(db, rq, uid) {
      AskingRecords(db, uid, rq);
      var rules, channel := db.configs[key].rules, db.channels[rq.market];
      if uid in rq.oracle {
        var c := rq.oracle[uid];
        if Qualifies(c, rules) {
          var i :| SenderKnown(db, s.db.users, rq.telegramId, i)
              && exists k, x :: OneLetIn(db, s, i, channel, rq, k, x);
          var k, x :| OneLetIn(db, s, i, channel, rq, k, x);
          KnownIsSender(db, s.db.users, rq.telegramId, i);
          LetInCarriesLink(db, s, rq.telegramId, i, channel, rq, k, x);
        } else if c.registered {
          RefusalShowsGap(c, rules, s.link, db.configs[key].referralLink);
        }
      }
    }
  }

  lemma KnownIsSender(db: Db, users: seq<User>, telegramId: int, i: nat)
    requires SenderKnown(db, users, telegramId, i)
    ensures SenderAt(db, telegramId, i)
  {
  }

  lemma SubmittedIsOnboarded(db: Db, up: Update, world: World)
    ensures var r := Respond(db, up, world);
            r.submitted.Some? ==>
              var (market, uid) := r.submitted.value;
              r == Onboarded(db, up, world, market, uid) && Uid.IsValid(uid) && uid == Uid.Normalize(Strip(up.text))
  {
    hide Submit, PendingOf, AllDigits, Uid.IsValid, Uid.Normalize, StartsWith, Strip, MarketNamed, Render, Offer, Ready,
        Onboarded;
    forall market, uid
      ensures Onboarded(db, up, world, market, uid).submitted == Some((market, uid))
    {
      OnboardedSubmits(db, up, world, market, uid);
    }
    forall market
      ensures Offer(db, up, world.provider, market).submitted == None
    {
      StartOnlyTalks(db, up, world.provider, market);
    }
  }

  lemma OnboardedSubmits(db: Db, up: Update, world: World, market: Market, uid: string)
    ensures Onboarded(db, up, world, market, uid).submitted == Some((market, uid))
  {
    hide Submit, Render;
  }

  /** A UID handed to onboarding is answered by what is set up, by who holds the uid,
      by what the provider said about it and by what the sender already was; the
      refusals carry the programme's own link and the true gap in whole cents, the
      invitations the link now on the sender's row. */
  lemma UidIsAnswered(db: Db, up: Update, world: World)
    requires Respond(db, up, world).submitted.Some?
    ensures var r := Respond(db, up, world);
            var (market, uid) := r.submitted.value;
            && Uid.NineDigits(uid) && uid == Uid.Normalize(up.text)
            && AnswersUid(db, r.db, RequestFor(up, world, market), uid, r.reply)
  {
    hide Respond, AnswersUid, Submit, Uid.Normalize, Uid.IsValid, Uid.NineDigits, Render, Strip;
    var r := Respond(db, up, world);
    SubmittedIsOnboarded(db, up, world);
    StripKeepsUid(up.text);
    Uid.NormalizeIdempotent(up.text);
    Uid.ValidNormalized(up.text);
    RenderAnswersUid(db, r.submitted.value.1, RequestFor(up, world, r.submitted.value.0));
  }

  // Everything else that may be sent.

  /** Programme and channel are both there and switched on. */
  predicate SetUp(db: Db, provider: Provider, m: Market) {
    && (provider, m) in db.configs && db.configs[(provider, m)].active && m in db.channels && db.channels[m].active
  }

  /** The reply to somebody who is to join `m`: its programme's own link, remembered
      on the sender's row, if the programme is switched on. */
  ghost predicate Offers(db: Db, next: Db, up: Update, provider: Provider, m: Market, reply: Reply) {
    if (provider, m) in db.configs && db.configs[(provider, m)].active then
      && reply == Welcome(up.firstName, m, db.configs[(provider, m)].referralLink)
      && exists i: nat, users: seq<User> ::
           SenderKnown(db, users, up.userId, i) && i < |users|
           && next == db.(users := users[i := users[i].(pendingMarket := Some(m))])
    else reply == NotConfiguredReply && next == db
  }

  /** The reply to a start: the one market's offer, a choice of two, or neither. */
  ghost predicate Greets(db: Db, next: Db, up: Update, provider: Provider, reply: Reply) {
    if SetUp(db, provider, Crypto) && SetUp(db, provider, Forex) then
      reply == ChooseMarket([Crypto, Forex]) && next == db
    else if SetUp(db, provider, Crypto) then Offers(db, next, up, provider, Crypto, reply)
    else if SetUp(db, provider, Forex) then Offers(db, next, up, provider, Forex, reply)
    else reply == NotConfiguredReply && next == db
  }

  lemma OfferOffers(db: Db, up: Update, provider: Provider, m: Market)
    ensures Offers(db, Offer(db, up, provider, m).db, up, provider, m, Offer(db, up, provider, m).reply)
  {
    hide EnsureUser, SenderKnown;
    SenderEnsured(db, up.userId);
  }

  lemma StartGreets(db: Db, up: Update, provider: Provider)
    ensures Greets(db, Start(db, up, provider).db, up, provider, Start(db, up, provider).reply)
  {
    hide Offer, Offers;
    OfferOffers(db, up, provider, Crypto);
    OfferOffers(db, up, provider, Forex);
    assert SetUp(db, provider, Crypto) <==> IsReady(db, provider, Crypto);
    assert SetUp(db, provider, Forex) <==> IsReady(db, provider, Forex);
  }

  /** A button's reply is the offer of the market it names; a button that names none
      gets the answer of a market not set up. */
  lemma ButtonIsAnswered(db: Db, up: Update, world: World, rest: string)
    requires up.callback == "market:" + rest
    ensures var r := Respond(db, up, world);
            if rest == "CRYPTO" then Offers(db, r.db, up, world.provider, Crypto, r.reply)
            else if rest == "FOREX" then Offers(db, r.db, up, world.provider, Forex, r.reply)
            else r.reply == NotConfiguredReply && r.db == db
  {
    hide Offer, Offers, HandleUid, Start, Strip, AllDigits, Uid.Normalize;
    assert up.callback[|PREFIX|..] == rest;
    OfferOffers(db, up, world.provider, Crypto);
    OfferOffers(db, up, world.provider, Forex);
  }

  /** A text without a button: a start is greeted, so is a UID when no market is
      determined; digits that are no UID are refused; anything else is asked for one. */
  lemma TextIsAnswered(db: Db, up: Update, world: World)
    requires !PressesMarket(up) && Respond(db, up, world).submitted.None?
    ensures var r, uid := Respond(db, up, world), Uid.Normalize(up.text);
            if StartsWith(Strip(up.text), "/start") || Uid.NineDigits(uid) then
              Greets(db, r.db, up, world.provider, r.reply)
            else if AllDigits(uid) then r.reply == InvalidUidReply && r.db == db
            else r.reply == AskForUid && r.db == db
  {
    hide Start, Greets, AllDigits, Uid.Normalize, Uid.IsValid, Uid.NineDigits, Onboarded, Strip, StartsWith, PendingOf;
    StripKeepsUid(up.text);
    Uid.ValidNormalized(up.text);
    UidTextsAreRecognised(up.text);
    StartGreets(db, up, world.provider);
    EmptyIsNoUid(Strip(up.text));
    forall market, uid
      ensures Onboarded(db, up, world, market, uid).submitted.Some?
    {
      OnboardedSubmits(db, up, world, market, uid);
    }
  }

  lemma EmptyIsNoUid(text: string)
    ensures text == "" ==> !AllDigits(Uid.Normalize(text))
  {
  }

  /** Digits that are not decimal count as digits too: a superscript two is refused as
      a UID, a letter is asked for one. */
  lemma SuperscriptIsRefused(db: Db, up: Update, world: World)
    requires !PressesMarket(up)
    ensures up.text == "\U{B2}" ==> Respond(db, up, world).reply == InvalidUidReply
    ensures up.text == "x" ==> Respond(db, up, world).reply == AskForUid
  {
    if up.text == "\U{B2}" || up.text == "x" {
      var c := up.text[0];
      assert up.text == [c] && up.text[1..] == [] && Strip(up.text) == up.text;
      Uid.OneCharacter(c);
      assert Uid.Normalize(up.text) == [c];
      hide Uid.Normalize, Strip, Start, HandleUid, Uid.IsDecimal;
      DigitOrNot();
      TwoDigitsAreNoUid(db, up, world, [c]);
    }
  }

  lemma DigitOrNot()
    ensures IsDigit('\U{B2}') && !IsDigit('x')
  {
    assert OTHER_DIGITS[0] == (0xb2, 0xb3);
  }

  lemma TwoDigitsAreNoUid(db: Db, up: Update, world: World, text: string)
    ensures |Uid.Normalize(text)| < 9 ==> HandleUid(db, up, world, text) == Said(db, InvalidUidReply)
  {
    hide Uid.Normalize, Start, Onboarded;
  }
}
