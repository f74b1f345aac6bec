/** The chat service and the webhook around it, as the program has them. */
module Chat {
  import opened Types
  import opened Rows
  import opened Onboarding
  import opened Runs
  import opened Sessions
  import opened Services
  import opened Conversation
  import Uid

  class BotConversation {
    const session: Session
    const onboarding: ReferralOnboardingService
    const provider: Provider

    constructor (session: Session, onboarding: ReferralOnboardingService)
      ensures this.session == session && this.onboarding == onboarding && provider == onboarding.provider
    {
      this.session, this.onboarding, provider := session, onboarding, onboarding.provider;
    }

    /** One session, one provider throughout. */
    ghost predicate Assembled()
    {
      onboarding.session == session && onboarding.invites.session == session && onboarding.provider == provider
    }

    ghost function World(now: Time): World
      reads onboarding.invites.bot
    {
      Conversation.World(provider, onboarding.oracle, now, onboarding.invites.ttl, onboarding.invites.bot.nextLink)
    }

    /** Both switches: a programme without a channel is a dead end two steps later. */
    method AvailableMarkets() returns (markets: seq<Market>)
      ensures markets == Ready(session.View(), provider)
    {
      markets := [];
      var m := Crypto;
      var config := ConfigFor(session.View(), provider, m);
      if config.Some? && config.value.active && ChannelFor(session.View(), m).Some? { markets := markets + [m]; }
      m := Forex;
      config := ConfigFor(session.View(), provider, m);
      if config.Some? && config.value.active && ChannelFor(session.View(), m).Some? { markets := markets + [m]; }
    }

    method FindOrAddUser(telegramId: int) returns (user: nat)
      modifies session`users
      ensures var (next, id) := EnsureUser(old(session.View()), telegramId); session.users == next.users && user == id
    {
      var found := FindUser(session.users, telegramId);
      if found.Some? {
        user := found.value;
      } else {
        user := |session.users|;
        session.users := session.users + [User(telegramId, None)];
      }
    }

    method OfferReferralLink(up: Update, market: Market) returns (reply: Reply)
      modifies session`users
      ensures var r := Offer(old(session.View()), up, provider, market);
              session.View() == r.db && reply == r.reply && r.effects == []
    {
      var config := ConfigFor(session.View(), provider, market);
      if config == None || !config.value.active { return NotConfiguredReply; }
      var user := FindOrAddUser(up.userId);
      var row := session.users[user];
      session.users := session.users[user := row.(pendingMarket := Some(market))];
      reply := Welcome(up.firstName, market, config.value.referralLink);
    }

    method Begin(up: Update) returns (reply: Reply)
      modifies session`users
      ensures var r := Start(old(session.View()), up, provider);
              session.View() == r.db && reply == r.reply && r.effects == []
    {
      var markets := AvailableMarkets();
      if markets == [] { return NotConfiguredReply; }
      if |markets| == 1 {
        reply := OfferReferralLink(up, markets[0]);
      } else {
        reply := ChooseMarket(markets);
      }
    }

    method TakeUid(up: Update, text: string, now: Time) returns (reply: Reply, raised: bool)
      requires Assembled()
      modifies session`users, session`accounts, session`subscriptions, session`memberships, onboarding.invites.bot
      ensures var r := HandleUid(old(session.View()), up, old(World(now)), text);
              var bot := onboarding.invites.bot;
              && (raised <==> |r.effects| > old(bot.serves))
              && bot.log == old(bot.log) + Delivered(r.effects, old(bot.serves))
              && (!raised ==> session.View() == r.db && reply == r.reply)
    {
      hide Submit, Uid.IsValid, Uid.Normalize, FindUser, IsReady, Start;
      raised := false;
      var uid := Uid.Normalize(text);
      if !Uid.IsValid(uid) { return InvalidUidReply, false; }
      var user := FindUser(session.users, up.userId);
      var market := if user.Some? then session.users[user.value].pendingMarket else None;
      if market == None {
        var available := AvailableMarkets();
        if |available| != 1 {
          reply := Begin(up);
          return;
        }
        market := Some(available[0]);
      }
      var config := ConfigFor(session.View(), provider, market.value);
      var referralLink := if config.Some? then config.value.referralLink else "";
      var answer, link, verdict;
      answer, link, verdict, raised := onboarding.SubmitUid(up.userId, market.value, uid, now);
      reply := Render(answer, link, verdict, referralLink);
    }

    method Handle(up: Update, now: Time) returns (reply: Reply, raised: bool)
      requires Assembled()
      modifies session`users, session`accounts, session`subscriptions, session`memberships, onboarding.invites.bot
      ensures var r := Respond(old(session.View()), up, old(World(now)));
              var bot := onboarding.invites.bot;
              && (raised <==> |r.effects| > old(bot.serves))
              && bot.log == old(bot.log) + Delivered(r.effects, old(bot.serves))
              && (!raised ==> session.View() == r.db && reply == r.reply)
    {
      hide HandleUid, Start, Uid.Normalize, AllDigits, Strip, EnsureUser;
      raised := false;
      if up.callback != "" && StartsWith(up.callback, PREFIX) {
        var market := MarketNamed(up.callback[|PREFIX|..]);
        if market == None { return NotConfiguredReply, false; }
        reply := OfferReferralLink(up, market.value);
        return;
      }
      var text := Strip(up.text);
      if StartsWith(text, "/start") {
        reply := Begin(up);
        return;
      }
      if text != "" && AllDigits(Uid.Normalize(text)) {
        reply, raised := TakeUid(up, text, now);
        return;
      }
      reply := AskForUid;
    }

    /** The webhook: commit what the chat did, or roll it back and apologise. */
    method ReceiveUpdate(up: Update, now: Time) returns (reply: Reply)
      requires Assembled() && !session.broken && session.View() == session.saved
      modifies session, onboarding.invites.bot
      ensures session.saved == Conversation.Apply(old(session.saved),
                Say(up, old(World(now)), old(onboarding.invites.bot.serves)))
      ensures session.View() == session.saved && !session.broken
      ensures var r := Respond(old(session.saved), up, old(World(now)));
              if |r.effects| <= old(onboarding.invites.bot.serves) then session.saved == r.db && reply == r.reply
              else session.saved == old(session.saved) && reply == UnavailableReply
    {
      hide Respond;
      var raised;
      reply, raised := Handle(up, now);
      if raised {
        session.Rollback();
        reply := UnavailableReply;
      } else {
        session.Commit();
      }
    }
  }
}
