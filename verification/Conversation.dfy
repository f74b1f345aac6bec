/** The chat: which message an update gets, and under which market a UID is
    onboarded. */
module Conversation {
  import opened Types
  import opened Eligibility
  import opened Rows
  import opened Lifecycle
  import opened Onboarding
  import Uid
  import opened PeriodLock
  import opened Sweep
  import opened Runs
  import E = Engine

  /** The parsed fields; an absent one is the empty string, which the program
      treats alike. */
  datatype Update = Update(userId: int, text: string, callback: string, firstName: string)

  /** What answers while the update is handled. */
  datatype World = World(provider: Provider, oracle: map<string, Check>, now: Time, ttl: Time, minted: string)

  datatype Reply =
    | NotConfiguredReply | ChooseMarket(markets: seq<Market>) | AskForUid
    | Welcome(name: string, market: Market, referralLink: string)
    | InvalidUidReply | InvitedReply(invite: Option<string>) | AlreadyMemberReply(invite: Option<string>) | ClaimedReply
    | NotRegisteredReply(referralLink: string) | UnavailableReply
    | InsufficientReply(minimum: Amount, balance: Amount, shortfall: Amount)

  /** `submitted` is the market and UID handed to onboarding, the only place the
      provider is asked. */
  datatype Response = Response(db: Db, reply: Reply, effects: seq<Effect>, submitted: Option<(Market, string)>)

  const PREFIX := "market:"

  /** Two decimal places, in units of 10^-8. */
  const CENT: Amount := 1_000_000

  predicate StartsWith(s: string, prefix: string) {
    prefix <= s
  }

  function MarketNamed(raw: string): Option<Market> {
    if raw == "CRYPTO" then Some(Crypto) else if raw == "FOREX" then Some(Forex) else None
  }

  /** The digits that are not decimal digits: superscripts, subscripts, circled
      and similar. */
  const OTHER_DIGITS: seq<(int, int)> := [
    (0xb2, 0xb3), (0xb9, 0xb9), (0x1369, 0x1371), (0x19da, 0x19da), (0x2070, 0x2070), (0x2074, 0x2079),
        (0x2080, 0x2089),
    (0x2460, 0x2468), (0x2474, 0x247c), (0x2488, 0x2490), (0x24ea, 0x24ea), (0x24f5, 0x24fd), (0x24ff, 0x24ff),
    (0x2776, 0x277e), (0x2780, 0x2788), (0x278a, 0x2792), (0x10a40, 0x10a43), (0x10e60, 0x10e68), (0x11052, 0x1105a),
    (0x1f100, 0x1f10a)]

  predicate IsDigit(c: char) {
    Uid.IsDecimal(c) || exists i | 0 <= i < |OTHER_DIGITS| :: OTHER_DIGITS[i].0 <= c as int <= OTHER_DIGITS[i].1
  }

  predicate AllDigits(s: string) {
    s != "" && forall i | 0 <= i < |s| :: IsDigit(s[i])
  }

  /** A market is ready when programme and channel are both switched on. */
  predicate IsReady(db: Db, provider: Provider, m: Market) {
    && ConfigFor(db, provider, m).Some? && ConfigFor(db, provider, m).value.active
    && ChannelFor(db, m).Some?
  }

  /** The ready markets, in alphabetical order. */
  function Ready(db: Db, provider: Provider): (ms: seq<Market>)
    ensures (Crypto in ms <==> IsReady(db, provider, Crypto)) && (Forex in ms <==> IsReady(db, provider, Forex))
    ensures |ms| == 1 <==> (IsReady(db, provider, Crypto) != IsReady(db, provider, Forex))
  {
    (if IsReady(db, provider, Crypto) then [Crypto] else []) + (if IsReady(db, provider, Forex) then [Forex] else [])
  }

  function Said(db: Db, reply: Reply): Response {
    Response(db, reply, [], None)
  }

  function Offer(db: Db, up: Update, provider: Provider, market: Market): Response {
    var config := ConfigFor(db, provider, market);
    if config == None || !config.value.active then Said(db, NotConfiguredReply)
    else
      var (db1, user) := EnsureUser(db, up.userId);
      Said(db1.(users := db1.users[user := db1.users[user].(pendingMarket := Some(market))]),
           Welcome(up.firstName, market, config.value.referralLink))
  }

  function Start(db: Db, up: Update, provider: Provider): Response {
    var markets := Ready(db, provider);
    if markets == [] then Said(db, NotConfiguredReply)
    else if |markets| == 1 then Offer(db, up, provider, markets[0])
    else Said(db, ChooseMarket(markets))
  }

  function PendingOf(db: Db, telegramId: int): Option<Market> {
    var user := FindUser(db.users, telegramId);
    if user == None then None else db.users[user.value].pendingMarket
  }

  function RequestFor(up: Update, world: World, market: Market): Request {
    Request(up.userId, market, world.provider, world.oracle, world.now, world.ttl, world.minted)
  }

  function Render(answer: Answer, link: Option<string>, verdict: Option<Verdict>, referralLink: string): Reply {
    match answer
    case AnswerInvited => InvitedReply(link)
    case AnswerAlreadyMember => AlreadyMemberReply(link)
    case AnswerInvalidUid => InvalidUidReply
    case AnswerClaimed => ClaimedReply
    case AnswerNotRegistered => NotRegisteredReply(referralLink)
    case AnswerInsufficient =>
      var v := if verdict.Some? then verdict.value else Verdict(InsufficientBalance, NonCompliant, 0, 0);
      InsufficientReply(FormatAmount(v.balance + v.shortfall, CENT), FormatAmount(v.balance, CENT),
          FormatAmount(v.shortfall, CENT))
    case AnswerUnavailable => UnavailableReply
    case AnswerNotConfigured => NotConfiguredReply
  }

  function Onboarded(db: Db, up: Update, world: World, market: Market, uid: string): Response {
    var config := ConfigFor(db, world.provider, market);
    var s := Submit(db, uid, RequestFor(up, world, market));
    Response(s.db, Render(s.answer, s.link, s.verdict, if config.Some? then config.value.referralLink else ""),
        s.effects, Some((market, uid)))
  }

  function HandleUid(db: Db, up: Update, world: World, text: string): Response {
    var uid := Uid.Normalize(text);
    if !Uid.IsValid(uid) then Said(db, InvalidUidReply)
    else
      var pending := PendingOf(db, up.userId);
      var ready := Ready(db, world.provider);
      if pending.Some? then Onboarded(db, up, world, pending.value, uid)
      else if |ready| != 1 then Start(db, up, world.provider)
      else Onboarded(db, up, world, ready[0], uid)
  }

  function Strip(s: string): string {
    Uid.StripRight(Uid.StripLeft(s))
  }

  predicate PressesMarket(up: Update) {
    up.callback != "" && StartsWith(up.callback, PREFIX)
  }

  function Respond(db: Db, up: Update, world: World): Response {
    if PressesMarket(up) then
      var market := MarketNamed(up.callback[|PREFIX|..]);
      if market == None then Said(db, NotConfiguredReply) else Offer(db, up, world.provider, market.value)
    else
      var text := Strip(up.text);
      if StartsWith(text, "/start") then Start(db, up, world.provider)
      else if text != "" && AllDigits(Uid.Normalize(text)) then HandleUid(db, up, world, text)
      else Said(db, AskForUid)
  }

  // Histories of updates, with everything else that happens to the tenant between.

  datatype ChatTurn =
    | Say(up: Update, world: World, serves: nat)   // committed, or rolled back when Telegram fails
    | Elsewhere(step: E.Step)
    | Configure(configs: map<(Provider, Market), Config>, channels: map<Market, Channel>)

  predicate Commits(db: Db, turn: ChatTurn)
    requires turn.Say?
  {
    |Respond(db, turn.up, turn.world).effects| <= turn.serves
  }

  function Apply(db: Db, turn: ChatTurn): Db {
    match turn
    case Say(up, world, serves) => if Commits(db, turn) then Respond(db, up, world).db else db
    case Elsewhere(step) => E.Apply(db, step)
    case Configure(configs, channels) => db.(configs := configs, channels := channels)
  }

  function After(db: Db, turns: seq<ChatTurn>): Db {
    if turns == [] then db else Apply(After(db, turns[..|turns| - 1]), turns[|turns| - 1])
  }

  /** The market of the last link this person was sent, if any. */
  function LastOffer(db: Db, turns: seq<ChatTurn>, telegramId: int): Option<Market> {
    if turns == [] then None
    else
      var n := |turns| - 1;
      var turn := turns[n];
      if turn.Say? && turn.up.userId == telegramId && Respond(After(db, turns[..n]), turn.up, turn.world).reply.Welcome?
      then Some(Respond(After(db, turns[..n]), turn.up, turn.world).reply.market)
      else LastOffer(db, turns[..n], telegramId)
  }

  lemma {:induction false} FindAfterUpdate(users: seq<User>, i: nat, u: User, telegramId: int)
    requires i < |users| && u.telegramId == users[i].telegramId
    ensures FindUser(users[i := u], telegramId) == FindUser(users, telegramId)
  {
    var n := |users| - 1;
    if i < n {
      assert users[i := u][..n] == users[..n][i := u];
      FindAfterUpdate(users[..n], i, u, telegramId);
    } else {
      assert users[i := u][..n] == users[..n];
    }
  }

  lemma FindAfterAdd(users: seq<User>, u: User, telegramId: int)
    ensures FindUser(users + [u], telegramId) ==
              if FindUser(users, telegramId).Some? then FindUser(users, telegramId)
              else if u.telegramId == telegramId then Some(|users|) else None
  {
    assert (users + [u])[..|users|] == users;
  }

  lemma EnsureKeepsPending(db: Db, telegramId: int, who: int)
    ensures PendingOf(EnsureUser(db, telegramId).0, who) == PendingOf(db, who)
    ensures FindUser(EnsureUser(db, telegramId).0.users, telegramId) == Some(EnsureUser(db, telegramId).1)
  {
    FindAfterAdd(db.users, User(telegramId, None), who);
    FindAfterAdd(db.users, User(telegramId, None), telegramId);
  }

  lemma OfferSetsPending(db: Db, up: Update, provider: Provider, market: Market, who: int)
    ensures var r := Offer(db, up, provider, market);
            && r.effects == [] && r.submitted == None
            && PendingOf(r.db, who) == (if r.reply.Welcome? && up.userId == who then Some(market)
               else PendingOf(db, who))
            && (r.reply.Welcome? ==> r.reply.market == market)
  {
    hide FindUser;
    var (db1, user) := EnsureUser(db, up.userId);
    EnsureKeepsPending(db, up.userId, who);
    FindAfterUpdate(db1.users, user, db1.users[user].(pendingMarket := Some(market)), who);
    FoundHasId(db1.users, who);
  }

  lemma FoundHasId(users: seq<User>, who: int)
    ensures var f := FindUser(users, who); f.Some? ==> f.value < |users| && users[f.value].telegramId == who
  {
  }

  lemma SubmitKeepsPending(db: Db, raw: string, rq: Request, who: int)
    ensures PendingOf(Submit(db, raw, rq).db, who) == PendingOf(db, who)
  {
    hide Uid.IsValid, Uid.Normalize, JudgedAccount, Issued, Readmitted, FindUser, FindUid;
    EnsureKeepsPending(db, rq.telegramId, who);
    var users := Submit(db, raw, rq).db.users;
    assert users == db.users || users == EnsureUser(db, rq.telegramId).0.users;
  }

  /** One update changes the remembered market of its sender alone, and only by
      sending a link: to the market of that link. */
  lemma UpdateSetsPending(db: Db, up: Update, world: World, who: int)
    ensures var r := Respond(db, up, world);
            && PendingOf(r.db, who) == (if r.reply.Welcome? && up.userId == who then Some(r.reply.market)
               else PendingOf(db, who))
            && (r.reply.Welcome? ==> r.effects == [])
  {
    hide Submit, PendingOf, AllDigits, Uid.IsValid, Uid.Normalize, StartsWith, Strip, MarketNamed, Offer;
    forall market
      ensures var r := Offer(db, up, world.provider, market);
              && PendingOf(r.db, who) == (if r.reply.Welcome? && up.userId == who then Some(market)
                 else PendingOf(db, who))
              && r.effects == [] && (r.reply.Welcome? ==> r.reply.market == market)
    {
      OfferSetsPending(db, up, world.provider, market, who);
    }
    forall market, uid
      ensures PendingOf(Submit(db, uid, RequestFor(up, world, market)).db, who) == PendingOf(db, who)
    {
      SubmitKeepsPending(db, uid, RequestFor(up, world, market), who);
    }
  }

  lemma RunKeepsUsers(settings: Settings, db: Db, now: Time, serves: nat)
    ensures Kept(settings, db, now, serves).users == db.users
  {
    hide SweepOver;
    ListIsDistinct(db);
    SweepKeepsJobs(ContextFor(settings, now), Claim(db, PeriodStart(now, settings.period)),
        MonitoredIds(db.memberships));
  }

  lemma StepKeepsPending(db: Db, step: E.Step, who: int)
    ensures PendingOf(E.Apply(db, step), who) == PendingOf(db, who)
  {
    match step
    case Onboard(raw, rq, serves) =>
      hide Submit, PendingOf;
      SubmitKeepsPending(db, raw, rq, who);
    case Sweeping(settings, now, serves) => RunKeepsUsers(settings, db, now, serves);
    case Join(mid, at) =>
  }

  /** What the row remembers is the market of the last link its owner was sent,
      through configuration changes, sweeps, redeploys and rolled-back updates. */
  lemma {:induction false} RememberedIsLastOffer(db: Db, turns: seq<ChatTurn>, who: int)
    ensures var offer := LastOffer(db, turns, who);
            PendingOf(After(db, turns), who) == if offer.Some? then offer else PendingOf(db, who)
  {
    hide Respond, PendingOf, E.Apply;
    if turns != [] {
      var n := |turns| - 1;
      var before := After(db, turns[..n]);
      RememberedIsLastOffer(db, turns[..n], who);
      match turns[n]
      case Say(up, world, serves) => UpdateSetsPending(before, up, world, who);
      case Elsewhere(step) => StepKeepsPending(before, step, who);
      case Configure(configs, channels) => UsersDecidePending(before,
          before.(configs := configs, channels := channels), who);
    }
  }

  lemma UsersDecidePending(a: Db, b: Db, who: int)
    requires a.users == b.users
    ensures PendingOf(a, who) == PendingOf(b, who)
  {
  }

  // Which updates are UIDs.

  lemma {:induction false} StripKeepsCanonical(s: string)
    ensures Uid.Canonical(Uid.StripLeft(s)) == Uid.Canonical(s) && Uid.Canonical(Uid.StripRight(s)) == Uid.Canonical(s)
    decreases |s|
  {
    if s != [] {
      StripKeepsCanonical(s[1..]);
      StripKeepsCanonical(s[..|s| - 1]);
      Uid.CanonicalConcat(s[..|s| - 1], [s[|s| - 1]]);
      assert s == s[..|s| - 1] + [s[|s| - 1]];
      assert [s[|s| - 1]][1..] == [];
    }
  }

  lemma StripKeepsUid(text: string)
    ensures Uid.Normalize(Strip(text)) == Uid.Normalize(text)
  {
    StripKeepsCanonical(text);
    StripKeepsCanonical(Uid.StripLeft(text));
    Uid.NormalizeIsCanonical(text);
    Uid.NormalizeIsCanonical(Strip(text));
  }

  lemma CommandIsNoUid(text: string)
    requires StartsWith(text, "/start")
    ensures !Uid.IsValid(Uid.Normalize(text))
  {
    Uid.NormalizeIsCanonical(text);
    assert text[0] == '/';
    assert Uid.Canonical(text)[0] == '/';
    Uid.ValidNormalized(text);
  }

  lemma NineDigitsAreDigits(s: string)
    requires Uid.NineDigits(s)
    ensures AllDigits(s)
  {
  }

  /** A typed message whose canonical form is a valid UID passes the command test and
      the digit test that come before validation. */
  lemma UidTextsAreRecognised(text: string)
    ensures var stripped := Strip(text);
            Uid.IsValid(Uid.Normalize(text)) ==>
              !StartsWith(stripped, "/start") && stripped != "" && AllDigits(Uid.Normalize(stripped))
                && Uid.IsValid(Uid.Normalize(stripped))
  {
    hide Uid.IsValid, AllDigits;
    StripKeepsUid(text);
    if Uid.IsValid(Uid.Normalize(text)) {
      Uid.ValidNormalized(text);
      NineDigitsAreDigits(Uid.Normalize(text));
      if StartsWith(Strip(text), "/start") { CommandIsNoUid(Strip(text)); }
      assert Strip(text) == "" ==> Uid.Normalize(Strip(text)) == "";
    }
  }

  predicate SendsUid(up: Update) {
    !PressesMarket(up) && Uid.IsValid(Uid.Normalize(up.text))
  }

  lemma StartOnlyTalks(db: Db, up: Update, provider: Provider, market: Market)
    ensures var r := Start(db, up, provider); r.submitted == None && r.effects == [] && r.db == db.(users := r.db.users)
    ensures var r := Offer(db, up, provider, market);
            r.submitted == None && r.effects == [] && r.db == db.(users := r.db.users)
  {
  }

  /** Exactly when onboarding is reached, and with what, in terms of the row. */
  lemma WhenOnboarded(db: Db, up: Update, world: World)
    ensures var r := Respond(db, up, world);
            var pending := PendingOf(db, up.userId);
            var ready := Ready(db, world.provider);
            && (r.submitted.Some? <==> SendsUid(up) && (pending.Some? || |ready| == 1))
            && (r.submitted.Some? ==>
                  var market := if pending.Some? then pending.value else ready[0];
                  && r.submitted == Some((market, Uid.Normalize(up.text)))
                  && r.db == Submit(db, up.text, RequestFor(up, world, market)).db
                  && r.effects == Submit(db, up.text, RequestFor(up, world, market)).effects)
            && (r.submitted.None? ==> r.effects == [] && r.db == db.(users := r.db.users))
  {
    hide Submit, PendingOf, AllDigits, Uid.IsValid, Uid.Normalize, StartsWith, Strip, MarketNamed, Render,
        SubmitCanonical, Start, Offer, Ready;
    forall market
      ensures var r := Offer(db, up, world.provider, market);
              r.submitted == None && r.effects == [] && r.db == db.(users := r.db.users)
    {
      StartOnlyTalks(db, up, world.provider, market);
    }
    StartOnlyTalks(db, up, world.provider, Crypto);
    UidTextsAreRecognised(up.text);
    StripKeepsUid(up.text);
    Uid.NormalizeIdempotent(up.text);
    forall market
      ensures Submit(db, Uid.Normalize(up.text), RequestFor(up, world, market)) ==
              Submit(db, up.text, RequestFor(up, world, market))
    {
      SpellingIsImmaterial(db, up.text, up.text, [up.text], RequestFor(up, world, market));
    }
  }

  /** No guessed market: over any history, a UID goes to onboarding under the last
      market whose link its sender was offered or, if none ever was, under the one
      ready market; otherwise nothing is asked of anyone and only the chat's own
      memory may change. */
  lemma NoGuessedMarket(start: Db, turns: seq<ChatTurn>, up: Update, world: World)
    requires PendingOf(start, up.userId) == None
    ensures var db := After(start, turns);
            var r := Respond(db, up, world);
            var offer := LastOffer(start, turns, up.userId);
            var ready := Ready(db, world.provider);
            && (r.submitted.Some? <==> SendsUid(up) && (offer.Some? || |ready| == 1))
            && (r.submitted.Some? ==> r.submitted.value.1 == Uid.Normalize(up.text)
                                      && r.submitted.value.0 == if offer.Some? then offer.value else ready[0])
            && (r.submitted.None? ==> r.effects == [] && r.db == db.(users := r.db.users))
  {
    hide Respond, After, LastOffer, PendingOf, Ready, Submit;
    RememberedIsLastOffer(start, turns, up.userId);
    WhenOnboarded(After(start, turns), up, world);
  }
}
