/** The App component's economy state and its handlers: one single-writer object whose methods are the
    player's actions and the one-second tick, each stated as the exact new state it produces. */
module Economy {
  import opened Wrappers
  import Text
  import Ranks
  import opened Boosts
  import opened Quests
  import Chat
  import Clans
  import Codes
  import opened Wager

  /** Every field the engine reads or writes; the first fourteen are the persisted snapshot, the last
      two (`chatMessages`, `currentTime`) live only for the session. */
  datatype GameState = GameState(
    points: int, vaultPoints: int, totalClicks: int, prestigeLevel: int,
    userName: string, email: string, isLoggedIn: bool,
    activeBoosts: seq<ActiveBoost>, clans: seq<Clans.Clan>, userClanId: Option<string>,
    usedCodes: seq<string>, banList: seq<string>, quests: seq<Quest>, isAdmin: bool,
    chatMessages: seq<Chat.ChatMessage>, currentTime: int)

  /** The invariants every action and tick keep. `points` is absent: the admin injection may add a
      negative amount. */
  ghost predicate ValidState(s: GameState) {
    && s.vaultPoints >= 0 && s.totalClicks >= 0 && s.prestigeLevel >= 0
    && AllInRange(s.quests)
    && Clans.AllWellFormed(s.clans) && Clans.UniqueIds(s.clans)
    && |s.chatMessages| <= Chat.FeedLimit
  }

  /** The state a first session starts from when nothing has been saved. */
  function DefaultState(now: int): (s: GameState)
    ensures ValidState(s) && s.points == 0 && s.prestigeLevel == 0 && s.clans == [] && s.userClanId == None
  {
    GameState(0, 0, 0, 0, "PLAYER", "", false, [], [], None, [], [], DefaultQuests, false, [], now)
  }

  /** `isBanned`: the upper-cased alias or e-mail is on the ban list. */
  predicate IsBanned(banList: seq<string>, userName: string, email: string): (b: bool)
    ensures b ==> banList != []
    ensures b == (Text.ToUpper(Text.ToUpper(userName)) in banList || Text.ToUpper(Text.ToUpper(email)) in banList)
  {
    Text.ToUpperIdempotent(userName);
    Text.ToUpperIdempotent(email);
    Text.ToUpper(userName) in banList || Text.ToUpper(email) in banList
  }

  /** Banning an alias takes effect for every name that upper-cases the same way, so case does not
      matter, and it never lifts an earlier ban. */
  lemma BanTakesEffect(banList: seq<string>, alias: string, name: string, email: string)
    ensures Text.ToUpper(name) == Text.ToUpper(alias) ==> IsBanned(banList + [Text.ToUpper(alias)], name, email)
    ensures IsBanned(banList + [Text.ToUpper(alias)], Text.ToUpper(alias), email)
    ensures IsBanned(banList, name, email) ==> IsBanned(banList + [Text.ToUpper(alias)], name, email)
  {
    Text.ToUpperIdempotent(alias);
  }

  /** `myClan`: the index of the clan whose id is `userClanId`. */
  function MyClan(clans: seq<Clans.Clan>, userClanId: Option<string>): (r: Option<nat>)
    ensures r.Some? ==> userClanId.Some? && r.value < |clans| && clans[r.value].id == userClanId.value
    ensures r.None? && userClanId.Some? ==> forall i :: 0 <= i < |clans| ==> clans[i].id != userClanId.value
  {
    match userClanId
    case None => None
    case Some(id) => Clans.FindClan(clans, id)
  }

  /** `Math.floor(amt * multiplier)` with the iridium multiplier 1.5 written as `amt * 3 / 2`. */
  function DepositCredit(amt: nat, iridium: bool): (r: nat)
    ensures iridium ==> 2 * r <= 3 * amt < 2 * r + 2
    ensures !iridium ==> r == amt
  {
    if iridium then amt * 3 / 2 else amt
  }

  const VaultStep: nat := 1000
  const CritChance: real := 0.15
  const CritMultiplier: nat := 5

  function NewClanId(now: nat): string { "clan-" + Text.NatToString(now) }

  function RecruitmentText(clanName: string): string {
    "RECRUITMENT: Join cluster [" + clanName + "]! \U{1F680} Looking for active members. JOIN BELOW!"
  }

  /** What a global bot post draws at random: the mock name, its random point total and the text
      (from the reply pool or the generic pool). */
  datatype GlobalPost = GlobalPost(name: string, points: nat, text: string)

  /** The global feed after a tick: a bot's post, if any, is stamped with `now` and the rank its
      points resolve to, and appended under the cap. */
  function WithGlobalPost(feed: seq<Chat.ChatMessage>, post: Option<GlobalPost>, now: nat): (r: seq<Chat.ChatMessage>)
    ensures |feed| <= Chat.FeedLimit ==> |r| <= Chat.FeedLimit
    ensures post.None? ==> r == feed
    ensures post.Some? ==> |r| > 0 && r[|r| - 1].sender == post.value.name && !r[|r| - 1].isUser
                           && r[|r| - 1].rank == Ranks.CurrentRank(post.value.points)
  {
    match post
    case None => feed
    case Some(p) =>
      var msg := Chat.ChatMessage(Text.NatToString(now), p.name, p.text, Ranks.CurrentRank(p.points), false, now, None);
      Chat.FeedStaysBounded(feed, msg);
      Chat.AppendBounded(feed, msg)
  }

  datatype WithdrawResult = Withdrawn | Refused | Denied

  class Game {
    var points: int
    var vaultPoints: int
    var totalClicks: int
    var prestigeLevel: int
    var userName: string
    var email: string
    var isLoggedIn: bool
    var activeBoosts: seq<ActiveBoost>
    var clans: seq<Clans.Clan>
    var userClanId: Option<string>
    var usedCodes: seq<string>
    var banList: seq<string>
    var quests: seq<Quest>
    var isAdmin: bool
    var chatMessages: seq<Chat.ChatMessage>
    var currentTime: int

    ghost function State(): GameState
      reads this
    {
      GameState(points, vaultPoints, totalClicks, prestigeLevel, userName, email, isLoggedIn,
                activeBoosts, clans, userClanId, usedCodes, banList, quests, isAdmin,
                chatMessages, currentTime)
    }

    ghost predicate Valid()
      reads this
    {
      ValidState(State())
    }

    predicate Banned()
      reads this
    {
      IsBanned(banList, userName, email)
    }

    /** Starts a session from a saved snapshot; the chat feed starts empty and the clock at `now`. */
    constructor Load(saved: GameState, now: int)
      requires ValidState(saved)
      ensures Valid()
      ensures State() == saved.(chatMessages := [], currentTime := now)
    {
      points, vaultPoints, totalClicks, prestigeLevel := saved.points, saved.vaultPoints, saved.totalClicks, saved.prestigeLevel;
      userName, email, isLoggedIn := saved.userName, saved.email, saved.isLoggedIn;
      activeBoosts, clans, userClanId := saved.activeBoosts, saved.clans, saved.userClanId;
      usedCodes, banList, quests, isAdmin := saved.usedCodes, saved.banList, saved.quests, saved.isAdmin;
      chatMessages, currentTime := [], now;
    }

    /** `handleClick`: the click yield (5x on a cobalt critical, when `roll < 0.15`), one more click,
        and the click quests advance by one. */
    method Click(roll: real) returns (gained: nat)
      requires Valid() && 0.0 <= roll < 1.0
      modifies this
      ensures Valid()
      ensures var s := old(State());
              if !s.isLoggedIn || IsBanned(s.banList, s.userName, s.email) then gained == 0 && State() == s
              else
                && gained == ClickPower(s.prestigeLevel, s.activeBoosts, s.currentTime)
                             * (if IsActive(s.activeBoosts, Cobalt, s.currentTime) && roll < CritChance
                                then CritMultiplier else 1)
                && State() == s.(points := s.points + gained, totalClicks := s.totalClicks + 1,
                                 quests := UpdateQuest(s.quests, Clicks, 1))
    {
      ghost var s0 := State();
      if !isLoggedIn || Banned() {
        return 0;
      }
      gained := ClickPower(prestigeLevel, activeBoosts, currentTime);
      if IsActive(activeBoosts, Cobalt, currentTime) && roll < CritChance {
        gained := gained * CritMultiplier;
      }
      points := points + gained;
      totalClicks := totalClicks + 1;
      quests := UpdateQuest(quests, Clicks, 1);
      assert State() == s0.(points := points, totalClicks := totalClicks, quests := quests);
    }

    /** `buyLabItem`: too few points change nothing; otherwise the cost is debited, one boost ending at
        `now + duration` is appended (duplicates allowed) and the lab quests advance by one. */
    method BuyLabItem(kind: BoostKind, cost: int, duration: int, now: int) returns (ok: bool)
      requires Valid()
      modifies this
      ensures Valid()
      ensures ok == (old(points) >= cost)
      ensures var s := old(State());
              State() == if !ok then s
                         else s.(points := s.points - cost,
                                 activeBoosts := s.activeBoosts + [ActiveBoost(kind, now + duration)],
                                 quests := UpdateQuest(s.quests, Lab, 1))
      ensures ok ==> activeBoosts[|activeBoosts| - 1] == ActiveBoost(kind, now + duration)
      ensures ok && duration > 0 ==> IsActive(activeBoosts, kind, now)
      ensures ok ==> ActiveBoost(kind, now + duration) !in SweepExpired(activeBoosts, now + duration)
    {
      ghost var s0 := State();
      if points < cost {
        return false;
      }
      points := points - cost;
      activeBoosts := activeBoosts + [ActiveBoost(kind, now + duration)];
      assert activeBoosts[|activeBoosts| - 1] == ActiveBoost(kind, now + duration);
      quests := UpdateQuest(quests, Lab, 1);
      ok := true;
      assert State() == s0.(points := points, activeBoosts := activeBoosts, quests := quests);
    }

    /** `handleCreateClan`: needs 5000 points and a non-blank name; the founder becomes the sole Owner of
        a new clan, joins it, and pays 5000. The clan id derives from the clock, which never repeats. */
    method CreateClan(name: string, now: nat) returns (ok: bool)
      requires Valid()
      requires Clans.FindClan(clans, NewClanId(now)).None?
      modifies this
      ensures Valid()
      ensures ok == (old(points) >= Clans.CreationCost && Text.Trim(name) != [])
      ensures var s := old(State());
              State() == if !ok then s
                         else s.(clans := s.clans + [Clans.Found(NewClanId(now), name, s.email, s.userName,
                                                                 Ranks.CurrentRank(s.points))],
                                 userClanId := Some(NewClanId(now)),
                                 points := s.points - Clans.CreationCost)
    {
      ghost var s0 := State();
      if points < Clans.CreationCost {
        return false;
      }
      if Text.Trim(name) == [] {
        return false;
      }
      var id := NewClanId(now);
      var clan := Clans.Found(id, name, email, userName, Ranks.CurrentRank(points));
      Clans.AddKeepsInvariants(clans, clan);
      clans := clans + [clan];
      userClanId := Some(id);
      points := points - Clans.CreationCost;
      ok := true;
      assert State() == s0.(clans := clans, userClanId := userClanId, points := points);
    }

    /** `handleJoinClan`: refused while in a clan or banned; otherwise the player is appended to the clan
        with that id if it has fewer than 25 members, and only then becomes its member. */
    method JoinClan(clanId: string) returns (joined: bool)
      requires Valid()
      modifies this
      ensures Valid()
      ensures var s := old(State());
              var m := Clans.ClanMember(s.email, s.userName, "member", Ranks.CurrentRank(s.points), false);
              if s.userClanId.Some? || IsBanned(s.banList, s.userName, s.email) then !joined && State() == s
              else
                && (joined <==> exists i :: 0 <= i < |s.clans| && s.clans[i].id == clanId
                                            && |s.clans[i].members| < Clans.MaxMembers)
                && State() == s.(clans := Clans.UpdateWhere(s.clans, clanId, Clans.Admit(m)),
                                 userClanId := if joined then Some(clanId) else None)
    {
      ghost var s0 := State();
      if userClanId.Some? || Banned() {
        return false;
      }
      var m := Clans.ClanMember(email, userName, "member", Ranks.CurrentRank(points), false);
      joined := exists i :: 0 <= i < |clans| && clans[i].id == clanId && |clans[i].members| < Clans.MaxMembers;
      Clans.UpdateWhereKeepsInvariants(clans, clanId, Clans.Admit(m));
      clans := Clans.UpdateWhere(clans, clanId, Clans.Admit(m));
      if joined {
        userClanId := Some(clanId);
      }
      assert State() == s0.(clans := clans, userClanId := userClanId);
    }

    /** The "Depart Cluster" button: membership is cleared and every member carrying the player's id
        leaves the player's clan. */
    method LeaveClan()
      requires Valid()
      modifies this
      ensures Valid()
      ensures var s := old(State());
              State() == s.(userClanId := None,
                            clans := match MyClan(s.clans, s.userClanId)
                                     case None => s.clans
                                     case Some(i) => Clans.UpdateWhere(s.clans, s.clans[i].id, Clans.Expel(s.email)))
    {
      ghost var s0 := State();
      var mine := MyClan(clans, userClanId);
      if mine.Some? {
        var id := clans[mine.value].id;
        Clans.UpdateWhereKeepsInvariants(clans, id, Clans.Expel(email));
        clans := Clans.UpdateWhere(clans, id, Clans.Expel(email));
      }
      userClanId := None;
      assert State() == s0.(clans := clans, userClanId := userClanId);
    }

    /** `handleClanAd`, immediate part: posts a recruitment message carrying the clan id to the global
        feed and returns that id for the delayed recruit. */
    method BroadcastRecruitment(now: nat) returns (target: Option<string>)
      requires Valid()
      modifies this
      ensures Valid()
      ensures var s := old(State());
              match MyClan(s.clans, s.userClanId)
              case None => target == None && State() == s
              case Some(i) =>
                if IsBanned(s.banList, s.userName, s.email) then target == None && State() == s
                else
                  && target == Some(s.clans[i].id)
                  && State() == s.(chatMessages := Chat.AppendBounded(s.chatMessages,
                       Chat.ChatMessage(Text.NatToString(now), s.userName, RecruitmentText(s.clans[i].name),
                                        Ranks.CurrentRank(s.points), true, now, Some(s.clans[i].id))))
    {
      ghost var s0 := State();
      var mine := MyClan(clans, userClanId);
      if mine.None? || Banned() {
        return None;
      }
      var c := clans[mine.value];
      var msg := Chat.ChatMessage(Text.NatToString(now), userName, RecruitmentText(c.name),
                                  Ranks.CurrentRank(points), true, now, Some(c.id));
      Chat.FeedStaysBounded(chatMessages, msg);
      chatMessages := Chat.AppendBounded(chatMessages, msg);
      target := Some(c.id);
      assert State() == s0.(chatMessages := chatMessages);
    }

    /** `handleClanAd`, delayed part: when the 85% draw succeeds, a bot with the drawn name and a rank
        from its drawn points is enlisted in the target clan, unless it is full or the name is taken. */
    method CompleteRecruitment(target: string, succeeded: bool, botName: string, botPoints: nat, now: nat)
      requires Valid()
      modifies this
      ensures Valid()
      ensures var s := old(State());
              var bot := Clans.ClanMember("bot-" + Text.NatToString(now), botName, "member",
                                          Ranks.CurrentRank(botPoints), true);
              State() == if succeeded then s.(clans := Clans.UpdateWhere(s.clans, target, Clans.Enlist(bot))) else s
    {
      ghost var s0 := State();
      if succeeded {
        var bot := Clans.ClanMember("bot-" + Text.NatToString(now), botName, "member",
                                    Ranks.CurrentRank(botPoints), true);
        Clans.UpdateWhereKeepsInvariants(clans, target, Clans.Enlist(bot));
        clans := Clans.UpdateWhere(clans, target, Clans.Enlist(bot));
      }
      assert State() == s0.(clans := clans);
    }

    /** `depositClan`: needs a clan, enough points and no ban; debits `amt`, credits the bank with
        `floor(amt * 1.5)` while iridium is active (else `amt`), and advances the clan quests by
        `floor(amt / 250)`. */
    method DepositClan(amt: nat) returns (ok: bool)
      requires Valid()
      modifies this
      ensures Valid()
      ensures var s := old(State());
              ok == (MyClan(s.clans, s.userClanId).Some? && s.points >= amt && !IsBanned(s.banList, s.userName, s.email))
      ensures var s := old(State());
              State() == if !ok then s
                else s.(points := s.points - amt,
                        clans := Clans.UpdateWhere(s.clans, s.userClanId.value,
                                   Clans.Credit(DepositCredit(amt, IsActive(s.activeBoosts, Iridium, s.currentTime)))),
                        quests := UpdateQuest(s.quests, ClanPoints, amt / Clans.BankUnit))
    {
      ghost var s0 := State();
      var mine := MyClan(clans, userClanId);
      if mine.None? || points < amt || Banned() {
        return false;
      }
      var iridium := IsActive(activeBoosts, Iridium, currentTime);
      points := points - amt;
      var credit := Clans.Credit(DepositCredit(amt, iridium));
      Clans.UpdateWhereKeepsInvariants(clans, userClanId.value, credit);
      clans := Clans.UpdateWhere(clans, userClanId.value, credit);
      quests := UpdateQuest(quests, ClanPoints, amt / Clans.BankUnit);
      ok := true;
      assert State() == s0.(points := points, clans := clans, quests := quests);
    }

    /** `withdrawClan`: refused without a clan, with too small a bank or when banned; denied unless the
        player owns the clan or holds a role granting `withdraw`; otherwise `amt` moves from the bank to
        the player. */
    method WithdrawClan(amt: nat) returns (r: WithdrawResult)
      requires Valid()
      modifies this
      ensures Valid()
      ensures var s := old(State());
              var mine := MyClan(s.clans, s.userClanId);
              && (r == Refused <==> mine.None? || s.clans[mine.value].balance < amt
                                    || IsBanned(s.banList, s.userName, s.email))
              && (r == Denied <==> r != Refused && !Clans.CanWithdraw(s.clans[mine.value], s.email))
              && State() == if r != Withdrawn then s
                            else s.(points := s.points + amt,
                                    clans := Clans.UpdateWhere(s.clans, s.userClanId.value, Clans.Debit(amt)))
    {
      ghost var s0 := State();
      var mine := MyClan(clans, userClanId);
      if mine.None? || clans[mine.value].balance < amt || Banned() {
        return Refused;
      }
      if !Clans.CanWithdraw(clans[mine.value], email) {
        return Denied;
      }
      points := points + amt;
      Clans.UpdateWhereKeepsInvariants(clans, userClanId.value, Clans.Debit(amt));
      clans := Clans.UpdateWhere(clans, userClanId.value, Clans.Debit(amt));
      r := Withdrawn;
      assert State() == s0.(points := points, clans := clans);
    }

    /** `sendGlobalMessage`: a non-blank message from an unbanned player is appended to the bounded global
        feed and advances the chat quests by one. */
    method SendGlobalMessage(text: string, now: nat) returns (ok: bool)
      requires Valid()
      modifies this
      ensures Valid()
      ensures var s := old(State());
              ok == (Text.Trim(text) != [] && !IsBanned(s.banList, s.userName, s.email))
      ensures var s := old(State());
              State() == if !ok then s
                else s.(chatMessages := Chat.AppendBounded(s.chatMessages,
                          Chat.ChatMessage(Text.NatToString(now), s.userName, text, Ranks.CurrentRank(s.points),
                                           true, now, None)),
                        quests := UpdateQuest(s.quests, Chat, 1))
    {
      ghost var s0 := State();
      if Text.Trim(text) == [] || Banned() {
        return false;
      }
      var msg := Chat.ChatMessage(Text.NatToString(now), userName, text, Ranks.CurrentRank(points), true, now, None);
      Chat.FeedStaysBounded(chatMessages, msg);
      chatMessages := Chat.AppendBounded(chatMessages, msg);
      quests := UpdateQuest(quests, Chat, 1);
      ok := true;
      assert State() == s0.(chatMessages := chatMessages, quests := quests);
    }

    /** `sendClanMessage`: a non-blank message from an unbanned member goes to the clan's bounded feed;
        unlike a global message it advances no quest. */
    method SendClanMessage(text: string, now: nat) returns (ok: bool)
      requires Valid()
      modifies this
      ensures Valid()
      ensures var s := old(State());
              ok == (Text.Trim(text) != [] && MyClan(s.clans, s.userClanId).Some?
                     && !IsBanned(s.banList, s.userName, s.email))
      ensures var s := old(State());
              State() == if !ok then s
                else s.(clans := Clans.UpdateWhere(s.clans, s.userClanId.value,
                          Clans.Post(Chat.ChatMessage(Text.NatToString(now), s.userName, text,
                                                      Ranks.CurrentRank(s.points), true, now, None))))
    {
      ghost var s0 := State();
      var mine := MyClan(clans, userClanId);
      if Text.Trim(text) == [] || mine.None? || Banned() {
        return false;
      }
      var post := Clans.Post(Chat.ChatMessage(Text.NatToString(now), userName, text, Ranks.CurrentRank(points),
                                              true, now, None));
      Clans.UpdateWhereKeepsInvariants(clans, userClanId.value, post);
      clans := Clans.UpdateWhere(clans, userClanId.value, post);
      ok := true;
      assert State() == s0.(clans := clans);
    }

    /** `handleRedeemCode`: applies the registry's decision; single-use grants are recorded, the admin
        codes only switch admin mode on. */
    method RedeemCode(raw: string, now: int) returns (outcome: Codes.CodeOutcome)
      requires Valid()
      modifies this
      ensures Valid()
      ensures outcome == Codes.Redeem(old(usedCodes), raw)
      ensures var s := old(State());
              State() == match outcome
                case AdminGranted => s.(isAdmin := true)
                case Granted(coins, radium) =>
                  s.(points := s.points + coins, usedCodes := s.usedCodes + [Codes.Normalize(raw)],
                     activeBoosts := if radium then s.activeBoosts + [ActiveBoost(Radium, now + Codes.RadiumGrantDuration)]
                                     else s.activeBoosts)
                case _ => s
    {
      ghost var s0 := State();
      outcome := Codes.Redeem(usedCodes, raw);
      if outcome == Codes.AdminGranted {
        isAdmin := true;
      } else if outcome.Granted? {
        points := points + outcome.coins;
        if outcome.radium {
          activeBoosts := activeBoosts + [ActiveBoost(Radium, now + Codes.RadiumGrantDuration)];
        }
        usedCodes := usedCodes + [Codes.Normalize(raw)];
      }
      assert State() == s0.(isAdmin := isAdmin, points := points, usedCodes := usedCodes, activeBoosts := activeBoosts);
    }

    /** `startGamble`: refused when banned, for a non-positive stake or one above the balance; otherwise
        the stake is debited and the draw's payout credited, and a shielded loss consumes every xenon
        entry. */
    method Gamble(amt: int, roll: real) returns (outcome: GambleOutcome)
      requires Valid() && 0.0 <= roll < 1.0
      modifies this
      ensures Valid()
      ensures var s := old(State());
              if IsBanned(s.banList, s.userName, s.email) || amt <= 0 || s.points < amt then
                outcome == Rejected && State() == s
              else
                && outcome == Resolve(roll, IsActive(s.activeBoosts, Xenon, s.currentTime))
                && State() == s.(points := s.points - amt + Payout(amt, outcome),
                                 activeBoosts := if outcome == Shielded then RemoveKind(s.activeBoosts, Xenon)
                                                 else s.activeBoosts)
    {
      ghost var s0 := State();
      if Banned() || amt <= 0 || points < amt {
        return Rejected;
      }
      points := points - amt;
      var hasShield := IsActive(activeBoosts, Xenon, currentTime);
      outcome := Resolve(roll, hasShield);
      points := points + Payout(amt, outcome);
      if outcome == Shielded {
        activeBoosts := RemoveKind(activeBoosts, Xenon);
      }
      assert State() == s0.(points := points, activeBoosts := activeBoosts);
    }

    /** "Dep 1K": moves exactly 1000 points into the vault, only if the player holds 1000. */
    method VaultDeposit() returns (ok: bool)
      requires Valid()
      modifies this
      ensures Valid()
      ensures ok == (old(points) >= VaultStep)
      ensures points + vaultPoints == old(points) + old(vaultPoints)
      ensures var s := old(State());
              State() == if !ok then s else s.(points := s.points - VaultStep, vaultPoints := s.vaultPoints + VaultStep)
    {
      ghost var s0 := State();
      if points >= VaultStep {
        points := points - VaultStep;
        vaultPoints := vaultPoints + VaultStep;
        ok := true;
      } else {
        ok := false;
      }
      assert State() == s0.(points := points, vaultPoints := vaultPoints);
    }

    /** "With 1K": moves exactly 1000 points out of the vault, only if the vault holds 1000. */
    method VaultWithdraw() returns (ok: bool)
      requires Valid()
      modifies this
      ensures Valid()
      ensures ok == (old(vaultPoints) >= VaultStep)
      ensures points + vaultPoints == old(points) + old(vaultPoints)
      ensures var s := old(State());
              State() == if !ok then s else s.(points := s.points + VaultStep, vaultPoints := s.vaultPoints - VaultStep)
    {
      ghost var s0 := State();
      if vaultPoints >= VaultStep {
        vaultPoints := vaultPoints - VaultStep;
        points := points + VaultStep;
        ok := true;
      } else {
        ok := false;
      }
      assert State() == s0.(points := points, vaultPoints := vaultPoints);
    }

    /** The quest "Claim" button, offered only for an unclaimed, completed quest: credits the reward once
        and marks the quest claimed. */
    method ClaimQuest(i: nat) returns (ok: bool)
      requires Valid() && i < |quests|
      modifies this
      ensures Valid()
      ensures ok == Claimable(old(quests)[i])
      ensures var s := old(State());
              State() == if !ok then s
                         else s.(points := s.points + s.quests[i].reward, quests := MarkClaimed(s.quests, s.quests[i].id))
      ensures ok ==> !Claimable(quests[i])
    {
      ghost var s0 := State();
      if !Claimable(quests[i]) {
        return false;
      }
      points := points + quests[i].reward;
      quests := MarkClaimed(quests, quests[i].id);
      ok := true;
      assert State() == s0.(points := points, quests := quests);
    }

    /** The profile panel's alias box: the alias is replaced as typed, and the ban verdict follows the
        new alias. */
    method Rename(name: string)
      requires Valid()
      modifies this
      ensures Valid()
      ensures State() == old(State()).(userName := name)
      ensures Banned() == IsBanned(old(banList), name, old(email))
    {
      ghost var s0 := State();
      userName := name;
      assert State() == s0.(userName := userName);
    }

    /** The "Abort" button: the session is logged out and nothing else changes, so clicks are refused
        afterwards. */
    method Abort()
      requires Valid()
      modifies this
      ensures Valid()
      ensures State() == old(State()).(isLoggedIn := false)
    {
      ghost var s0 := State();
      isLoggedIn := false;
      assert State() == s0.(isLoggedIn := isLoggedIn);
    }

    /** Admin "Asset Injection": adds the parsed amount, which may be negative. */
    method AdminInject(amount: int) returns (ok: bool)
      requires Valid()
      modifies this
      ensures Valid()
      ensures ok == old(isAdmin)
      ensures State() == if ok then old(State()).(points := old(points) + amount) else old(State())
    {
      ghost var s0 := State();
      ok := isAdmin;
      if ok {
        points := points + amount;
      }
      assert State() == s0.(points := points);
    }

    /** Admin "Blacklist Alias": appends the upper-cased alias to the ban list. */
    method AdminBan(alias: string) returns (ok: bool)
      requires Valid()
      modifies this
      ensures Valid()
      ensures ok == old(isAdmin)
      ensures State() == if ok then old(State()).(banList := old(banList) + [Text.ToUpper(alias)]) else old(State())
      ensures ok && Text.ToUpper(alias) == Text.ToUpper(old(userName)) ==> Banned()
    {
      ghost var s0 := State();
      ok := isAdmin;
      if ok {
        BanTakesEffect(banList, alias, userName, email);
        banList := banList + [Text.ToUpper(alias)];
      }
      assert State() == s0.(banList := banList);
    }

    /** Admin "set_omnipotent": the balance jumps to the top tier's minimum. */
    method AdminMaxTier() returns (ok: bool)
      requires Valid()
      modifies this
      ensures Valid()
      ensures ok == old(isAdmin)
      ensures State() == if ok then old(State()).(points := Ranks.RankTiers[|Ranks.RankTiers| - 1].min) else old(State())
      ensures ok ==> Ranks.CurrentRank(points) == |Ranks.RankTiers| - 1
    {
      ghost var s0 := State();
      ok := isAdmin;
      if ok {
        points := Ranks.RankTiers[|Ranks.RankTiers| - 1].min;
        Ranks.RankIsUniqueBand(points, |Ranks.RankTiers| - 1);
      }
      assert State() == s0.(points := points);
    }

    /** Admin "reset_tasks": every quest back to zero progress, unclaimed. */
    method AdminResetQuests() returns (ok: bool)
      requires Valid()
      modifies this
      ensures Valid()
      ensures ok == old(isAdmin)
      ensures State() == if ok then old(State()).(quests := ResetAll(old(quests))) else old(State())
    {
      ghost var s0 := State();
      ok := isAdmin;
      if ok {
        ResetKeepsRange(quests);
        quests := ResetAll(quests);
      }
      assert State() == s0.(quests := quests);
    }

    /** `handleAscension`: needs the Emperor minimum (4500) and a confirmation; prestige rises by exactly
        one and points, vault, clicks and boosts are zeroed. */
    method Ascend(confirmed: bool) returns (ok: bool)
      requires Valid()
      modifies this
      ensures Valid()
      ensures ok == (old(points) >= Ranks.RankTiers[Ranks.AscensionTier].min && confirmed)
      ensures var s := old(State());
              State() == if !ok then s
                         else s.(prestigeLevel := s.prestigeLevel + 1, points := 0, vaultPoints := 0,
                                 totalClicks := 0, activeBoosts := [])
    {
      ghost var s0 := State();
      if points < Ranks.RankTiers[Ranks.AscensionTier].min || !confirmed {
        return false;
      }
      prestigeLevel := prestigeLevel + 1;
      points, vaultPoints, totalClicks, activeBoosts := 0, 0, 0, [];
      ok := true;
      assert State() == s0.(prestigeLevel := prestigeLevel, points := points, vaultPoints := vaultPoints, totalClicks := totalClicks, activeBoosts := activeBoosts);
    }

    /** The tick's pass over the clan registry: each clan in turn takes its bot step. */
    static method StepClans(clans: seq<Clans.Clan>, rolls: seq<Clans.BotRoll>, now: nat)
      returns (updated: seq<Clans.Clan>)
      requires |rolls| == |clans|
      ensures updated == Clans.StepAll(clans, rolls, now)
    {
      updated := [];
      var i := 0;
      while i < |clans|
        invariant 0 <= i <= |clans|
        invariant |updated| == i
        invariant forall k :: 0 <= k < i ==> updated[k] == Clans.BotStep(clans[k], rolls[k], now)
      {
        updated := updated + [Clans.BotStep(clans[i], rolls[i], now)];
        i := i + 1;
      }
    }

    /** The tick's `setCurrentTime`, `setActiveBoosts` and `setPoints`: the clock moves to `now`, the
        income is computed from the boosts before the sweep, and expired boosts are dropped. */
    method SweepAndEarn(now: nat)
      requires Valid()
      modifies this
      ensures Valid()
      ensures var s := old(State());
              State() == s.(currentTime := now, activeBoosts := SweepExpired(s.activeBoosts, now),
                            points := s.points + (if IsBanned(s.banList, s.userName, s.email) then 0
                                                  else PassiveIncome(s.activeBoosts, now)))
    {
      ghost var s0 := State();
      if !Banned() {
        points := points + PassiveIncome(activeBoosts, now);
      }
      currentTime := now;
      activeBoosts := SweepExpired(activeBoosts, now);
      assert State() == s0.(points := points, currentTime := currentTime, activeBoosts := activeBoosts);
    }

    /** The tick's `setClans`: every clan takes its bot step on its own draw. */
    method RunBots(rolls: seq<Clans.BotRoll>, now: nat)
      requires Valid() && |rolls| == |clans|
      modifies this
      ensures Valid()
      ensures State() == old(State()).(clans := Clans.StepAll(old(clans), rolls, now))
    {
      ghost var s0 := State();
      var updated := StepClans(clans, rolls, now);
      Clans.StepAllKeepsInvariants(clans, rolls, now);
      clans := updated;
      assert State() == s0.(clans := clans);
    }

    /** The tick's global bot post, if any, appended under the cap. */
    method PostGlobal(post: Option<GlobalPost>, now: nat)
      requires Valid()
      modifies this
      ensures Valid()
      ensures State() == old(State()).(chatMessages := WithGlobalPost(old(chatMessages), post, now))
    {
      ghost var s0 := State();
      chatMessages := WithGlobalPost(chatMessages, post, now);
      assert State() == s0.(chatMessages := chatMessages);
    }

    /** The one-second tick at time `now`: the clock advances, expired boosts are swept, an unbanned
        player earns the passive income, every clan runs its bot activity on its own draws, and a bot may
        post to the global feed. */
    method Tick(now: nat, rolls: seq<Clans.BotRoll>, post: Option<GlobalPost>)
      requires Valid() && |rolls| == |clans|
      modifies this
      ensures Valid()
      ensures var s := old(State());
              State() == s.(
                   currentTime := now,
                   activeBoosts := SweepExpired(s.activeBoosts, now),
                   points := s.points + (if IsBanned(s.banList, s.userName, s.email) then 0
                                         else PassiveIncome(s.activeBoosts, now)),
                   clans := Clans.StepAll(s.clans, rolls, now),
                   chatMessages := WithGlobalPost(s.chatMessages, post, now))
    {
      SweepAndEarn(now);
      RunBots(rolls, now);
      PostGlobal(post, now);
    }
  }
}
