/** The clan registry: bank and clan points, membership under the 25-member cap, role-based withdraw
    permission, the clan feed, and the per-tick activity of simulated (bot) members. */
module Clans {
  import opened Wrappers
  import Seqs
  import Text
  import Chat

  datatype Permission = Withdraw | ManageRoles | ManageChannels | Kick

  datatype ClanRole = ClanRole(id: string, name: string, permissions: seq<Permission>)

  /** `rank` is the tier index recorded when the member joined. */
  datatype ClanMember = ClanMember(id: string, name: string, roleId: string, rank: nat, isBot: bool)

  /** A clan; its channel list always holds the single 'general' channel, kept here as `feed`. */
  datatype Clan = Clan(id: string, name: string, ownerId: string, balance: int, clanPoints: int,
                       members: seq<ClanMember>, roles: seq<ClanRole>, feed: seq<Chat.ChatMessage>)

  const MaxMembers: nat := 25
  const BankUnit: nat := 250
  const CreationCost: nat := 5000
  const BotContribution: nat := 50

  const DefaultClanRoles: seq<ClanRole> := [
    ClanRole("owner", "Commander", [Withdraw, ManageRoles, ManageChannels, Kick]),
    ClanRole("admin", "Officer", [Withdraw, ManageChannels]),
    ClanRole("member", "Agent", [])
  ]

  /** `Math.floor(balance / 250)`; Dafny's division by a positive divisor is already the floor. */
  function ClanPointsOf(balance: int): (p: int)
    ensures p * BankUnit <= balance < (p + 1) * BankUnit
  {
    balance / BankUnit
  }

  ghost predicate WellFormed(c: Clan) {
    && c.balance >= 0
    && c.clanPoints == ClanPointsOf(c.balance)
    && |c.members| <= MaxMembers
    && |c.feed| <= Chat.FeedLimit
  }

  ghost predicate AllWellFormed(clans: seq<Clan>) { forall i :: 0 <= i < |clans| ==> WellFormed(clans[i]) }

  ghost predicate UniqueIds(clans: seq<Clan>) {
    forall i, j :: 0 <= i < j < |clans| ==> clans[i].id != clans[j].id
  }

  /** `c.members.some(m => m.name === name)`. */
  predicate HasMemberNamed(c: Clan, name: string): (b: bool)
    ensures b <==> exists m :: m in c.members && m.name == name
  {
    exists i :: 0 <= i < |c.members| && c.members[i].name == name
  }

  predicate HasMemberWithId(c: Clan, id: string) {
    exists i :: 0 <= i < |c.members| && c.members[i].id == id
  }

  predicate NotId(id: string, m: ClanMember) { m.id != id }

  predicate IsBot(m: ClanMember) { m.isBot }

  /** `handleCreateClan`'s new clan: upper-cased name, empty bank, the founder as sole Owner member,
      the default roles and an empty feed. */
  function Found(id: string, name: string, ownerId: string, ownerName: string, rank: nat): (c: Clan)
    ensures WellFormed(c) && c.id == id && c.ownerId == ownerId && c.balance == 0
    ensures c.members == [ClanMember(ownerId, ownerName, "owner", rank, false)]
    ensures c.roles == DefaultClanRoles && c.feed == []
  {
    Clan(id, Text.ToUpper(name), ownerId, 0, 0, [ClanMember(ownerId, ownerName, "owner", rank, false)],
         DefaultClanRoles, [])
  }

  /** The single-clan mutations the handlers and the tick perform. */
  datatype ClanUpdate =
    | Credit(amount: nat)        // a deposit or a bot contribution
    | Debit(amount: nat)         // a withdrawal
    | Admit(member: ClanMember)  // the player joins
    | Enlist(bot: ClanMember)    // a recruited bot joins
    | Expel(memberId: string)    // the player leaves
    | Post(msg: Chat.ChatMessage)

  /** Applies one mutation; the balance always carries freshly recomputed clan points, joins respect
      the cap, and an enlisted bot is skipped when its name is taken. */
  function Apply(c: Clan, u: ClanUpdate): (r: Clan)
    ensures r.id == c.id && r.name == c.name && r.ownerId == c.ownerId && r.roles == c.roles
    ensures WellFormed(c) && (u.Debit? ==> u.amount <= c.balance) ==> WellFormed(r)
    ensures u.Credit? ==> r.balance == c.balance + u.amount
    ensures u.Debit? ==> r.balance == c.balance - u.amount
    ensures !u.Credit? && !u.Debit? ==> r.balance == c.balance
    ensures !u.Post? ==> r.feed == c.feed
  {
    match u
    case Credit(a) => c.(balance := c.balance + a, clanPoints := ClanPointsOf(c.balance + a))
    case Debit(a) => c.(balance := c.balance - a, clanPoints := ClanPointsOf(c.balance - a))
    case Admit(m) => if |c.members| < MaxMembers then c.(members := c.members + [m]) else c
    case Enlist(b) =>
      if |c.members| < MaxMembers && !HasMemberNamed(c, b.name) then c.(members := c.members + [b]) else c
    case Expel(id) => c.(members := Seqs.Filter(c.members, m => NotId(id, m)))
    case Post(msg) => c.(feed := Chat.AppendBounded(c.feed, msg))
  }

  /** Bank updates move the balance by exactly the amount and keep `clanPoints == floor(balance/250)`. */
  lemma BankUpdateKeepsPoints(c: Clan, a: nat)
    ensures var r := Apply(c, Credit(a));
            r.balance == c.balance + a && r.members == c.members
            && r.clanPoints * BankUnit <= r.balance < (r.clanPoints + 1) * BankUnit
    ensures var r := Apply(c, Debit(a));
            r.balance == c.balance - a && r.members == c.members
            && r.clanPoints * BankUnit <= r.balance < (r.clanPoints + 1) * BankUnit
  {
  }

  /** Depositing and then withdrawing the same amount (no multiplier) restores the clan exactly. */
  lemma DepositWithdrawRoundTrip(c: Clan, a: nat)
    requires WellFormed(c)
    ensures Apply(Apply(c, Credit(a)), Debit(a)) == c
  {
  }

  /** A join adds exactly the joiner, and only below the cap. */
  lemma AdmitRespectsCap(c: Clan, m: ClanMember)
    ensures Apply(c, Admit(m)).members == if |c.members| < MaxMembers then c.members + [m] else c.members
    ensures |c.members| <= MaxMembers ==> |Apply(c, Admit(m)).members| <= MaxMembers
  {
  }

  /** A recruit is added only below the cap and only when no member already has its name. */
  lemma EnlistSkipsTakenNames(c: Clan, b: ClanMember)
    ensures Apply(c, Enlist(b)).members ==
            if |c.members| < MaxMembers && !HasMemberNamed(c, b.name) then c.members + [b] else c.members
    ensures HasMemberNamed(c, b.name) ==> Apply(c, Enlist(b)) == c
  {
  }

  /** Leaving removes exactly the members carrying the leaver's id; every other member stays. */
  lemma ExpelRemovesExactly(c: Clan, id: string)
    ensures !HasMemberWithId(Apply(c, Expel(id)), id)
    ensures forall m :: multiset(Apply(c, Expel(id)).members)[m] == if m.id == id then 0 else multiset(c.members)[m]
  {
    var r := Apply(c, Expel(id));
    forall i | 0 <= i < |r.members| ensures r.members[i].id != id {
      assert r.members[i] in r.members;
    }
  }

  /** The clan with the given id, as in `clans.find(c => c.id === id)`. */
  function FindClan(clans: seq<Clan>, id: string): (r: Option<nat>)
    ensures r.Some? ==> r.value < |clans| && clans[r.value].id == id
                        && forall j :: 0 <= j < r.value ==> clans[j].id != id
    ensures r.None? ==> forall i :: 0 <= i < |clans| ==> clans[i].id != id
  {
    Seqs.FindFirst(clans, (c: Clan) => c.id == id)
  }

  /** Two registries with the same ids in the same order answer every lookup alike. */
  lemma SameIdsSameLookup(a: seq<Clan>, b: seq<Clan>)
    requires |a| == |b| && forall i :: 0 <= i < |a| ==> a[i].id == b[i].id
    ensures forall id :: FindClan(a, id) == FindClan(b, id)
    ensures UniqueIds(a) <==> UniqueIds(b)
  {
    forall id ensures FindClan(a, id) == FindClan(b, id) {
      var ra, rb := FindClan(a, id), FindClan(b, id);
    }
  }

  /** `prev.map(c => c.id === id ? update(c) : c)`. */
  function UpdateWhere(clans: seq<Clan>, id: string, u: ClanUpdate): (r: seq<Clan>)
    ensures |r| == |clans|
    ensures forall i :: 0 <= i < |clans| ==> r[i] == if clans[i].id == id then Apply(clans[i], u) else clans[i]
    ensures forall i :: 0 <= i < |clans| ==> r[i].id == clans[i].id && r[i].ownerId == clans[i].ownerId
    ensures UniqueIds(r) <==> UniqueIds(clans)
    ensures forall k :: FindClan(r, k) == FindClan(clans, k)
  {
    var r := seq(|clans|, i requires 0 <= i < |clans| => if clans[i].id == id then Apply(clans[i], u) else clans[i]);
    SameIdsSameLookup(r, clans);
    r
  }

  /** Every registry-wide update keeps ids unique and every clan well formed (a withdrawal needs the
      targeted clan's balance to cover it). */
  lemma UpdateWhereKeepsInvariants(clans: seq<Clan>, id: string, u: ClanUpdate)
    requires AllWellFormed(clans) && UniqueIds(clans)
    requires u.Debit? ==> forall i :: 0 <= i < |clans| && clans[i].id == id ==> u.amount <= clans[i].balance
    ensures AllWellFormed(UpdateWhere(clans, id, u)) && UniqueIds(UpdateWhere(clans, id, u))
  {
    var r := UpdateWhere(clans, id, u);
    forall i | 0 <= i < |r| ensures WellFormed(r[i]) {
      assert WellFormed(clans[i]);
    }
  }

  /** A new clan whose id is not taken keeps the registry's invariants. */
  lemma AddKeepsInvariants(clans: seq<Clan>, c: Clan)
    requires AllWellFormed(clans) && UniqueIds(clans) && WellFormed(c)
    requires FindClan(clans, c.id).None?
    ensures AllWellFormed(clans + [c]) && UniqueIds(clans + [c])
  {
  }

  /** The role held by the first member with id `actor`, looked up as the first role with that id. */
  function RoleOf(c: Clan, actor: string): (r: Option<ClanRole>)
    ensures r.Some? ==> r.value in c.roles && HasMemberWithId(c, actor)
    ensures !HasMemberWithId(c, actor) ==> r.None?
    ensures r.Some? ==> exists i :: 0 <= i < |c.members| && c.members[i].id == actor
                                    && (forall k :: 0 <= k < i ==> c.members[k].id != actor)
                                    && r.value.id == c.members[i].roleId
    ensures r.Some? ==> exists j :: 0 <= j < |c.roles| && c.roles[j] == r.value
                                    && forall k :: 0 <= k < j ==> c.roles[k].id != r.value.id
    ensures forall i :: 0 <= i < |c.members| && c.members[i].id == actor
                        && (forall k :: 0 <= k < i ==> c.members[k].id != actor)
                        && (exists j :: 0 <= j < |c.roles| && c.roles[j].id == c.members[i].roleId)
                        ==> r.Some?
  {
    match Seqs.FindFirst(c.members, (m: ClanMember) => m.id == actor)
    case None => None
    case Some(i) =>
      match Seqs.FindFirst(c.roles, (role: ClanRole) => role.id == c.members[i].roleId)
      case None => None
      case Some(j) => Some(c.roles[j])
  }

  /** The withdraw check: the owner always may; anyone else only through a role granting `withdraw`. */
  predicate CanWithdraw(c: Clan, actor: string): (b: bool)
    ensures c.ownerId == actor ==> b
    ensures b ==> c.ownerId == actor || HasMemberWithId(c, actor)
    ensures (forall role :: role in c.roles ==> Withdraw !in role.permissions) ==> (b <==> c.ownerId == actor)
  {
    c.ownerId == actor || (RoleOf(c, actor).Some? && Withdraw in RoleOf(c, actor).value.permissions)
  }

  /** Under the default roles, withdrawing is open to the owner and to members whose role is Commander
      ('owner') or Officer ('admin'), and closed to Agents ('member') and non-members. */
  lemma DefaultRolesGrantWithdraw(c: Clan, actor: string)
    requires c.roles == DefaultClanRoles
    ensures CanWithdraw(c, actor) <==>
            c.ownerId == actor ||
            exists i :: 0 <= i < |c.members| && c.members[i].id == actor
                        && (forall j :: 0 <= j < i ==> c.members[j].id != actor)
                        && (c.members[i].roleId == "owner" || c.members[i].roleId == "admin")
  {
    match Seqs.FindFirst(c.members, (m: ClanMember) => m.id == actor)
    case None =>
    case Some(i) =>
      var rid := c.members[i].roleId;
      assert DefaultClanRoles[0].id == "owner" && DefaultClanRoles[1].id == "admin";
      assert DefaultClanRoles[2].id == "member";
      if rid == "owner" {
        assert Seqs.FindFirst(c.roles, (role: ClanRole) => role.id == rid) == Some(0);
      } else if rid == "admin" {
        assert Seqs.FindFirst(c.roles, (role: ClanRole) => role.id == rid) == Some(1);
      } else if rid == "member" {
        assert Seqs.FindFirst(c.roles, (role: ClanRole) => role.id == rid) == Some(2);
      } else {
        assert Seqs.FindFirst(c.roles, (role: ClanRole) => role.id == rid) == None;
      }
      forall k | 0 <= k < |c.members| && c.members[k].id == actor
                 && (forall j :: 0 <= j < k ==> c.members[j].id != actor)
        ensures k == i
      {
      }
  }

  /** In a fresh clan the founder, and only the founder, may withdraw. */
  lemma FounderMayWithdraw(id: string, name: string, owner: string, ownerName: string, rank: nat)
    ensures forall actor :: CanWithdraw(Found(id, name, owner, ownerName, rank), actor) <==> actor == owner
  {
    var c := Found(id, name, owner, ownerName, rank);
    forall actor | actor != owner ensures !CanWithdraw(c, actor) {
      assert !HasMemberWithId(c, actor);
    }
  }

  /** The random draws one tick makes for one clan: whether the bots contribute, whether one of them
      posts, which bot (taken modulo the number of bots), and the canned text it posts. */
  datatype BotRoll = BotRoll(contribute: bool, post: bool, pick: nat, text: string)

  /** The message a bot posts to its clan's feed on a tick. */
  function BotMessage(bot: ClanMember, roll: BotRoll, now: nat): (m: Chat.ChatMessage)
    ensures m.sender == bot.name && !m.isUser && m.rank == bot.rank && m.text == roll.text
    ensures m.timestamp == now && m.clanIdToJoin.None?
    ensures |m.id| > |bot.name| && m.id[|m.id| - |bot.name|..] == bot.name
  {
    Chat.ChatMessage(Text.NatToString(now) + bot.name, bot.name, roll.text, bot.rank, false, now, None)
  }

  /** One clan's bot activity on a tick at time `now`. */
  function BotStep(c: Clan, roll: BotRoll, now: nat): (r: Clan)
    ensures WellFormed(c) ==> WellFormed(r)
    ensures r.id == c.id && r.members == c.members && r.ownerId == c.ownerId && r.roles == c.roles
    ensures var bots := Seqs.Filter(c.members, IsBot);
            r.balance == c.balance + (if |bots| > 0 && roll.contribute then BotContribution * |bots| else 0)
  {
    var bots := Seqs.Filter(c.members, IsBot);
    if |bots| == 0 then c
    else
      var funded := if roll.contribute then Apply(c, Credit(BotContribution * |bots|)) else c;
      if roll.post then Apply(funded, Post(BotMessage(bots[roll.pick % |bots|], roll, now)))
      else funded
  }

  /** Only bots speak on a tick: when the feed changes, the post was drawn and the newest message comes
      from a bot member of the clan. */
  lemma BotPostsComeFromBots(c: Clan, roll: BotRoll, now: nat)
    ensures var r := BotStep(c, roll, now);
            r.feed != c.feed ==>
              && roll.post && |r.feed| > 0
              && exists m :: m in c.members && m.isBot && r.feed[|r.feed| - 1].sender == m.name
  {
    var bots := Seqs.Filter(c.members, IsBot);
    if |bots| > 0 && roll.post {
      var funded := if roll.contribute then Apply(c, Credit(BotContribution * |bots|)) else c;
      var bot := bots[roll.pick % |bots|];
      assert bot in c.members && bot.isBot;
      Chat.FeedStaysBounded(funded.feed, BotMessage(bot, roll, now));
    }
  }

  /** Bot activity for every clan of the registry on one tick; `rolls[k]` is clan `k`'s roll. */
  function StepAll(clans: seq<Clan>, rolls: seq<BotRoll>, now: nat): (r: seq<Clan>)
    requires |rolls| == |clans|
    ensures |r| == |clans|
    ensures forall k :: 0 <= k < |clans| ==> r[k] == BotStep(clans[k], rolls[k], now)
    ensures forall k :: 0 <= k < |clans| ==>
              && r[k].id == clans[k].id && r[k].members == clans[k].members && r[k].roles == clans[k].roles
              && r[k].balance >= clans[k].balance
    ensures UniqueIds(r) <==> UniqueIds(clans)
    ensures forall id :: FindClan(r, id) == FindClan(clans, id)
  {
    var r := seq(|clans|, k requires 0 <= k < |clans| => BotStep(clans[k], rolls[k], now));
    SameIdsSameLookup(r, clans);
    r
  }

  /** A tick of bot activity keeps every clan well formed and ids unique. */
  lemma StepAllKeepsInvariants(clans: seq<Clan>, rolls: seq<BotRoll>, now: nat)
    requires |rolls| == |clans| && AllWellFormed(clans) && UniqueIds(clans)
    ensures AllWellFormed(StepAll(clans, rolls, now)) && UniqueIds(StepAll(clans, rolls, now))
  {
    var r := StepAll(clans, rolls, now);
    forall k | 0 <= k < |r| ensures WellFormed(r[k]) {
      assert WellFormed(clans[k]);
    }
  }
}
