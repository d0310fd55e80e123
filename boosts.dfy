/** Timed lab effects: which are active at a moment, the expiry sweep, passive income and click power. */
module Boosts {
  import Seqs

  /** The boost identifiers the engine creates: the seven lab items (and radium again from a code). */
  datatype BoostKind = Barium | Radium | Xenon | Iridium | Cobalt | Plutonium | Antimatter

  /** `{id, endTime}`; duplicates of one kind are allowed. */
  datatype ActiveBoost = ActiveBoost(kind: BoostKind, endTime: int)

  /** One lab offer: the cost in points and the duration in milliseconds. */
  datatype LabItem = LabItem(kind: BoostKind, cost: nat, duration: nat)

  const LabCatalog: seq<LabItem> := [
    LabItem(Barium, 150, 60000), LabItem(Radium, 500, 60000), LabItem(Xenon, 1200, 3600000),
    LabItem(Iridium, 2000, 60000), LabItem(Cobalt, 3500, 60000), LabItem(Plutonium, 6000, 60000),
    LabItem(Antimatter, 15000, 60000)
  ]

  /** Passive income per tick of each collector kind. */
  const BariumRate: nat := 5
  const PlutoniumRate: nat := 15
  const AntimatterRate: nat := 100

  /** `boosts.find(b => b.id === kind && b.endTime > now)` is truthy. */
  predicate IsActive(boosts: seq<ActiveBoost>, kind: BoostKind, now: int): (b: bool)
    ensures b ==> exists x :: x in boosts && x.kind == kind && x.endTime > now
  {
    exists i :: 0 <= i < |boosts| && boosts[i].kind == kind && boosts[i].endTime > now
  }

  /** The existential reading of `IsActive` agrees with the source's `find(...)` being truthy. */
  lemma ActiveIsFind(boosts: seq<ActiveBoost>, kind: BoostKind, now: int)
    ensures IsActive(boosts, kind, now)
            <==> Seqs.FindFirst(boosts, (x: ActiveBoost) => x.kind == kind && x.endTime > now).Some?
  {
  }

  predicate Unexpired(now: int, b: ActiveBoost) { b.endTime > now }

  /** The tick's `prev.filter(b => b.endTime > now)`. */
  function SweepExpired(boosts: seq<ActiveBoost>, now: int): (r: seq<ActiveBoost>)
    ensures forall b :: b in r <==> b in boosts && b.endTime > now
    ensures forall b :: multiset(r)[b] == if b.endTime > now then multiset(boosts)[b] else 0
  {
    Seqs.Filter(boosts, b => Unexpired(now, b))
  }

  /** Sweeping at `now` loses no boost that is active at `now` or later. */
  lemma SweepKeepsActive(boosts: seq<ActiveBoost>, now: int, kind: BoostKind, t: int)
    requires now <= t
    ensures IsActive(SweepExpired(boosts, now), kind, t) == IsActive(boosts, kind, t)
  {
    var r := SweepExpired(boosts, now);
    if IsActive(boosts, kind, t) {
      var i :| 0 <= i < |boosts| && boosts[i].kind == kind && boosts[i].endTime > t;
      assert boosts[i] in r;
      var j :| 0 <= j < |r| && r[j] == boosts[i];
    }
    if IsActive(r, kind, t) {
      var j :| 0 <= j < |r| && r[j].kind == kind && r[j].endTime > t;
      assert r[j] in boosts;
      var i :| 0 <= i < |boosts| && boosts[i] == r[j];
    }
  }

  predicate OtherKind(kind: BoostKind, b: ActiveBoost) { b.kind != kind }

  /** `prev.filter(b => b.id !== kind)`: consumes every entry of one kind, expired or not. */
  function RemoveKind(boosts: seq<ActiveBoost>, kind: BoostKind): (r: seq<ActiveBoost>)
    ensures forall b :: b in r ==> b.kind != kind
    ensures forall b :: multiset(r)[b] == if b.kind == kind then 0 else multiset(boosts)[b]
    ensures forall k, t :: k != kind ==> (IsActive(r, k, t) <==> IsActive(boosts, k, t))
  {
    var r := Seqs.Filter(boosts, b => OtherKind(kind, b));
    forall k, t | k != kind ensures IsActive(r, k, t) <==> IsActive(boosts, k, t) {
      if IsActive(boosts, k, t) {
        var i :| 0 <= i < |boosts| && boosts[i].kind == k && boosts[i].endTime > t;
        assert boosts[i] in r;
        var j :| 0 <= j < |r| && r[j] == boosts[i];
      }
      if IsActive(r, k, t) {
        var j :| 0 <= j < |r| && r[j].kind == k && r[j].endTime > t;
        assert r[j] in boosts;
        var i :| 0 <= i < |boosts| && boosts[i] == r[j];
      }
    }
    r
  }

  /** The tick's `autoRate`: each collector kind that is active contributes its rate once. */
  function PassiveIncome(boosts: seq<ActiveBoost>, now: int): (r: nat)
    ensures r <= BariumRate + PlutoniumRate + AntimatterRate
    ensures r == 0 <==> !IsActive(boosts, Barium, now) && !IsActive(boosts, Plutonium, now)
                        && !IsActive(boosts, Antimatter, now)
  {
    (if IsActive(boosts, Barium, now) then BariumRate else 0)
    + (if IsActive(boosts, Plutonium, now) then PlutoniumRate else 0)
    + (if IsActive(boosts, Antimatter, now) then AntimatterRate else 0)
  }

  /** The tick computes income from the list before its sweep; the swept list yields the same income. */
  lemma IncomeIgnoresSweep(boosts: seq<ActiveBoost>, now: int)
    ensures PassiveIncome(SweepExpired(boosts, now), now) == PassiveIncome(boosts, now)
  {
    SweepKeepsActive(boosts, now, Barium, now);
    SweepKeepsActive(boosts, now, Plutonium, now);
    SweepKeepsActive(boosts, now, Antimatter, now);
  }

  /** A second, still-active copy of a kind that is already active adds nothing: deploys do not stack. */
  lemma DuplicateDoesNotStack(boosts: seq<ActiveBoost>, b: ActiveBoost, now: int)
    requires IsActive(boosts, b.kind, now)
    ensures PassiveIncome(boosts + [b], now) == PassiveIncome(boosts, now)
  {
    forall k ensures IsActive(boosts + [b], k, now) == IsActive(boosts, k, now) {
      if IsActive(boosts + [b], k, now) {
        var i :| 0 <= i < |boosts + [b]| && (boosts + [b])[i].kind == k && (boosts + [b])[i].endTime > now;
        if i < |boosts| { assert boosts[i] == (boosts + [b])[i]; }
      }
      if IsActive(boosts, k, now) {
        var i :| 0 <= i < |boosts| && boosts[i].kind == k && boosts[i].endTime > now;
        assert (boosts + [b])[i] == boosts[i];
      }
    }
  }

  /** `clickPower`: `1 + 2 * prestige`, doubled while radium is active. */
  function ClickPower(prestige: nat, boosts: seq<ActiveBoost>, now: int): (r: nat)
    ensures r >= 1 + 2 * prestige
    ensures r % 2 == 1 <==> !IsActive(boosts, Radium, now)
  {
    (1 + prestige * 2) * (if IsActive(boosts, Radium, now) then 2 else 1)
  }

  /** Each ascension raises the click yield by 2, or by 4 while radium is active. */
  lemma ClickPowerGrowsWithPrestige(prestige: nat, boosts: seq<ActiveBoost>, now: int)
    ensures ClickPower(prestige + 1, boosts, now)
            == ClickPower(prestige, boosts, now) + (if IsActive(boosts, Radium, now) then 4 else 2)
  {
  }
}
