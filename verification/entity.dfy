/**
 * A combatant: name, maximum and current health, base damage, the combat flag and
 * a list of held effects, with `gainHealth` as the one place health changes.
 *
 * The periodic regeneration timer is not modelled as a timer; each firing of it is
 * one `RegenTick` step. The regeneration configuration the timer's callback closes
 * over is kept in the `regen` field.
 */
module Entities {
  import opened Effects

  /** The `hpRegen` argument: health gained per firing out of and in combat, and the period in milliseconds. */
  datatype HpRegen = HpRegen(idle: int, combat: int, interval: int)

  datatype Entity = Entity(
    name: string,
    maxHp: int,
    health: int,
    baseDamage: real,
    regen: HpRegen,
    inCombat: bool,
    effects: seq<Effect>)

  function Min(a: int, b: int): int { if a <= b then a else b }
  function Max(a: int, b: int): int { if a <= b then b else a }

  /** The health bound every well-formed entity keeps. */
  predicate InBounds(e: Entity)
  {
    0 <= e.health <= e.maxHp
  }

  /** `b` is `a` with at most its health changed. */
  predicate SameExceptHealth(a: Entity, b: Entity)
  {
    && a.name == b.name
    && a.maxHp == b.maxHp
    && a.baseDamage == b.baseDamage
    && a.regen == b.regen
    && a.inCombat == b.inCombat
    && a.effects == b.effects
  }

  /** The constructor: full health, out of combat, holding no effects. */
  function NewEntity(name: string, maxHp: int, baseDamage: real, regen: HpRegen): (e: Entity)
    ensures e.name == name && e.maxHp == maxHp && e.baseDamage == baseDamage && e.regen == regen
    ensures e.health == e.maxHp
    ensures !e.inCombat
    ensures e.effects == []
    ensures maxHp >= 0 <==> InBounds(e)
  {
    Entity(name, maxHp, maxHp, baseDamage, regen, false, [])
  }

  /**
   * `gainHealth(amount = 0)`: adds `amount`, caps the sum at `maxHp`, then raises
   * anything at or below zero to zero, and returns the entity with the new health
   * together with that health (the source's return value).
   */
  function GainHealth(e: Entity, amount: int := 0): (r: (Entity, int))
    ensures r.1 == r.0.health
    ensures r.0.health == Max(0, Min(e.health + amount, e.maxHp))
    ensures r.0.health >= 0
    ensures e.health + amount <= 0 ==> r.0.health == 0
    ensures e.maxHp <= 0 ==> r.0.health == 0
    ensures e.maxHp >= 0 ==> InBounds(r.0)
    ensures SameExceptHealth(e, r.0)
  {
    var sum := e.health + amount;
    var capped := if sum > e.maxHp then e.maxHp else sum;
    var stored := if capped <= 0 then 0 else capped;
    (e.(health := stored), stored)
  }

  /** With the default amount, an in-bounds entity is left exactly as it was. */
  lemma DefaultGainIsNoOp(e: Entity)
    requires InBounds(e)
    ensures GainHealth(e).0 == e
    ensures GainHealth(e).1 == e.health
  {
  }

  /** A default-amount call after any call changes nothing more. */
  lemma DefaultGainIdempotent(e: Entity, amount: int)
    ensures GainHealth(GainHealth(e, amount).0).0 == GainHealth(e, amount).0
  {
  }

  /** Health is not latched at zero: a later positive gain raises it again. */
  lemma NoDeathLatch(e: Entity, amount: int)
    requires e.health == 0 && e.maxHp > 0 && amount > 0
    ensures GainHealth(e, amount).0.health == Min(amount, e.maxHp)
    ensures GainHealth(e, amount).0.health > 0
  {
  }

  /** A larger gain never leaves less health. */
  lemma GainHealthMonotone(e: Entity, a: int, b: int)
    requires a <= b
    ensures GainHealth(e, a).0.health <= GainHealth(e, b).0.health
  {
  }

  /** Calls `gainHealth` with each amount in turn. */
  function GainAll(e: Entity, amounts: seq<int>): Entity
    decreases |amounts|
  {
    if |amounts| == 0 then e else GainAll(GainHealth(e, amounts[0]).0, amounts[1..])
  }

  /** Any sequence of `gainHealth` calls keeps the health bound and touches nothing but health. */
  lemma {:induction false} GainAllPreservesBounds(e: Entity, amounts: seq<int>)
    requires InBounds(e)
    ensures InBounds(GainAll(e, amounts))
    ensures SameExceptHealth(e, GainAll(e, amounts))
    decreases |amounts|
  {
    if |amounts| > 0 {
      GainAllPreservesBounds(GainHealth(e, amounts[0]).0, amounts[1..]);
    }
  }

  /** The amount a regeneration tick grants: the combat rate in combat, the idle rate otherwise. */
  function RegenAmount(e: Entity): int
  {
    if e.inCombat then e.regen.combat else e.regen.idle
  }

  /**
   * One firing of the regeneration timer. It reads `inCombat` when it fires and
   * routes the chosen rate through `GainHealth`; a negative rate is applied too.
   */
  function RegenTick(e: Entity): (e': Entity)
    ensures e.inCombat ==> e' == GainHealth(e, e.regen.combat).0
    ensures !e.inCombat ==> e' == GainHealth(e, e.regen.idle).0
    ensures e.maxHp >= 0 ==> InBounds(e')
    ensures SameExceptHealth(e, e')
    ensures InBounds(e) && e.health > 0 && RegenAmount(e) < 0 ==> e'.health < e.health
  {
    GainHealth(e, RegenAmount(e)).0
  }

  /** `n` firings of the regeneration timer in a row. */
  function RegenTicks(e: Entity, n: nat): Entity
    decreases n
  {
    if n == 0 then e else RegenTicks(RegenTick(e), n - 1)
  }

  /** `n` copies of `x`. */
  function Repeat(x: int, n: nat): (s: seq<int>)
    ensures |s| == n
    ensures forall i :: 0 <= i < n ==> s[i] == x
  {
    seq(n, _ => x)
  }

  /**
   * Since nothing changes `inCombat`, `n` regeneration ticks are exactly `n`
   * `gainHealth` calls with the rate the flag selects.
   */
  lemma {:induction false} RegenTicksAreGains(e: Entity, n: nat)
    ensures RegenTicks(e, n) == GainAll(e, Repeat(RegenAmount(e), n))
    decreases n
  {
    if n > 0 {
      var e1 := RegenTick(e);
      assert RegenAmount(e1) == RegenAmount(e);
      RegenTicksAreGains(e1, n - 1);
      assert Repeat(RegenAmount(e), n)[1..] == Repeat(RegenAmount(e), n - 1);
    }
  }

  /** Any number of regeneration ticks keeps the health bound and touches nothing but health. */
  lemma RegenTicksPreserveBounds(e: Entity, n: nat)
    requires InBounds(e)
    ensures InBounds(RegenTicks(e, n))
    ensures SameExceptHealth(e, RegenTicks(e, n))
  {
    RegenTicksAreGains(e, n);
    GainAllPreservesBounds(e, Repeat(RegenAmount(e), n));
  }

  /** `applyEffect` has an empty body: the entity, its effect list included, is unchanged. */
  function ApplyEffect(e: Entity, effect: Effect): (e': Entity)
    ensures e' == e
  {
    e
  }

  /** The operations the entity itself offers: a `gainHealth` call, a regeneration firing, an `applyEffect` call. */
  datatype Event =
    | Gain(amount: int)
    | Regen
    | Apply(effect: Effect)

  function Step(e: Entity, ev: Event): Entity
  {
    match ev
    case Gain(a) => GainHealth(e, a).0
    case Regen => RegenTick(e)
    case Apply(effect) => ApplyEffect(e, effect)
  }

  function Run(e: Entity, events: seq<Event>): Entity
    decreases |events|
  {
    if |events| == 0 then e else Run(Step(e, events[0]), events[1..])
  }

  /**
   * Under any sequence of `gainHealth` calls, regeneration firings and `applyEffect`
   * calls, an entity keeps the health bound and only its health changes: in
   * particular `inCombat` is never set and no effect is ever recorded.
   */
  lemma {:induction false} RunPreservesBounds(e: Entity, events: seq<Event>)
    requires InBounds(e)
    ensures InBounds(Run(e, events))
    ensures SameExceptHealth(e, Run(e, events))
    decreases |events|
  {
    if |events| > 0 {
      RunPreservesBounds(Step(e, events[0]), events[1..]);
    }
  }

  /**
   * A freshly built entity with a non-negative maximum stays out of combat, effect-free
   * and in bounds under any sequence of `gainHealth` calls, regeneration firings and
   * `applyEffect` calls.
   */
  lemma FreshEntityRun(name: string, maxHp: int, baseDamage: real, regen: HpRegen, events: seq<Event>)
    requires maxHp >= 0
    ensures var e := Run(NewEntity(name, maxHp, baseDamage, regen), events);
      && InBounds(e) && !e.inCombat && e.effects == [] && e.maxHp == maxHp
  {
    RunPreservesBounds(NewEntity(name, maxHp, baseDamage, regen), events);
  }
}
