/**
 * The repository's preset entities and effects, as plain values built through the
 * core constructors, with a few worked examples of the core's behaviour on them.
 */
module Presets {
  import opened Wrappers
  import opened Effects
  import opened Entities

  /** A player: 100 health, base damage 5, regenerating 10 idle and 2 in combat every minute. */
  function Player(name: string): (e: Entity)
    ensures e.name == name && e.maxHp == 100 && e.health == 100 && e.baseDamage == 5.0
    ensures e.regen == HpRegen(10, 2, 60000) && !e.inCombat && e.effects == []
  {
    NewEntity(name, 100, 5.0, HpRegen(10, 2, 60000))
  }

  /** "Toughness 1": a one-minute resistance effect whose factor sits in `multiplier`. */
  function Resistance1(): (e: Effect)
    ensures e.name == "Toughness 1" && e.duration == 60 && e.kind == ResistanceMultiplier
    ensures e.multiplier == Some(0.9) && e.amount == None && e.activeTime == 0
  {
    NewEffect("Toughness 1", "Decrease the damage you take by 10% for 1 minute.", 60,
      EffectOptions(ResistanceMultiplier, Some(0.9), None))
  }

  /** "Health Regeneration Boost 1": a one-hour regeneration multiplier of 1.5. */
  function HealthRegen1(): (e: Effect)
    ensures e.name == "Health Regeneration Boost 1" && e.duration == 3600 && e.kind == HealthRegenMultiplier
    ensures e.multiplier == Some(1.5) && e.amount == None && e.activeTime == 0
  {
    NewEffect("Health Regeneration Boost 1", "Increase your health regeneration by 50% for 1 hour.", 3600,
      EffectOptions(HealthRegenMultiplier, Some(1.5), None))
  }

  /** The rock monster: built, then handed `Resistance1`, which the empty `applyEffect` drops. */
  function RockMonster(): (e: Entity)
    ensures e.name == "Simple Rock Monster" && e.maxHp == 10 && e.health == 10 && e.baseDamage == 0.5
    ensures e.regen == HpRegen(2, 0, 60000) && !e.inCombat && e.effects == []
  {
    ApplyEffect(NewEntity("Simple Rock Monster", 10, 0.5, HpRegen(2, 0, 60000)), Resistance1())
  }

  /** A player hit for twice its maximum drops to exactly zero and the next idle tick brings it back to 10. */
  lemma PlayerOverkillThenRegen()
    ensures GainHealth(Player("p"), -200).1 == 0
    ensures RegenTick(GainHealth(Player("p"), -200).0).health == 10
  {
  }

  /** Healing a full player is capped at its maximum. */
  lemma PlayerHealCapped()
    ensures GainHealth(Player("p"), 25).1 == 100
  {
  }

  /** An hour of ticks later the regeneration boost still holds the same definition: nothing expires it. */
  lemma HealthRegen1AfterAnHour()
    ensures EffectTicks(HealthRegen1(), 3600).activeTime == 3600
    ensures SameDefinition(HealthRegen1(), EffectTicks(HealthRegen1(), 3600))
    ensures EffectTicks(HealthRegen1(), 3600).amount.None?
  {
    var e := EffectTicks(HealthRegen1(), 3600);
    assert e.activeTime == HealthRegen1().activeTime + 3600;
  }
}
