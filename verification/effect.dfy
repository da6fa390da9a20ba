/**
 * An effect: an immutable description of a buff or debuff (name, description,
 * duration in seconds, the stat it targets and an optional multiplier and amount),
 * plus an `activeTime` counter that a one-second timer bumps by one.
 *
 * The timer itself is not modelled; each firing of it is one `EffectTick` step.
 */
module Effects {
  import opened Wrappers

  /** The stat an effect affects: the six tags of the `effectType` union. */
  datatype EffectType =
    | BaseDamage
    | BaseHealth
    | DamageMultiplier
    | HealthRegenBase
    | HealthRegenMultiplier
    | ResistanceMultiplier

  /** The string literal a tag is spelled as in the source. */
  function TagName(t: EffectType): string
  {
    match t
    case BaseDamage => "baseDamage"
    case BaseHealth => "baseHealth"
    case DamageMultiplier => "damageMultiplier"
    case HealthRegenBase => "healthRegenBase"
    case HealthRegenMultiplier => "healthRegenMultiplier"
    case ResistanceMultiplier => "resistanceMultiplier"
  }

  /** Reads a tag from its string spelling; any other string is not an effect type. */
  function ParseEffectType(s: string): (r: Option<EffectType>)
    ensures r.Some? ==> TagName(r.value) == s
    ensures r.None? ==> forall t: EffectType :: TagName(t) != s
  {
    if s == "baseDamage" then Some(BaseDamage)
    else if s == "baseHealth" then Some(BaseHealth)
    else if s == "damageMultiplier" then Some(DamageMultiplier)
    else if s == "healthRegenBase" then Some(HealthRegenBase)
    else if s == "healthRegenMultiplier" then Some(HealthRegenMultiplier)
    else if s == "resistanceMultiplier" then Some(ResistanceMultiplier)
    else None
  }

  /** Every tag survives a trip through its string spelling, so the spellings are pairwise distinct. */
  lemma TagNameRoundTrip(t: EffectType)
    ensures ParseEffectType(TagName(t)) == Some(t)
  {
  }

  /** Exactly six strings are effect types. */
  lemma SixEffectTypes()
    ensures |set t: EffectType | true :: TagName(t)| == 6
  {
    var names := set t: EffectType | true :: TagName(t);
    assert names == {"baseDamage", "baseHealth", "damageMultiplier",
                     "healthRegenBase", "healthRegenMultiplier", "resistanceMultiplier"} by {
      forall s | s in names
        ensures s in {"baseDamage", "baseHealth", "damageMultiplier",
                      "healthRegenBase", "healthRegenMultiplier", "resistanceMultiplier"}
      {
        var t: EffectType :| TagName(t) == s;
      }
      assert TagName(BaseDamage) in names;
      assert TagName(BaseHealth) in names;
      assert TagName(DamageMultiplier) in names;
      assert TagName(HealthRegenBase) in names;
      assert TagName(HealthRegenMultiplier) in names;
      assert TagName(ResistanceMultiplier) in names;
    }
  }

  /** The `effectOptions` argument: a type tag and two independently optional magnitudes. */
  datatype EffectOptions = EffectOptions(
    kind: EffectType,
    multiplier: Option<real>,
    amount: Option<real>)

  datatype Effect = Effect(
    name: string,
    description: string,
    duration: int,
    kind: EffectType,
    multiplier: Option<real>,
    amount: Option<real>,
    activeTime: nat)

  /** The options an effect was built from. */
  function OptionsOf(e: Effect): EffectOptions
  {
    EffectOptions(e.kind, e.multiplier, e.amount)
  }

  /** Two effects describe the same buff: they differ at most in their elapsed active time. */
  predicate SameDefinition(a: Effect, b: Effect)
  {
    && a.name == b.name
    && a.description == b.description
    && a.duration == b.duration
    && a.kind == b.kind
    && a.multiplier == b.multiplier
    && a.amount == b.amount
  }

  /** The constructor: copies its arguments and the options' fields, and starts the clock at zero. */
  function NewEffect(name: string, description: string, duration: int, options: EffectOptions): (e: Effect)
    ensures e.name == name && e.description == description && e.duration == duration
    ensures OptionsOf(e) == options
    ensures e.activeTime == 0
  {
    Effect(name, description, duration, options.kind, options.multiplier, options.amount, 0)
  }

  /** Two effects built from the same arguments are the same effect. */
  lemma NewEffectInjective(n1: string, d1: string, t1: int, o1: EffectOptions,
                           n2: string, d2: string, t2: int, o2: EffectOptions)
    requires NewEffect(n1, d1, t1, o1) == NewEffect(n2, d2, t2, o2)
    ensures n1 == n2 && d1 == d2 && t1 == t2 && o1 == o2
  {
    assert OptionsOf(NewEffect(n1, d1, t1, o1)) == o1;
    assert OptionsOf(NewEffect(n2, d2, t2, o2)) == o2;
  }

  /** One firing of the one-second timer. */
  function EffectTick(e: Effect): (e': Effect)
    ensures e'.activeTime == e.activeTime + 1
    ensures SameDefinition(e, e')
  {
    e.(activeTime := e.activeTime + 1)
  }

  /** `n` firings of the timer in a row. */
  function EffectTicks(e: Effect, n: nat): (e': Effect)
    ensures e'.activeTime == e.activeTime + n
    ensures SameDefinition(e, e')
    decreases n
  {
    if n == 0 then e else EffectTick(EffectTicks(e, n - 1))
  }

  /** After `n` ticks a new effect has been active for exactly `n` seconds and is otherwise as built. */
  lemma TicksOnNewEffect(name: string, description: string, duration: int, options: EffectOptions, n: nat)
    ensures EffectTicks(NewEffect(name, description, duration, options), n)
         == NewEffect(name, description, duration, options).(activeTime := n)
  {
  }

  /** Ticking `m` then `n` times is ticking `m + n` times. */
  lemma EffectTicksCompose(e: Effect, m: nat, n: nat)
    ensures EffectTicks(EffectTicks(e, m), n) == EffectTicks(e, m + n)
  {
  }

  /** The active time never goes backwards. */
  lemma ActiveTimeMonotone(e: Effect, m: nat, n: nat)
    requires m <= n
    ensures EffectTicks(e, m).activeTime <= EffectTicks(e, n).activeTime
  {
  }
}
