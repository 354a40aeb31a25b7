/**
 * A model of the `Animal` agent of the Life-of-Py ecological simulation.
 *
 * The agent is a mutable record; its six behaviours (mate, eat, socialise,
 * move, die, rot) update it in place. Every random draw of the original is an
 * explicit parameter here, so each behaviour is a deterministic update:
 *   - the sex draw is a uniform value in [0, 1);
 *   - a normal sample with centre `c` and spread 0.95/6 is `c + (0.95/6) * z`
 *     for a supplied standard-normal deviate `z` (see `Normal`);
 *   - the mating draw `u` is uniform in [0, 1);
 *   - the socialising draw is uniform in [0, 2).
 *
 * The value-level functions below (`Socialised`, `Mated`, `Fed`, ...) are the
 * specification of the class methods: each method ends in the state that its
 * function computes from the old state.
 */
module Organisms {

  datatype Option<T> = None | Some(value: T)

  /** 'f' and 'm' in the original. */
  datatype Sex = Female | Male

  /** 'h'erbivore, 'c'arnivore, 'o'mnivore. */
  datatype Diet = Herbivore | Carnivore | Omnivore

  /** What an animal's own body counts as when eaten. */
  datatype FoodType = Meat | Plant

  /** Spread (standard deviation) of every normal draw of the agent. */
  const QualitySpread: real := 0.95 / 6.0

  /** Centre of the quality draw of an animal created without parents. */
  const DefaultQualityCentre: real := 0.5

  const InitialEnergy: real := 0.5

  /** Stress removed by one successful socialising encounter. */
  const IntercourseHeal: real := 0.5
  const SocialHeal: real := 0.2

  /** A snapshot of every field of an `Animal`. */
  datatype AnimalState = AnimalState(
    species: string,
    position: seq<real>,
    size: real,
    diet: Diet,
    alive: bool,
    sex: Sex,
    quality: real,
    age: int,
    energy: real,
    stress: real,
    matedRecently: bool,
    foodType: FoodType,
    pregnant: bool,
    rotAmount: real)

  // ---------------------------------------------------------------------
  // Draws and scalar rules
  // ---------------------------------------------------------------------

  /** Sex from a uniform draw: female when the draw reaches the ratio. */
  function SexFromDraw(draw: real, sexRatio: real): Sex
  {
    if draw >= sexRatio then Female else Male
  }

  /** A normal sample with the given centre and spread `QualitySpread`. */
  function Normal(centre: real, deviate: real): real
  {
    centre + QualitySpread * deviate
  }

  /** Centre of an offspring's quality draw: the mean of its parents. */
  function InheritedCentre(q0: real, q1: real): (c: real)
    ensures c - q0 == q1 - c
    ensures q0 <= q1 ==> q0 <= c <= q1
    ensures q1 <= q0 ==> q1 <= c <= q0
  {
    (q0 + q1) / 2.0
  }

  /** The absolute quality difference of two partners. */
  function QualityDiff(q0: real, q1: real): (d: real)
    ensures d >= 0.0
    ensures d == q0 - q1 || d == q1 - q0
  {
    if q0 >= q1 then q0 - q1 else q1 - q0
  }

  /** The mating chance: a normal sample centred at one minus the quality difference. */
  function MateChance(q0: real, q1: real, deviate: real): real
  {
    Normal(1.0 - QualityDiff(q0, q1), deviate)
  }

  /** Stress removed by a socialising encounter. */
  function HealAmount(intercourse: bool): (h: real)
    ensures h > 0.0
    ensures intercourse ==> h == 0.5
    ensures !intercourse ==> h == 0.2
  {
    if intercourse then IntercourseHeal else SocialHeal
  }

  /** Stress lowered by `heal`, floored at zero. */
  function Healed(stress: real, heal: real): (r: real)
    requires heal >= 0.0
    ensures r >= 0.0 && r >= stress - heal
    ensures r == 0.0 || r == stress - heal
    ensures stress >= 0.0 ==> r <= stress
  {
    if stress - heal > 0.0 then stress - heal else 0.0
  }

  /** Energy spent moving `distance` across a map of size `mapSize`. */
  function MoveCost(distance: real, mapSize: real, terrainModifier: real): real
    requires mapSize != 0.0
  {
    (distance / mapSize) * terrainModifier
  }

  /** The food value of a body: its size, less the part that has rotted. */
  function FoodValue(food: AnimalState): real
  {
    food.size * (1.0 - food.rotAmount)
  }

  /** Whether an animal of the given diet eats food of the given type. */
  predicate CanEat(diet: Diet, food: FoodType)
  {
    diet == Omnivore
    || (diet == Carnivore && food == Meat)
    || (diet == Herbivore && food == Plant)
  }

  // ---------------------------------------------------------------------
  // Behaviours on snapshots
  // ---------------------------------------------------------------------

  /** Whether a socialising encounter between `a` and `b` takes effect. */
  predicate SocialGate(a: AnimalState, b: AnimalState, draw: real)
  {
    a.species == b.species && draw >= a.stress + b.stress
  }

  /** `socialise` between two distinct animals `a` (self) and `b` (target). */
  function Socialised(a: AnimalState, b: AnimalState, intercourse: bool, draw: real): (r: (AnimalState, AnimalState))
    ensures r.0 == a.(stress := r.0.stress) && r.1 == b.(stress := r.1.stress)
    ensures !SocialGate(a, b, draw) ==> r == (a, b)
    ensures SocialGate(a, b, draw) ==> r.0.stress >= 0.0 && r.1.stress >= 0.0
    ensures SocialGate(a, b, draw) ==>
              r.0.stress == Healed(a.stress, HealAmount(intercourse))
              && r.1.stress == Healed(b.stress, HealAmount(intercourse))
    ensures a.stress >= 0.0 ==> r.0.stress <= a.stress
    ensures b.stress >= 0.0 ==> r.1.stress <= b.stress
  {
    if SocialGate(a, b, draw) then
      var heal := HealAmount(intercourse);
      (a.(stress := Healed(a.stress, heal)), b.(stress := Healed(b.stress, heal)))
    else
      (a, b)
  }

  /**
   * `socialise` of an animal with itself: the threshold is twice its stress,
   * and the second reduction applies to the already reduced value.
   */
  function SocialisedSelf(a: AnimalState, intercourse: bool, draw: real): (r: AnimalState)
    ensures r == a.(stress := r.stress)
    ensures !SocialGate(a, a, draw) ==> r == a
    ensures SocialGate(a, a, draw) ==> r.stress >= 0.0
    ensures SocialGate(a, a, draw) ==>
              r.stress == Healed(Healed(a.stress, HealAmount(intercourse)), HealAmount(intercourse))
    ensures a.stress >= 0.0 ==> r.stress <= a.stress
  {
    if SocialGate(a, a, draw) then
      var heal := HealAmount(intercourse);
      var once := Healed(a.stress, heal);
      a.(stress := Healed(once, heal))
    else
      a
  }

  /** Whether `mate` attempts anything at all: both alive and of one species. */
  predicate CanMate(a: AnimalState, b: AnimalState)
  {
    a.alive && b.alive && a.species == b.species
  }

  /** Whether `mate` between distinct animals conceives. */
  predicate Conceives(a: AnimalState, b: AnimalState, chanceDeviate: real, u: real)
  {
    CanMate(a, b) && a.sex != b.sex && u <= MateChance(a.quality, b.quality, chanceDeviate)
  }

  /** `mate` between two distinct animals `a` (self) and `b` (target). */
  function Mated(a: AnimalState, b: AnimalState, chanceDeviate: real, u: real, socialDraw: real): (r: (AnimalState, AnimalState))
    ensures r.0 == a.(stress := r.0.stress, pregnant := r.0.pregnant)
    ensures r.1 == b.(stress := r.1.stress, pregnant := r.1.pregnant)
    ensures !CanMate(a, b) ==> r == (a, b)
    ensures r.0.pregnant == (a.pregnant || (Conceives(a, b, chanceDeviate, u) && a.sex == Female))
    ensures r.1.pregnant == (b.pregnant || (Conceives(a, b, chanceDeviate, u) && b.sex == Female))
    ensures var s := Socialised(a, b, true, socialDraw);
            if CanMate(a, b) && (a.sex == b.sex || Conceives(a, b, chanceDeviate, u))
            then r.0.stress == s.0.stress && r.1.stress == s.1.stress
            else r.0.stress == a.stress && r.1.stress == b.stress
  {
    if CanMate(a, b) then
      if a.sex != b.sex then
        if u <= MateChance(a.quality, b.quality, chanceDeviate) then
          var s := Socialised(a, b, true, socialDraw);
          if a.sex == Female then (s.0.(pregnant := true), s.1)
          else assert b.sex == Female; (s.0, s.1.(pregnant := true))
        else
          (a, b)
      else
        Socialised(a, b, true, socialDraw)
    else
      (a, b)
  }

  /** `mate` of an animal with itself: a same-sex encounter, never a conception. */
  function MatedSelf(a: AnimalState, socialDraw: real): (r: AnimalState)
    ensures r == a.(stress := r.stress)
    ensures !a.alive ==> r == a
    ensures a.alive ==> r == SocialisedSelf(a, true, socialDraw)
  {
    if a.alive then SocialisedSelf(a, true, socialDraw) else a
  }

  /** `eat`: the eater `a` gains the food value of `food` when its diet allows. */
  function Fed(a: AnimalState, food: AnimalState): (r: AnimalState)
    ensures r == a.(energy := r.energy)
    ensures !CanEat(a.diet, food.foodType) ==> r == a
    ensures r.energy - a.energy == if CanEat(a.diet, food.foodType) then FoodValue(food) else 0.0
  {
    if CanEat(a.diet, food.foodType) then a.(energy := a.energy + FoodValue(food)) else a
  }

  /** `move`: the energy cost is paid; the position is not updated. */
  function Moved(a: AnimalState, cost: real): (r: AnimalState)
    ensures r == a.(energy := r.energy)
    ensures a.energy - r.energy == cost
  {
    a.(energy := a.energy - cost)
  }

  /** `die`: only `alive` changes. */
  function Dead(a: AnimalState): (r: AnimalState)
    ensures !r.alive
    ensures r == a.(alive := false)
  {
    a.(alive := false)
  }

  /** `rot`: a dead body accumulates `rotRate` of decay; a live one is untouched. */
  function Rotted(a: AnimalState, rotRate: real): (r: AnimalState)
    ensures r == a.(rotAmount := r.rotAmount)
    ensures a.alive ==> r == a
    ensures !a.alive ==> r.rotAmount - a.rotAmount == rotRate
  {
    if a.alive then a else a.(rotAmount := a.rotAmount + rotRate)
  }

  // ---------------------------------------------------------------------
  // Properties of the behaviours
  // ---------------------------------------------------------------------

  /** Sex assignment is inverted: a ratio of at most 0 makes every animal female, at least 1 every animal male. */
  lemma SexRatioExtremes(draw: real, sexRatio: real)
    requires 0.0 <= draw < 1.0
    ensures sexRatio <= 0.0 ==> SexFromDraw(draw, sexRatio) == Female
    ensures sexRatio >= 1.0 ==> SexFromDraw(draw, sexRatio) == Male
  {
  }

  /** The mating chance does not depend on the order of the partners. */
  lemma MateChanceSymmetric(q0: real, q1: real, deviate: real)
    ensures MateChance(q0, q1, deviate) == MateChance(q1, q0, deviate)
  {
  }

  /** Partners whose qualities are closer have at least as high a chance. */
  lemma CloserQualityRaisesChance(q0: real, q1: real, p0: real, p1: real, deviate: real)
    requires QualityDiff(q0, q1) <= QualityDiff(p0, p1)
    ensures MateChance(p0, p1, deviate) <= MateChance(q0, q1, deviate)
  {
  }

  /** Partners of equal quality and a non-negative deviate always conceive, and exactly the female becomes pregnant. */
  lemma EqualQualityConceives(a: AnimalState, b: AnimalState, deviate: real, u: real, socialDraw: real)
    requires CanMate(a, b) && a.sex != b.sex && a.quality == b.quality
    requires deviate >= 0.0 && 0.0 <= u < 1.0
    requires !a.pregnant && !b.pregnant
    ensures var r := Mated(a, b, deviate, u, socialDraw);
            (r.0.pregnant <==> a.sex == Female) && (r.1.pregnant <==> b.sex == Female)
            && (r.0.pregnant != r.1.pregnant)
  {
  }

  /** Same-sex partners never change a pregnancy flag. */
  lemma SameSexNeverConceives(a: AnimalState, b: AnimalState, deviate: real, u: real, socialDraw: real)
    requires a.sex == b.sex
    ensures Mated(a, b, deviate, u, socialDraw).0.pregnant == a.pregnant
    ensures Mated(a, b, deviate, u, socialDraw).1.pregnant == b.pregnant
  {
  }

  /** A pair whose combined stress is at least 2 can never pass the socialising gate. */
  lemma StressedPairNeverSocialise(a: AnimalState, b: AnimalState, intercourse: bool, draw: real)
    requires 0.0 <= draw < 2.0
    requires a.stress + b.stress >= 2.0
    ensures Socialised(a, b, intercourse, draw) == (a, b)
  {
  }

  /** Socialising with oneself heals twice the usual amount (floored at zero). */
  lemma SelfSocialiseHealsTwice(a: AnimalState, intercourse: bool, draw: real)
    requires SocialGate(a, a, draw)
    ensures SocialisedSelf(a, intercourse, draw).stress == Healed(a.stress, 2.0 * HealAmount(intercourse))
  {
  }

  /** The diet rule, one diet at a time. */
  lemma DietRules(food: FoodType)
    ensures CanEat(Omnivore, food)
    ensures CanEat(Carnivore, food) <==> food == Meat
    ensures CanEat(Herbivore, food) <==> food == Plant
  {
  }

  /** With a non-zero terrain modifier, a move costs nothing exactly when it covers no distance. */
  lemma MoveCostZeroIffStill(distance: real, mapSize: real, terrainModifier: real)
    requires mapSize != 0.0 && terrainModifier != 0.0
    ensures MoveCost(distance, mapSize, terrainModifier) == 0.0 <==> distance == 0.0
  {
  }

  /** `die` is idempotent, and a dead animal is left as it is. */
  lemma DieIdempotent(a: AnimalState)
    ensures Dead(Dead(a)) == Dead(a)
    ensures !a.alive ==> Dead(a) == a
  {
  }

  /** Decay at a non-negative rate never raises the food value of a body of non-negative size. */
  lemma RotLowersFoodValue(a: AnimalState, rotRate: real)
    requires rotRate >= 0.0 && a.size >= 0.0
    ensures FoodValue(Rotted(a, rotRate)) <= FoodValue(a)
  {
  }

  // ---------------------------------------------------------------------
  // Lifecycle: any sequence of behaviours
  // ---------------------------------------------------------------------

  /**
   * One behaviour as it affects a given animal: as the subject (`initiator`)
   * or as the target of a pairwise encounter, or alone.
   */
  datatype Event =
    | Mating(partner: AnimalState, initiator: bool, chanceDeviate: real, u: real, socialDraw: real)
    | MatingSelf(socialDraw: real)
    | Socialising(partner: AnimalState, initiator: bool, intercourse: bool, draw: real)
    | SocialisingSelf(intercourse: bool, draw: real)
    | Eating(food: AnimalState)
    | Moving(cost: real)
    | Dying
    | Rotting(rotRate: real)

  /**
   * The animal's state after one event. Each case is the postcondition of
   * one `Animal` method, read for the animal in the role the event names:
   * `Mating` and `MatingSelf` mirror `Animal.Mate`, `Socialising` and
   * `SocialisingSelf` mirror `Animal.Socialise`, `Eating` mirrors
   * `Animal.Eat`, `Moving` mirrors `Animal.Move` (with the cost given by
   * `MoveCost`), `Dying` mirrors `Animal.Die`, and `Rotting` mirrors
   * `Animal.Rot`.
   */
  function After(a: AnimalState, e: Event): AnimalState
  {
    match e
    case Mating(b, initiator, z, u, draw) =>
      if initiator then Mated(a, b, z, u, draw).0 else Mated(b, a, z, u, draw).1
    case MatingSelf(draw) => MatedSelf(a, draw)
    case Socialising(b, initiator, intercourse, draw) =>
      if initiator then Socialised(a, b, intercourse, draw).0 else Socialised(b, a, intercourse, draw).1
    case SocialisingSelf(intercourse, draw) => SocialisedSelf(a, intercourse, draw)
    case Eating(food) => Fed(a, food)
    case Moving(cost) => Moved(a, cost)
    case Dying => Dead(a)
    case Rotting(rate) => Rotted(a, rate)
  }

  /** The animal's state after a sequence of events, in order. */
  function Life(a: AnimalState, events: seq<Event>): AnimalState
    decreases |events|
  {
    if events == [] then a else Life(After(a, events[0]), events[1..])
  }

  /** Every decay step in `events` has a non-negative rate. */
  predicate NonNegativeRates(events: seq<Event>)
  {
    forall i :: 0 <= i < |events| && events[i].Rotting? ==> events[i].rotRate >= 0.0
  }

  /** The traits that no behaviour changes. */
  predicate SameTraits(a: AnimalState, b: AnimalState)
  {
    a.species == b.species && a.position == b.position && a.size == b.size
    && a.diet == b.diet && a.sex == b.sex && a.quality == b.quality && a.age == b.age
    && a.matedRecently == b.matedRecently && a.foodType == b.foodType
  }

  /** What one event preserves; the step of `LifecycleInvariants`. */
  predicate Preserves(a: AnimalState, z: AnimalState, rateOk: bool)
  {
    SameTraits(a, z)
    && (!a.alive ==> !z.alive)
    && (a.pregnant ==> z.pregnant)
    && (a.stress >= 0.0 ==> 0.0 <= z.stress <= a.stress)
    && (rateOk ==> z.rotAmount >= a.rotAmount)
  }

  /** Every single behaviour preserves the lifecycle invariants. */
  lemma AfterPreserves(a: AnimalState, e: Event)
    ensures Preserves(a, After(a, e), !e.Rotting? || e.rotRate >= 0.0)
  {
  }

  /**
   * Over any sequence of behaviours: death is terminal, pregnancy is never
   * cleared, a non-negative stress never rises and never becomes negative,
   * decay at non-negative rates never shrinks, and the fixed traits stay.
   */
  lemma {:induction false} LifecycleInvariants(a: AnimalState, events: seq<Event>)
    ensures Preserves(a, Life(a, events), NonNegativeRates(events))
    decreases |events|
  {
    if events != [] {
      var next := After(a, events[0]);
      var rest := events[1..];
      assert Life(a, events) == Life(next, rest);
      AfterPreserves(a, events[0]);
      assert NonNegativeRates(events) ==> NonNegativeRates(rest) by {
        if NonNegativeRates(events) {
          forall i | 0 <= i < |rest| && rest[i].Rotting?
            ensures rest[i].rotRate >= 0.0
          {
            assert rest[i] == events[i + 1];
          }
        }
      }
      LifecycleInvariants(next, rest);
      PreservesTransitive(a, next, Life(next, rest), NonNegativeRates(events),
                          !events[0].Rotting? || events[0].rotRate >= 0.0, NonNegativeRates(rest));
    }
  }

  lemma PreservesTransitive(a: AnimalState, b: AnimalState, c: AnimalState, ok: bool, ok1: bool, ok2: bool)
    requires Preserves(a, b, ok1) && Preserves(b, c, ok2)
    requires ok ==> ok1 && ok2
    ensures Preserves(a, c, ok)
  {
  }

  // ---------------------------------------------------------------------
  // The agent
  // ---------------------------------------------------------------------

  class Animal {
    var species: string
    var position: seq<real>
    var size: real
    var diet: Diet
    var alive: bool
    var sex: Sex
    var quality: real
    var age: int
    var energy: real
    var stress: real
    var matedRecently: bool
    var foodType: FoodType
    var pregnant: bool
    /** Accumulated decay; read as the rotted fraction when the body is eaten. */
    var rotAmount: real

    /** Every field of this animal. */
    function State(): AnimalState
      reads this
    {
      AnimalState(species, position, size, diet, alive, sex, quality, age,
                  energy, stress, matedRecently, foodType, pregnant, rotAmount)
    }

    /**
     * A new animal, with no parents or with exactly two. `sexDraw` is the
     * uniform draw for its sex and `qualityDeviate` the standard-normal
     * deviate of its quality draw.
     */
    constructor (species: string, diet: Diet, position: seq<real>, size: real,
                 sexDraw: real, qualityDeviate: real,
                 alive: bool := true, parents: Option<seq<Animal>> := None, sexRatio: real := 0.5)
      requires 0.0 <= sexDraw < 1.0
      requires parents.Some? ==> |parents.value| == 2
      ensures sex == Female <==> sexDraw >= sexRatio
      ensures parents.None? ==> quality == Normal(DefaultQualityCentre, qualityDeviate)
      ensures parents.Some? ==>
                quality == Normal(InheritedCentre(parents.value[0].quality, parents.value[1].quality), qualityDeviate)
      ensures parents.Some? ==> unchanged(parents.value[0], parents.value[1])
      ensures State() == AnimalState(species, position, size, diet, alive, sex, quality, 0,
                                     InitialEnergy, 0.0, false, Meat, false, 0.0)
    {
      this.species := species;
      this.position := position;
      this.size := size;
      this.diet := diet;
      this.alive := alive;
      sex := SexFromDraw(sexDraw, sexRatio);
      match parents {
        case None =>
          quality := Normal(DefaultQualityCentre, qualityDeviate);
        case Some(ps) =>
          quality := Normal(InheritedCentre(ps[0].quality, ps[1].quality), qualityDeviate);
      }
      age := 0;
      energy := InitialEnergy;
      stress := 0.0;
      matedRecently := false;
      foodType := Meat;
      pregnant := false;
      rotAmount := 0.0;
    }

    /**
     * Mating with `target`. `chanceDeviate` is the deviate of the mating
     * chance draw, `u` the uniform draw compared with it, and `socialDraw`
     * the draw of the socialising encounter that mating attempts.
     */
    method Mate(target: Animal, chanceDeviate: real, u: real, socialDraw: real)
      requires 0.0 <= u < 1.0 && 0.0 <= socialDraw < 2.0
      modifies this, target
      ensures target != this ==>
                (State(), target.State()) == Mated(old(State()), old(target.State()), chanceDeviate, u, socialDraw)
      ensures target == this ==> State() == MatedSelf(old(State()), socialDraw)
      ensures old(pregnant) ==> pregnant
      ensures old(target.pregnant) ==> target.pregnant
      ensures alive == old(alive) && target.alive == old(target.alive)
    {
      if alive && target.alive && species == target.species {
        if sex != target.sex {
          var chance := MateChance(quality, target.quality, chanceDeviate);
          if u <= chance {
            Socialise(target, socialDraw, true);
            if sex == Female {
              pregnant := true;
            } else {
              target.pregnant := true;
            }
          }
        } else {
          Socialise(target, socialDraw, true);
        }
      }
    }

    /** Eating `target`; the target itself is not modified (only this animal is). */
    method Eat(target: Animal)
      modifies this
      ensures State() == Fed(old(State()), old(target.State()))
      ensures target != this ==> target.State() == old(target.State())
    {
      if CanEat(diet, target.foodType) {
        energy := energy + target.size * (1.0 - target.rotAmount);
      }
    }

    /** Socialising with `target`, with `draw` the uniform draw on [0, 2). */
    method Socialise(target: Animal, draw: real, intercourse: bool := false)
      requires 0.0 <= draw < 2.0
      modifies this, target
      ensures target != this ==>
                (State(), target.State()) == Socialised(old(State()), old(target.State()), intercourse, draw)
      ensures target == this ==> State() == SocialisedSelf(old(State()), intercourse, draw)
      ensures old(stress) >= 0.0 ==> 0.0 <= stress <= old(stress)
      ensures old(target.stress) >= 0.0 ==> 0.0 <= target.stress <= old(target.stress)
    {
      var threshold := stress + target.stress;
      if species == target.species && draw >= threshold {
        var heal := if intercourse then IntercourseHeal else SocialHeal;
        stress := Healed(stress, heal);
        target.stress := Healed(target.stress, heal);
      }
    }

    /**
     * Moving towards `targetLoc`. `distance` is the Euclidean distance from
     * the current position: non-negative, and zero exactly when the two
     * points coincide.
     */
    method Move(targetLoc: seq<real>, mapSize: real, terrainModifier: real, distance: real)
      requires distance >= 0.0 && (distance == 0.0 <==> targetLoc == position)
      requires mapSize != 0.0
      modifies this
      ensures State() == Moved(old(State()), MoveCost(distance, mapSize, terrainModifier))
      ensures targetLoc == old(position) ==> State() == old(State())
    {
      energy := energy - (distance / mapSize) * terrainModifier;
    }

    method Die()
      modifies this
      ensures State() == Dead(old(State()))
      ensures !old(alive) ==> State() == old(State())
    {
      alive := false;
    }

    method Rot(rotRate: real)
      modifies this
      ensures State() == Rotted(old(State()), rotRate)
    {
      if !alive {
        rotAmount := rotAmount + rotRate;
      }
    }
  }
}
