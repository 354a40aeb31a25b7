# Life-of-Py `Animal`: a verified model

This project models the `Animal` class of the Life-of-Py ecological simulation
(`organisms.py`). An animal is a mutable record (species, position, size, diet,
alive, sex, quality, age, energy, stress, mated-recently flag, food type,
pregnant flag, and accumulated decay) with six behaviours that update it in
place: `mate`, `eat`, `socialise`, `move`, `die` and `rot`, plus the
constructor that draws its sex and quality.

The class is `Organisms.Animal` in `organisms.dfy`, with one field per
attribute and one method per behaviour; each method `modifies` exactly the
objects the original writes to (`this` and `target` for `mate` and
`socialise`, `this` alone for the others). Its `State()` function gives a
snapshot (`AnimalState`) of every field, and each method's postcondition says
that the new snapshot is what a pure function of the old snapshot(s) computes
(`Mated`, `Fed`, `Socialised`, `Moved`, `Dead`, `Rotted`). Those functions
carry the properties as their own postconditions and in the lemmas beside them.
An `Event` describes one behaviour as it affects a given animal (as subject,
as target, or with itself), and `Life` applies a sequence of events, so that
the lifecycle facts can be stated over any sequence of behaviours.

Randomness is injected. Every draw of numpy's global generator is a parameter:

- the uniform sex draw `sexDraw` in [0, 1);
- each normal sample with centre `c` and spread 0.95/6 is written
  `c + (0.95/6) * z` for a supplied standard-normal deviate `z` (`Normal`), so
  the centre of the draw stays visible: 0.5 for an animal without parents, the
  mean of the parents' qualities with two parents, and one minus the quality
  difference for the mating chance;
- the uniform mating draw `u` in [0, 1);
- the uniform socialising draw in [0, 2).

Behaviour kept as the code has it:

- Sex is female when the draw is at least `sex_ratio`, so `sex_ratio` is in
  effect the probability of a male. With a ratio of 0 every animal is female;
  with a ratio of 1 every animal is male (`SexRatioExtremes`).
- `eat` does not modify its target. `del target` only unbinds a local name.
  When an animal eats itself, the target is this animal and its energy changes.
- In `mate`, conception depends only on `u` and the mating chance. The female's
  `pregnant` flag is set even when the inner socialising encounter fails its gate.
- Aliasing: `socialise` with itself uses twice its stress as the threshold and
  reduces its stress twice (`SocialisedSelf`, `SelfSocialiseHealsTwice`).
  `mate` with itself is a same-sex encounter (`MatedSelf`).
- `move` subtracts the energy cost and does not change `position`.
- No behaviour checks that its subject is alive except `mate` and `rot`.

Two points in the source fail at run time, and the model repairs them:

- `rot` is both a method and the decay value read by `eat`. As written, every
  diet match in `eat` raises a TypeError at `1 - target.rot` before `energy`
  changes, and `rot` on a dead animal raises a TypeError at `self.rot += ...`.
  Here the decay value is a separate field `rotAmount`, starting at 0: the
  method `Rot` adds the rate to it for a dead animal, and `Fed` and `Rotted`
  describe this repaired behaviour, not the program as written.
- A `parents` value that is neither `None` nor of length 2 leaves `quality`
  unassigned. The constructor itself still runs; the first later read of
  `quality` (an opposite-sex `mate`, or use of the animal as a parent) raises
  an AttributeError. Here the constructor requires no parents or exactly two.

## Model

| member | source | states |
|---|---|---|
| Organisms.Animal.constructor | organisms.py:8-29 | sex is `SexFromDraw` of the draw, female exactly when the draw is at least the ratio (lines 14-17); quality is the `Normal` sample centred at 0.5 with no parents or at the parents' mean with two (lines 18-22); age 0, energy 0.5, stress 0, not mated recently, meat, not pregnant, decay 0; the parents are unchanged |
| Organisms.InheritedCentre | organisms.py:20-22 | an offspring's quality centre lies midway between its parents' qualities, inside their range |
| Organisms.SexRatioExtremes | organisms.py:14-17 | for `SexFromDraw`, which computes the sex, the inverted sex rule: a ratio at most 0 gives a female, a ratio at least 1 gives a male, for every draw in [0, 1) |
| Organisms.QualityDiff | organisms.py:34 | the partners' quality difference is non-negative and equals one of the two signed differences |
| Organisms.MateChanceSymmetric | organisms.py:34-35 | the mating chance `MateChance`, a `Normal` sample centred at one minus `QualityDiff`, is the same whichever partner initiates |
| Organisms.CloserQualityRaisesChance | organisms.py:34-36 | for `MateChance`, a pair with a smaller quality difference has a mating chance at least as high |
| Organisms.Mated | organisms.py:31-43 | with `CanMate` the gate of line 32 and `Conceives` the opposite-sex success test of lines 33-36: only stress and pregnancy change; nothing changes when either animal is dead or the species differ; each flag becomes set exactly when the pair conceives and that animal is the female, and is never cleared; stress changes exactly as an intercourse encounter when the sexes are equal or the pair conceives |
| Organisms.MatedSelf | organisms.py:31-32 | mating with oneself never changes pregnancy; a live animal gets the self-socialising effect, a dead one nothing |
| Organisms.EqualQualityConceives | organisms.py:33-41 | opposite-sex partners of equal quality with a non-negative deviate always conceive, and exactly one of them, the female, becomes pregnant |
| Organisms.SameSexNeverConceives | organisms.py:42-43 | with equal sexes both pregnancy flags are unchanged |
| Organisms.Animal.Mate | organisms.py:31-43 | the new states of self and target are those of `Mated` (or `MatedSelf` when they are one object); neither animal's pregnancy is ever cleared and neither's liveness changes |
| Organisms.Fed | organisms.py:45-55 | with `CanEat` the diet rule of lines 47-53 and `FoodValue` the gain of line 48: only energy changes; it rises by the target's size times one minus its decay exactly when the diet matches the target's food type, otherwise nothing changes |
| Organisms.DietRules | organisms.py:47-53 | for `CanEat`: an omnivore eats any food; a carnivore exactly meat; a herbivore exactly plants |
| Organisms.Animal.Eat | organisms.py:45-55 | the eater's new state is that of `Fed`; a distinct target is not modified |
| Organisms.HealAmount | organisms.py:61-64 | the stress relief of an encounter is 0.5 with intercourse and 0.2 without, hence positive |
| Organisms.Healed | organisms.py:65-66 | reduced stress is never negative, never below the plain difference, is either that difference or zero, and never exceeds a non-negative starting stress |
| Organisms.Socialised | organisms.py:57-66 | with `SocialGate` the species-and-threshold test of lines 59-60: after a successful encounter each stress is `Healed` by `HealAmount(intercourse)`, that is max(stress - relief, 0) with relief 0.5 or 0.2; only stress changes; nothing changes unless the species match and the draw reaches the combined stress; after a successful encounter both stresses are non-negative; a non-negative stress never increases |
| Organisms.SocialisedSelf | organisms.py:57-66 | socialising with oneself changes only stress, gated on twice its stress; after success the relief is applied twice in succession, each time floored at zero; the result is non-negative after success and never above a non-negative start |
| Organisms.SelfSocialiseHealsTwice | organisms.py:65-66 | when an animal socialises with itself, the two reductions amount to one reduction by twice the relief |
| Organisms.StressedPairNeverSocialise | organisms.py:59-60 | a pair whose combined stress is at least 2 never passes the gate of a draw in [0, 2) |
| Organisms.Animal.Socialise | organisms.py:57-66 | the new states are those of `Socialised` (or `SocialisedSelf` when target is this animal); for each of the two animals, a non-negative stress stays non-negative and does not increase |
| Organisms.Moved | organisms.py:72 | only energy changes, and it falls by exactly the cost |
| Organisms.MoveCostZeroIffStill | organisms.py:72 | for `MoveCost`, the line-72 cost: with a non-zero terrain modifier, the cost is zero exactly when the distance is zero |
| Organisms.Animal.Move | organisms.py:68-72 | energy falls by (distance / map size) * terrain modifier and nothing else changes; moving to the current position changes nothing |
| Organisms.Dead | organisms.py:74-76 | afterwards the animal is dead and no other field has changed |
| Organisms.DieIdempotent | organisms.py:74-76 | dying twice is the same as dying once; a dead animal is left as it is |
| Organisms.Animal.Die | organisms.py:74-76 | the new state is that of `Dead`; a dead animal is unchanged |
| Organisms.Rotted | organisms.py:78-81 | only the decay value changes; a live animal is untouched; a dead one's decay grows by exactly the rate |
| Organisms.RotLowersFoodValue | organisms.py:78-81 | decay at a non-negative rate never raises the food value of a body of non-negative size |
| Organisms.Animal.Rot | organisms.py:78-81 | the new state is that of `Rotted` |
| Organisms.AfterPreserves | organisms.py:31-81 | each single behaviour, whichever role the animal plays, keeps its fixed traits, never revives it, never clears pregnancy, keeps a non-negative stress non-negative and not higher, and never shrinks decay at a non-negative rate |
| Organisms.LifecycleInvariants | organisms.py:31-81 | the same five facts hold over any sequence of behaviours: alive to dead is one-way, pregnancy is never cleared, stress only falls and stays non-negative, decay only grows, the traits stay |

## Left out

- numpy's random generator and the statistical claims (the female frequency, the mean offspring quality, the mating success rate): every draw is a parameter, and distributions are not modelled.
- `np.linalg.norm` in `move`: the Euclidean distance is a parameter, required to be non-negative and zero exactly when the target location equals the current position. The computation itself (square roots over numpy arrays) is not modelled.
- Organisms.Animal.Move: requires a non-zero map size; numpy would divide by zero and produce an infinite or undefined cost instead.
- IEEE floating point: every scalar is a mathematical real, so rounding, infinities and NaN are not modelled.
- Diet, sex and food-type codes other than 'h'/'c'/'o', 'f'/'m' and 'meat'/'plant': they are datatypes here, so an unrecognised diet (for which `eat` does nothing) cannot be expressed.
- The lifetime effect of `del target`: only the fact that the target is not modified is modelled.
- `age` and `mated_recently` are set by the constructor and touched by no behaviour; nothing further is said about them.
- The `quality` of the original is a one-element numpy array; here it is a single real.
