/** The focus garden of `src/lib/garden.ts`: focus minutes water one growing
    plant at a time, which moves through five stages and never back. */
module Garden {
  import opened Seqs

  type Id = string

  datatype PlantStage = Seed | Sprout | Small | Mature | Blooming

  /** `species` is the source's `type` field (a key of PLANT_TYPES). */
  datatype Plant = Plant(id: Id, species: string, stage: PlantStage, plantedAt: string,
                         lastWatered: string, growthProgress: int)

  datatype WaterResult = WaterResult(watered: int, evolved: int)

  /** The keys of PLANT_TYPES, in declaration order. */
  const PlantTypes: seq<string> := ["sunflower", "rose", "tree", "cactus", "palm"]

  /** The garden is not auto-planted beyond this many plants. */
  const MaxGardenSize: int := 12

  /** Position of a stage in seed → sprout → small → mature → blooming. */
  function Rank(s: PlantStage): nat
  {
    match s
    case Seed => 0
    case Sprout => 1
    case Small => 2
    case Mature => 3
    case Blooming => 4
  }

  /** Progress needed to leave a stage: 25 unless the stage overrides it. */
  function Threshold(s: PlantStage): int
  {
    match s
    case Sprout => 50
    case Small => 75
    case Mature => 100
    case _ => 25
  }

  /** The `switch` on evolution; blooming has no case and stays. */
  function NextStage(s: PlantStage): (t: PlantStage)
    ensures s != Blooming ==> Rank(t) == Rank(s) + 1
    ensures s == Blooming ==> t == Blooming
  {
    match s
    case Seed => Sprout
    case Sprout => Small
    case Small => Mature
    case Mature => Blooming
    case Blooming => Blooming
  }

  function NewSeed(id: Id, species: string, now: string): Plant
  {
    Plant(id, species, Seed, now, now, 0)
  }

  /** The index of the last plant that is not blooming: the last element of `activePlants`. */
  function LastActiveIndex(plants: seq<Plant>): (r: Option<nat>)
    ensures r.Some? ==> r.value < |plants| && plants[r.value].stage != Blooming
    ensures r.Some? ==> forall j :: r.value < j < |plants| ==> plants[j].stage == Blooming
    ensures r.None? <==> forall j :: 0 <= j < |plants| ==> plants[j].stage == Blooming
  {
    if plants == [] then None
    else if plants[|plants| - 1].stage != Blooming then Some(|plants| - 1)
    else LastActiveIndex(plants[..|plants| - 1])
  }

  datatype Growth = Growth(plant: Plant, evolved: bool)

  /** The target plant after `minutes` of watering at time `now`: at most one evolution,
      with the progress beyond the threshold carried over. */
  function Grow(p: Plant, minutes: int, now: string): Growth
  {
    var progress := p.growthProgress + minutes;
    var threshold := Threshold(p.stage);
    if progress >= threshold then
      Growth(p.(growthProgress := progress - threshold, stage := NextStage(p.stage), lastWatered := now), true)
    else
      Growth(p.(growthProgress := progress, lastWatered := now), false)
  }

  datatype Watering = Watering(garden: seq<Plant>, result: WaterResult)

  /** The garden and the counts after `waterGarden(minutes)`; `roll` is the species index
      `Math.floor(Math.random() * 5)` picks, `newId` and `now` stand for the id generator
      and the clock. */
  function Watered(plants: seq<Plant>, minutes: int, roll: nat, newId: Id, now: string): Watering
    requires roll < |PlantTypes|
  {
    match LastActiveIndex(plants)
    case Some(k) =>
      var g := Grow(plants[k], minutes, now);
      Watering(plants[k := g.plant], WaterResult(1, if g.evolved then 1 else 0))
    case None =>
      if |plants| < MaxGardenSize then
        var g := Grow(NewSeed(newId, PlantTypes[roll], now), minutes, now);
        Watering(plants + [g.plant], WaterResult(1, if g.evolved then 1 else 0))
      else
        Watering(plants, WaterResult(0, 0))
  }

  /** The counts: `evolved <= watered <= 1`, and nothing is watered only for a full garden
      of blooming plants. */
  lemma WaterCounts(plants: seq<Plant>, minutes: int, roll: nat, newId: Id, now: string)
    requires roll < |PlantTypes|
    ensures var r := Watered(plants, minutes, roll, newId, now).result;
      && 0 <= r.evolved <= r.watered <= 1
      && (r.watered == 0 <==> |plants| >= MaxGardenSize && forall j :: 0 <= j < |plants| ==> plants[j].stage == Blooming)
  {
  }

  /** Only the last growing plant changes; every other plant, every blooming one
      included, keeps all its fields. */
  lemma OnlyTargetChanges(plants: seq<Plant>, minutes: int, roll: nat, newId: Id, now: string)
    requires roll < |PlantTypes|
    ensures var g := Watered(plants, minutes, roll, newId, now).garden;
      && |plants| <= |g|
      && (forall i :: 0 <= i < |plants| && LastActiveIndex(plants) != Some(i) ==> g[i] == plants[i])
      && (forall i :: 0 <= i < |plants| && plants[i].stage == Blooming ==> g[i] == plants[i])
  {
  }

  /** Stages never go back and advance by at most one step per call; a stage advances
      exactly when the result reports an evolution. */
  lemma StagesMonotone(plants: seq<Plant>, minutes: int, roll: nat, newId: Id, now: string)
    requires roll < |PlantTypes|
    ensures var w := Watered(plants, minutes, roll, newId, now);
      && (forall i :: 0 <= i < |plants| ==>
            Rank(w.garden[i].stage) == Rank(plants[i].stage) || Rank(w.garden[i].stage) == Rank(plants[i].stage) + 1)
      && (forall i :: 0 <= i < |plants| && Rank(w.garden[i].stage) != Rank(plants[i].stage) ==> w.result.evolved == 1)
  {
  }

  /** Crossing the stage's threshold (25/50/75/100) moves the target one stage on and
      keeps the progress beyond the threshold; otherwise the minutes just add up. */
  lemma CarryOver(plants: seq<Plant>, minutes: int, roll: nat, newId: Id, now: string, k: nat)
    requires roll < |PlantTypes|
    requires LastActiveIndex(plants) == Some(k)
    ensures var w := Watered(plants, minutes, roll, newId, now);
      var p := plants[k];
      && (p.growthProgress + minutes >= Threshold(p.stage) ==>
            w.garden[k].stage == NextStage(p.stage)
            && w.garden[k].growthProgress == p.growthProgress + minutes - Threshold(p.stage)
            && w.result == WaterResult(1, 1))
      && (p.growthProgress + minutes < Threshold(p.stage) ==>
            w.garden[k].stage == p.stage
            && w.garden[k].growthProgress == p.growthProgress + minutes
            && w.result == WaterResult(1, 0))
  {
  }

  /** When no plant is growing and the garden holds fewer than 12 plants, a seed of the
      rolled species is planted at the end and is the plant watered: below 25 minutes it
      stays a seed with the minutes as its progress, from 25 minutes on it becomes a sprout
      with the minutes beyond 25 carried over. */
  lemma AutoPlant(plants: seq<Plant>, minutes: int, roll: nat, newId: Id, now: string)
    requires roll < |PlantTypes|
    requires LastActiveIndex(plants).None? && |plants| < MaxGardenSize
    ensures var w := Watered(plants, minutes, roll, newId, now);
            var n := |plants|;
      && |w.garden| == n + 1 && w.garden[..n] == plants
      && w.garden[n].id == newId && w.garden[n].species == PlantTypes[roll]
      && w.garden[n].plantedAt == now && w.garden[n].lastWatered == now
      && (minutes < Threshold(Seed) ==>
            w.garden[n].stage == Seed && w.garden[n].growthProgress == minutes && w.result == WaterResult(1, 0))
      && (minutes >= Threshold(Seed) ==>
            w.garden[n].stage == Sprout && w.garden[n].growthProgress == minutes - Threshold(Seed)
            && w.result == WaterResult(1, 1))
  {
    assert Watered(plants, minutes, roll, newId, now).garden[..|plants|] == plants;
  }

  /** The garden grows by at most one plant, a seed of one of the five species, and only when
      no plant was growing; it is never auto-planted past 12 plants. */
  lemma GrowsByAtMostOne(plants: seq<Plant>, minutes: int, roll: nat, newId: Id, now: string)
    requires roll < |PlantTypes|
    ensures var g := Watered(plants, minutes, roll, newId, now).garden;
      && (|g| == |plants| || |g| == |plants| + 1)
      && (|g| == |plants| + 1 ==>
            LastActiveIndex(plants).None? && |plants| < MaxGardenSize
            && g[..|plants|] == plants && g[|plants|].species in PlantTypes
            && g[|plants|].id == newId)
      && (|plants| <= MaxGardenSize ==> |g| <= MaxGardenSize)
  {
    var g := Watered(plants, minutes, roll, newId, now).garden;
    if |g| == |plants| + 1 {
      assert g[..|plants|] == plants;
    }
  }

  /** With 12 plants, all blooming, watering changes nothing and reports {0, 0}. */
  lemma FullGardenUnchanged(plants: seq<Plant>, minutes: int, roll: nat, newId: Id, now: string)
    requires roll < |PlantTypes|
    requires |plants| >= MaxGardenSize && forall j :: 0 <= j < |plants| ==> plants[j].stage == Blooming
    ensures Watered(plants, minutes, roll, newId, now) == Watering(plants, WaterResult(0, 0))
  {
  }

  /** Watering an empty garden plants exactly one seed and waters it: 20 minutes leave a
      seed at 20, and 10 more turn it into a sprout at 5. */
  lemma EmptyGardenSequence(roll: nat, id1: Id, id2: Id, t1: string, t2: string)
    requires roll < |PlantTypes|
    ensures var w1 := Watered([], 20, roll, id1, t1);
            var w2 := Watered(w1.garden, 10, roll, id2, t2);
            && |w1.garden| == 1 && w1.garden[0].stage == Seed && w1.garden[0].growthProgress == 20
            && w1.result == WaterResult(1, 0)
            && |w2.garden| == 1 && w2.garden[0].stage == Sprout && w2.garden[0].growthProgress == 5
            && w2.result == WaterResult(1, 1)
  {
  }

  /** The garden as `loadGarden` returns it. */
  class GardenStore {
    var plants: seq<Plant>

    constructor ()
      ensures plants == []
    {
      plants := [];
    }

    /** `plantSeed`: appends a seed with no progress. */
    method PlantSeed(id: Id, now: string, species: string := "sunflower") returns (p: Plant)
      modifies this
      ensures p == NewSeed(id, species, now) && p.stage == Seed && p.growthProgress == 0
      ensures plants == old(plants) + [p]
    {
      p := NewSeed(id, species, now);
      plants := plants + [p];
    }

    /** `waterGarden`. */
    method WaterGarden(minutes: int, roll: nat, newId: Id, now: string) returns (result: WaterResult)
      requires roll < |PlantTypes|
      modifies this
      ensures Watering(plants, result) == Watered(old(plants), minutes, roll, newId, now)
    {
      var active := LastActiveIndex(plants);
      var k: nat;
      if active.None? {
        if |plants| < MaxGardenSize {
          plants := plants + [NewSeed(newId, PlantTypes[roll], now)];
          k := |plants| - 1;
        } else {
          return WaterResult(0, 0);
        }
      } else {
        k := active.value;
      }
      var target := plants[k];
      target := target.(growthProgress := target.growthProgress + minutes, lastWatered := now);
      var wateredCount, evolvedCount := 1, 0;
      var threshold := 25;
      if target.stage == Sprout { threshold := 50; }
      if target.stage == Small { threshold := 75; }
      if target.stage == Mature { threshold := 100; }
      if target.growthProgress >= threshold {
        target := target.(growthProgress := target.growthProgress - threshold);
        evolvedCount := evolvedCount + 1;
        target := target.(stage := NextStage(target.stage));
      }
      plants := plants[k := target];
      result := WaterResult(wateredCount, evolvedCount);
    }
  }
}
