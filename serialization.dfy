/** The farm-animal projection of the mod: a snapshot of selected fields of a
    live `FarmAnimal`, plus two derived booleans, in a flat record that is
    handed on to the speech client. */
module Serialization {
  import opened Common

  /** C#'s `byte`: the type `ageWhenMature` is cast to before comparing. */
  newtype Byte = b: int | 0 <= b < 256

  /** The fields of a game `FarmAnimal` the projection reads. Coordinates of
      the continuous position are opaque copied values (floating point is not
      modelled). `currentLocation` is the containing game location's
      `NameOrUniqueName`, or `None` when the animal has no location. */
  datatype FarmAnimal = FarmAnimal(
    positionX: real,
    positionY: real,
    standingX: int,
    standingY: int,
    tileX: int,
    tileY: int,
    age: int,
    ageWhenMature: Byte,
    currentProduce: int,
    wasPet: bool,
    animalType: string,
    name: string,
    toolUsedForHarvest: string,
    currentLocation: Option<string>)

  /** The anonymous record built by `SerializeAnimal`, field for field. */
  datatype AnimalPayload = AnimalPayload(
    position: seq<real>,
    center: seq<int>,
    tileX: int,
    tileY: int,
    wasPet: bool,
    animalType: string,
    name: string,
    isMature: bool,
    currentProduce: int,
    readyForHarvest: bool,
    toolUsedForHarvest: string,
    location: string)

  /** Reading `currentLocation.NameOrUniqueName` on an animal without a
      location throws a null-reference exception in the game. */
  datatype SerializeError = MissingLocation

  /** An animal is mature once its age reaches its maturity age. */
  predicate IsMature(animal: FarmAnimal) {
    animal.age >= animal.ageWhenMature as int
  }

  function SerializeAnimal(animal: FarmAnimal): (r: Result<AnimalPayload, SerializeError>)
    ensures r.Failure? <==> animal.currentLocation.None?
    ensures r.Success? ==>
      var p := r.value;
      // derived fields
      && (p.isMature <==> animal.age >= animal.ageWhenMature as int)
      && (p.readyForHarvest <==> p.isMature && animal.currentProduce > 0)
      && p.currentProduce == animal.currentProduce
      // copied fields
      && p.position == [animal.positionX, animal.positionY]
      && p.center == [animal.standingX, animal.standingY]
      && p.tileX == animal.tileX && p.tileY == animal.tileY
      && p.wasPet == animal.wasPet
      && p.animalType == animal.animalType
      && p.name == animal.name
      && p.toolUsedForHarvest == animal.toolUsedForHarvest
      && p.location == animal.currentLocation.value
  {
    var position := [animal.positionX, animal.positionY];
    var isMature := IsMature(animal);
    var currentProduce := animal.currentProduce;
    var readyForHarvest := isMature && currentProduce > 0;
    var center := [animal.standingX, animal.standingY];
    match animal.currentLocation
    case None => Failure(MissingLocation)
    case Some(locationName) =>
      Success(AnimalPayload(
        position, center, animal.tileX, animal.tileY, animal.wasPet,
        animal.animalType, animal.name, isMature, currentProduce,
        readyForHarvest, animal.toolUsedForHarvest, locationName))
  }

  /** Readiness for harvest implies maturity, and an animal with no produce
      is never ready. */
  lemma ReadyImpliesMature(animal: FarmAnimal)
    requires SerializeAnimal(animal).Success?
    ensures SerializeAnimal(animal).value.readyForHarvest ==> SerializeAnimal(animal).value.isMature
    ensures animal.currentProduce <= 0 ==> !SerializeAnimal(animal).value.readyForHarvest
  {
  }

  /** The maturity threshold is inclusive: an animal exactly at its maturity
      age is mature, one day younger it is not. */
  lemma MaturityBoundary(animal: FarmAnimal)
    requires animal.currentLocation.Some?
    ensures SerializeAnimal(animal.(age := animal.ageWhenMature as int)).value.isMature
    ensures !SerializeAnimal(animal.(age := animal.ageWhenMature as int - 1)).value.isMature
  {
  }

  /** The payload depends on nothing but the copied fields: two animals that
      agree on every field the projection reads give equal payloads, and the
      payload determines every field it copies. */
  lemma PayloadDeterminesCopiedFields(a: FarmAnimal, b: FarmAnimal)
    requires SerializeAnimal(a).Success? && SerializeAnimal(b).Success?
    requires SerializeAnimal(a) == SerializeAnimal(b)
    ensures a.(age := b.age, ageWhenMature := b.ageWhenMature) == b
  {
    var pa, pb := SerializeAnimal(a).value, SerializeAnimal(b).value;
    assert pa.position[0] == pb.position[0] && pa.position[1] == pb.position[1];
    assert pa.center[0] == pb.center[0] && pa.center[1] == pb.center[1];
  }
}
