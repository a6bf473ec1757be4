/**
 * The Builder sample: a Director runs a builder's steps in a fixed order, and each
 * builder appends its own part names to the one Car it owns.
 *
 * ICarBuilder has two implementations, SportsCarBuilder and MiniCarBuilder, which
 * differ only in the part names; here one class CarBuilder stands for both and its
 * line says which one it is.
 */
module CarBuilding {
  datatype CarLine = Sports | Mini

  const SportsEngine: string := "Спортивный двигатель"
  const SportsGps: string := "Навигационная система премиум-класса"
  const SportsSeats: string := "Два понтовейших кожаных сидения"
  const MiniEngine: string := "Микроскопический двигатель"
  const MiniGps: string := "Навигационная система ГЛОНАСС"
  const MiniSeats: string := "Два понтовейших очень маленьких кожаных сидения"

  /** The part BuildEngine adds. */
  function EnginePart(line: CarLine): string
  {
    match line
    case Sports => SportsEngine
    case Mini => MiniEngine
  }

  /** The part BuildSeats adds. */
  function SeatsPart(line: CarLine): string
  {
    match line
    case Sports => SportsSeats
    case Mini => MiniSeats
  }

  /** The part BuildGPS adds. */
  function GpsPart(line: CarLine): string
  {
    match line
    case Sports => SportsGps
    case Mini => MiniGps
  }

  /** The parts one ConstructCar adds, in the Director's order. */
  function ConstructionParts(line: CarLine): seq<string>
  {
    [EnginePart(line), SeatsPart(line), GpsPart(line)]
  }

  /** One construction adds three different parts: engine, then seats, then navigation. */
  lemma ConstructionOrder(line: CarLine)
    ensures |ConstructionParts(line)| == 3
    ensures ConstructionParts(line)[0] == EnginePart(line)
    ensures ConstructionParts(line)[1] == SeatsPart(line)
    ensures ConstructionParts(line)[2] == GpsPart(line)
    ensures EnginePart(line) != SeatsPart(line) && SeatsPart(line) != GpsPart(line)
    ensures EnginePart(line) != GpsPart(line)
  {
    assert |SportsEngine| != |SportsSeats|;
    assert |SportsSeats| != |SportsGps|;
    assert |SportsEngine| != |SportsGps|;
    assert |MiniEngine| != |MiniSeats|;
    assert |MiniSeats| != |MiniGps|;
    assert |MiniEngine| != |MiniGps|;
  }

  /** The two builders share no part. */
  lemma LinesShareNoPart()
    ensures forall p :: p in ConstructionParts(Sports) ==> p !in ConstructionParts(Mini)
  {
    assert |SportsEngine| == 20 && |SportsSeats| == 31 && |SportsGps| == 36;
    assert |MiniEngine| == 26 && |MiniSeats| == 47 && |MiniGps| == 29;
  }

  /** Car: the list of its parts. */
  class Car {
    var parts: seq<string>

    constructor()
      ensures parts == []
    {
      parts := [];
    }

    /** AddPart: one part at the end. */
    method AddPart(part: string)
      modifies this
      ensures parts == old(parts) + [part]
    {
      parts := parts + [part];
    }
  }

  /** SportsCarBuilder or MiniCarBuilder: the car it builds is created with it and kept. */
  class CarBuilder {
    const line: CarLine
    const car: Car

    constructor(line: CarLine)
      ensures this.line == line && fresh(car) && car.parts == []
    {
      this.line := line;
      car := new Car();
    }

    method BuildEngine()
      modifies car
      ensures car.parts == old(car.parts) + [EnginePart(line)]
    {
      car.AddPart(EnginePart(line));
    }

    method BuildSeats()
      modifies car
      ensures car.parts == old(car.parts) + [SeatsPart(line)]
    {
      car.AddPart(SeatsPart(line));
    }

    method BuildGPS()
      modifies car
      ensures car.parts == old(car.parts) + [GpsPart(line)]
    {
      car.AddPart(GpsPart(line));
    }

    /** GetCar: the same car every time; the builder is never reset. */
    method GetCar() returns (c: Car)
      ensures c == car
    {
      c := car;
    }
  }

  /** Director: runs the steps of the builder it was given. */
  class Director {
    const builder: CarBuilder

    constructor(builder: CarBuilder)
      ensures this.builder == builder
    {
      this.builder := builder;
    }

    /** ConstructCar: engine, seats, navigation, appended to whatever the car has. */
    method ConstructCar()
      modifies builder.car
      ensures builder.car.parts == old(builder.car.parts) + ConstructionParts(builder.line)
    {
      builder.BuildEngine();
      builder.BuildSeats();
      builder.BuildGPS();
    }
  }

  /** A fresh builder's car after one ConstructCar, and the same car after a second one:
      the second construction appends, so the car then has six parts. */
  method ConstructTwice(line: CarLine) returns (once: seq<string>, twice: seq<string>)
    ensures once == [EnginePart(line), SeatsPart(line), GpsPart(line)]
    ensures twice == once + once && |twice| == 6
  {
    var builder := new CarBuilder(line);
    var director := new Director(builder);
    director.ConstructCar();
    var first := builder.GetCar();
    once := first.parts;
    director.ConstructCar();
    var second := builder.GetCar();
    assert second == first;
    twice := second.parts;
  }
}
