/**
 * The Prototype sample: Person.Clone copies a person member by member and then gives the
 * copy its own IdInfo, so that later changes to the original do not show in the copy.
 */
module Prototype {
  import opened Optional

  /** DateTime as a calendar date; the sample only ever parses dates. */
  datatype Date = Date(year: int, month: int, day: int)

  /** What can be observed of a person: the plain fields and the IdNumber behind idInfo. */
  datatype PersonView = PersonView(age: int, birthDate: Date, name: string, idNumber: Option<int>)

  class IdInfo {
    var idNumber: int

    constructor(idNumber: int)
      ensures this.idNumber == idNumber
    {
      this.idNumber := idNumber;
    }

    /** IdInfo.Clone: a new IdInfo with the same number. */
    method Clone() returns (c: IdInfo)
      ensures fresh(c) && c.idNumber == idNumber
    {
      c := new IdInfo(idNumber);
    }
  }

  class Person {
    var age: int
    var birthDate: Date
    var name: string
    var idInfo: IdInfo?

    constructor(age: int, birthDate: Date, name: string, idInfo: IdInfo?)
      ensures this.age == age && this.birthDate == birthDate && this.name == name
      ensures this.idInfo == idInfo
    {
      this.age := age;
      this.birthDate := birthDate;
      this.name := name;
      this.idInfo := idInfo;
    }

    function View(): PersonView
      reads this, idInfo
    {
      PersonView(age, birthDate, name, if idInfo == null then None else Some(idInfo.idNumber))
    }

    /** Clone (DeepCopy): the same values in a new Person whose idInfo is a new IdInfo, or
        null when the original has none. */
    method Clone() returns (c: Person)
      ensures fresh(c) && c.View() == View()
      ensures idInfo == null ==> c.idInfo == null
      ensures idInfo != null ==> fresh(c.idInfo)
    {
      var copy: IdInfo? := null;
      if idInfo != null {
        copy := idInfo.Clone();
      }
      c := new Person(age, birthDate, name, copy);
    }
  }

  /** Changing every field of the original, its IdInfo's number included, after taking a
      clone leaves the clone as it was. */
  method MutateAfterClone(p: Person, age: int, birthDate: Date, name: string, idNumber: int)
    returns (clone: Person)
    requires p.idInfo != null
    modifies p, p.idInfo
    ensures p.View() == PersonView(age, birthDate, name, Some(idNumber))
    ensures clone.View() == old(p.View())
  {
    clone := p.Clone();
    p.age := age;
    p.birthDate := birthDate;
    p.name := name;
    p.idInfo.idNumber := idNumber;
  }

  /** The sample: two clones of Jack Daniels, then the original becomes Shalom with number
      7878 and is cloned once more. The first clones keep the old values, the last one has
      the new ones, and no clone shares the original's IdInfo. */
  method CloneDemo() returns (p1: PersonView, p2: PersonView, p3: PersonView, p4: PersonView, shared: bool)
    ensures p2 == p3 == PersonView(23, Date(1991, 1, 1), "Jack Daniels", Some(1))
    ensures p1 == p4 == PersonView(33, Date(1900, 1, 1), "Shalom", Some(7878))
    ensures !shared
  {
    var id := new IdInfo(1);
    var original := new Person(23, Date(1991, 1, 1), "Jack Daniels", id);
    var second := original.Clone();
    var third := original.Clone();
    original.age := 33;
    original.birthDate := Date(1900, 1, 1);
    original.name := "Shalom";
    original.idInfo.idNumber := 7878;
    var fourth := original.Clone();
    shared := second.idInfo == original.idInfo || third.idInfo == original.idInfo
      || fourth.idInfo == original.idInfo;
    p1, p2, p3, p4 := original.View(), second.View(), third.View(), fourth.View();
  }
}
