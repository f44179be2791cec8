/**
 * The Beerhall domain entities: Brewer, with its validating setters and the
 * collection of beers it owns, and the Beer and Location entities it refers to.
 */
module Domain {
  import opened Wrappers
  import opened EmailPattern

  /** A C# `int`. */
  newtype Int32 = x: int | -0x8000_0000 <= x < 0x8000_0000

  /** A DateTime, as its count of ticks; the model only compares them. */
  type DateTime = int

  /** An alcohol percentage (a C# `double`); the model only stores and returns it. */
  type Abv = real

  /** The longest name the Name setter accepts. */
  const MaxNameLength := 50

  /** The exception each failing operation throws, one per throw site. */
  datatype BrewerError =
    | NameRequired      // Name: null, empty or only white space
    | NameTooLong       // Name: longer than MaxNameLength
    | InvalidEmail      // ContactEmail: no match of the email pattern
    | DateInFuture      // DateEstablished: after today
    | NegativeTurnover  // Turnover: below zero
    | DuplicateBeer     // AddBeer: the brewer already has a beer of that name
    | BeerNotOwned      // DeleteBier: the beer is not one of the brewer's
    | NullBeer          // DeleteBier(null): the error message dereferences the beer

  /** char.IsWhiteSpace: the Unicode separators and the control characters U+0009-U+000D, U+0085. */
  predicate IsWhiteSpace(c: char) {
    ('\U{0009}' <= c <= '\U{000D}') || c == ' ' || c == '\U{0085}' || c == '\U{00A0}'
    || c == '\U{1680}' || ('\U{2000}' <= c <= '\U{200A}') || c == '\U{2028}' || c == '\U{2029}'
    || c == '\U{202F}' || c == '\U{205F}' || c == '\U{3000}'
  }

  /** string.IsNullOrWhiteSpace */
  predicate IsNullOrWhiteSpace(value: Option<string>) {
    value.None? || forall i | 0 <= i < |value.value| :: IsWhiteSpace(value.value[i])
  }

  /** A postal code and the name of the place; the Brewer only refers to one. */
  class Location {
    var postalCode: Option<string>
    var name: Option<string>

    constructor (postalCode: Option<string>, name: Option<string>)
      ensures this.postalCode == postalCode && this.name == name
    {
      this.postalCode := postalCode;
      this.name := name;
    }
  }

  /** A beer; its id stays 0 until the store assigns one. */
  class Beer {
    var beerId: Int32
    var name: Option<string>
    var alcoholByVolume: Option<Abv>
    var description: Option<string>

    constructor (name: Option<string>)
      ensures beerId == 0 && this.name == name
      ensures alcoholByVolume == None && description == None
    {
      beerId := 0;
      this.name := name;
      alcoholByVolume := None;
      description := None;
    }
  }

  /** No beer occurs twice: the sequence holds the elements of a set. */
  ghost predicate Distinct(bs: seq<Beer>) {
    forall i, j | 0 <= i < j < |bs| :: bs[i] != bs[j]
  }

  /** The set of beers a sequence holds. */
  function Elements(bs: seq<Beer>): set<Beer> {
    set b | b in bs
  }

  /** A sequence without repetitions has as many elements as its set. */
  lemma {:induction false} DistinctCardinality(bs: seq<Beer>)
    requires Distinct(bs)
    ensures |Elements(bs)| == |bs|
  {
    if bs != [] {
      DistinctCardinality(bs[1..]);
      assert Elements(bs) == {bs[0]} + Elements(bs[1..]);
      assert bs[0] !in bs[1..];
    }
  }

  /** The index of the first occurrence of b, or |bs| when b does not occur. */
  function IndexOf(bs: seq<Beer>, b: Beer): (i: nat)
    ensures i <= |bs|
    ensures i < |bs| ==> bs[i] == b
    ensures i == |bs| <==> b !in bs
  {
    if bs == [] then 0
    else if bs[0] == b then 0
    else 1 + IndexOf(bs[1..], b)
  }

  /** FirstOrDefault(b => b.BeerId == beerId): the first beer with that id, or null. */
  function FirstWithId(bs: seq<Beer>, beerId: Int32): (r: Beer?)
    reads bs
    ensures r == null <==> forall i | 0 <= i < |bs| :: bs[i].beerId != beerId
    ensures r != null ==> exists i | 0 <= i < |bs| ::
      bs[i] == r && r.beerId == beerId && forall j | 0 <= j < i :: bs[j].beerId != beerId
  {
    if bs == [] then null
    else if bs[0].beerId == beerId then bs[0]
    else
      var r := FirstWithId(bs[1..], beerId);
      assert r != null ==> exists i | 0 <= i < |bs[1..]| ::
        bs[1..][i] == r && forall j | 0 <= j < i :: bs[1..][j].beerId != beerId;
      r
  }

  /** FirstOrDefault(b => b.Name == name): the first beer with that name, or null. */
  function FirstWithName(bs: seq<Beer>, name: Option<string>): (r: Beer?)
    reads bs
    ensures r == null <==> forall i | 0 <= i < |bs| :: bs[i].name != name
    ensures r != null ==> exists i | 0 <= i < |bs| ::
      bs[i] == r && r.name == name && forall j | 0 <= j < i :: bs[j].name != name
  {
    if bs == [] then null
    else if bs[0].name == name then bs[0]
    else
      var r := FirstWithName(bs[1..], name);
      assert r != null ==> exists i | 0 <= i < |bs[1..]| ::
        bs[1..][i] == r && forall j | 0 <= j < i :: bs[1..][j].name != name;
      r
  }

  /**
   * A brewery. The private fields behind the validating properties are
   * name, contactEmail, dateEstablished and turnover; the other properties are
   * plain fields. `beers` holds the owned HashSet<Beer>, in an order the
   * contracts never depend on.
   */
  class Brewer {
    var brewerId: Int32
    var name: Option<string>
    var description: Option<string>
    var contactEmail: Option<string>
    var dateEstablished: Option<DateTime>
    var street: Option<string>
    var location: Location?
    var turnover: Option<Int32>
    var beers: seq<Beer>

    /** The beer collection is a set: no beer is held twice. */
    ghost predicate Valid()
      reads this
    {
      Distinct(beers)
    }

    /** The owned beers as a set. */
    function BeerSet(): set<Beer>
      reads this
    {
      Elements(beers)
    }

    /** Name, ContactEmail and Turnover hold only values their setters accept. */
    ghost predicate FieldsValid()
      reads this
    {
      (name.Some? ==> !IsNullOrWhiteSpace(name) && |name.value| <= MaxNameLength)
      && (contactEmail.Some? ==> ContainsEmail(contactEmail.value))
      && (turnover.Some? ==> turnover.value >= 0)
    }

    /** DateEstablished is not after the given day. */
    ghost predicate EstablishedBy(today: DateTime)
      reads this
    {
      dateEstablished.Some? ==> dateEstablished.value <= today
    }

    /** No two owned beers share a non-null name. */
    ghost predicate NamesDistinct()
      reads this, beers
    {
      forall i, j | 0 <= i < |beers| && 0 <= j < |beers| && i != j && beers[i].name.Some? ::
        beers[i].name != beers[j].name
    }

    /** Brewer(): no name, no beers, no turnover. */
    constructor ()
      ensures Valid() && FieldsValid() && NamesDistinct()
      ensures beers == [] && turnover == None
      ensures brewerId == 0 && name == None && description == None && contactEmail == None
      ensures dateEstablished == None && street == None && location == null
    {
      brewerId := 0;
      name := None;
      description := None;
      contactEmail := None;
      dateEstablished := None;
      street := None;
      location := null;
      turnover := None;
      beers := [];
    }

    /** Brewer(name): Brewer() followed by the Name setter, which may throw. */
    static method Named(name: Option<string>) returns (r: Result<Brewer, BrewerError>)
      ensures r.Failure? <==> IsNullOrWhiteSpace(name) || |name.value| > MaxNameLength
      ensures r.Failure? ==> r.error == if IsNullOrWhiteSpace(name) then NameRequired else NameTooLong
      ensures r.Success? ==> fresh(r.value) && r.value.Valid() && r.value.FieldsValid()
      ensures r.Success? ==> r.value.NamesDistinct()
      ensures r.Success? ==> r.value.name == name && r.value.beers == [] && r.value.turnover == None
      ensures r.Success? ==> r.value.brewerId == 0 && r.value.description == None
      ensures r.Success? ==> r.value.contactEmail == None && r.value.dateEstablished == None
      ensures r.Success? ==> r.value.street == None && r.value.location == null
    {
      var brewer := new Brewer();
      var outcome := brewer.SetName(name);
      if outcome.Fail? {
        return Failure(outcome.error);
      }
      r := Success(brewer);
    }

    /** Brewer(name, location, street): Brewer(name), then the two plain properties. */
    static method WithAddress(name: Option<string>, location: Location?, street: Option<string>)
      returns (r: Result<Brewer, BrewerError>)
      ensures r.Failure? <==> IsNullOrWhiteSpace(name) || |name.value| > MaxNameLength
      ensures r.Failure? ==> r.error == if IsNullOrWhiteSpace(name) then NameRequired else NameTooLong
      ensures r.Success? ==> fresh(r.value) && r.value.Valid() && r.value.FieldsValid()
      ensures r.Success? ==> r.value.NamesDistinct()
      ensures r.Success? ==> r.value.name == name && r.value.beers == [] && r.value.turnover == None
      ensures r.Success? ==> r.value.location == location && r.value.street == street
      ensures r.Success? ==> r.value.brewerId == 0 && r.value.description == None
      ensures r.Success? ==> r.value.contactEmail == None && r.value.dateEstablished == None
    {
      r := Named(name);
      if r.Success? {
        r.value.location := location;
        r.value.street := street;
      }
    }

    /** The Name setter: a non-blank name of at most 50 characters is stored, anything else throws. */
    method SetName(value: Option<string>) returns (outcome: Outcome<BrewerError>)
      modifies this`name
      ensures IsNullOrWhiteSpace(value) ==> outcome == Fail(NameRequired)
      ensures !IsNullOrWhiteSpace(value) && |value.value| > MaxNameLength ==> outcome == Fail(NameTooLong)
      ensures outcome.Pass? <==> !IsNullOrWhiteSpace(value) && |value.value| <= MaxNameLength
      ensures name == if outcome.Pass? then value else old(name)
      ensures old(FieldsValid()) ==> FieldsValid()
    {
      if IsNullOrWhiteSpace(value) {
        return Fail(NameRequired);
      }
      if |value.value| > MaxNameLength {
        return Fail(NameTooLong);
      }
      name := value;
      outcome := Pass;
    }

    /**
     * The ContactEmail setter: null is ignored and keeps the previous address;
     * a string containing a match of the email pattern is stored; any other throws.
     */
    method SetContactEmail(value: Option<string>) returns (outcome: Outcome<BrewerError>)
      modifies this`contactEmail
      ensures value.None? ==> outcome == Pass && contactEmail == old(contactEmail)
      ensures value.Some? && RegexFinds(value.value) ==> outcome == Pass && contactEmail == value
      ensures value.Some? && !RegexFinds(value.value) ==>
        outcome == Fail(InvalidEmail) && contactEmail == old(contactEmail)
      ensures old(FieldsValid()) ==> FieldsValid()
    {
      outcome := Pass;
      if value.Some? {
        ContainsEmailIffRegexFinds(value.value);
        if !ContainsEmail(value.value) {
          return Fail(InvalidEmail);
        }
        contactEmail := value;
      }
    }

    /** The DateEstablished setter: null clears it, a date up to today is stored, a later one throws. */
    method SetDateEstablished(value: Option<DateTime>, today: DateTime) returns (outcome: Outcome<BrewerError>)
      modifies this`dateEstablished
      ensures outcome.Pass? <==> value.None? || value.value <= today
      ensures outcome.Fail? ==> outcome.error == DateInFuture
      ensures dateEstablished == if outcome.Pass? then value else old(dateEstablished)
      ensures outcome.Pass? ==> EstablishedBy(today)
      ensures old(EstablishedBy(today)) ==> EstablishedBy(today)
    {
      if value.Some? && value.value > today {
        return Fail(DateInFuture);
      }
      dateEstablished := value;
      outcome := Pass;
    }

    /** The Turnover setter: null or a value of at least zero is stored, a negative one throws. */
    method SetTurnover(value: Option<Int32>) returns (outcome: Outcome<BrewerError>)
      modifies this`turnover
      ensures outcome.Pass? <==> value.None? || value.value >= 0
      ensures outcome.Fail? ==> outcome.error == NegativeTurnover
      ensures turnover == if outcome.Pass? then value else old(turnover)
      ensures old(FieldsValid()) ==> FieldsValid()
    {
      var amount := if value.Some? then value.value else 0;
      if amount < 0 {
        return Fail(NegativeTurnover);
      }
      turnover := value;
      outcome := Pass;
    }

    /** NrOfBeers: the number of beers in the collection. */
    function NrOfBeers(): (n: nat)
      requires Valid()
      reads this
      ensures n == |BeerSet()|
    {
      DistinctCardinality(beers);
      |beers|
    }

    /** GetBy(int): an owned beer with that id, or null when there is none. */
    function GetById(beerId: Int32): (r: Beer?)
      reads this, beers
      ensures r != null ==> r in BeerSet() && r.beerId == beerId
      ensures r == null <==> forall b | b in BeerSet() :: b.beerId != beerId
    {
      FirstWithId(beers, beerId)
    }

    /** GetBy(string): an owned beer with that name, or null when there is none. */
    function GetByName(name: Option<string>): (r: Beer?)
      reads this, beers
      ensures r != null ==> r in BeerSet() && r.name == name
      ensures r == null <==> forall b | b in BeerSet() :: b.name != name
    {
      FirstWithName(beers, name)
    }

    /**
     * AddBeer: throws when the name is not null and an owned beer already has
     * it; otherwise adds one new beer with the given fields and returns it.
     */
    method AddBeer(name: Option<string>, alcoholByVolume: Option<Abv>, description: Option<string>)
      returns (r: Result<Beer, BrewerError>)
      requires Valid()
      modifies this`beers
      ensures Valid()
      ensures r.Failure? <==> name.Some? && old(GetByName(name)) != null
      ensures r.Failure? ==> r.error == DuplicateBeer && beers == old(beers)
      ensures r.Success? ==> fresh(r.value) && r.value.beerId == 0 && r.value.name == name
      ensures r.Success? ==> r.value.alcoholByVolume == alcoholByVolume && r.value.description == description
      ensures r.Success? ==> BeerSet() == old(BeerSet()) + {r.value} && NrOfBeers() == old(NrOfBeers()) + 1
      ensures old(NamesDistinct()) ==> NamesDistinct()
    {
      if name.Some? && FirstWithName(beers, name) != null {
        return Failure(DuplicateBeer);
      }
      var beer := new Beer(name);
      beer.alcoholByVolume := alcoholByVolume;
      beer.description := description;
      beers := beers + [beer];
      assert Elements(beers) == Elements(old(beers)) + {beer};
      r := Success(beer);
    }

    /**
     * DeleteBier: throws when the beer is not owned (a null beer fails while
     * the message is built); otherwise removes exactly that beer.
     */
    method DeleteBier(beer: Beer?) returns (outcome: Outcome<BrewerError>)
      requires Valid()
      modifies this`beers
      ensures Valid()
      ensures beer == null ==> outcome == Fail(NullBeer)
      ensures beer != null && beer !in old(BeerSet()) ==> outcome == Fail(BeerNotOwned)
      ensures outcome.Pass? <==> beer != null && beer in old(BeerSet())
      ensures outcome.Fail? ==> beers == old(beers)
      ensures outcome.Pass? ==> BeerSet() == old(BeerSet()) - {beer} && NrOfBeers() == old(NrOfBeers()) - 1
      ensures old(NamesDistinct()) ==> NamesDistinct()
    {
      if beer == null {
        // Contains(null) is false, and building the message dereferences null
        return Fail(NullBeer);
      }
      var i := IndexOf(beers, beer);
      if i == |beers| {
        return Fail(BeerNotOwned);
      }
      beers := beers[..i] + beers[i + 1..];
      outcome := Pass;
    }
  }
}
