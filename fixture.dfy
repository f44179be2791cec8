/**
 * The scenarios of the test fixture and the controller test, played through
 * the Brewer operations: each method's postcondition is what the contracts
 * of those operations let a caller conclude.
 */
module Fixture {
  import opened Wrappers
  import opened Domain
  import opened TotalTurnover

  /** Brewer(name) for a name known to be acceptable. */
  method NewBrewer(name: string) returns (brewer: Brewer)
    requires 0 < |name| <= MaxNameLength && !IsWhiteSpace(name[0])
    ensures fresh(brewer) && brewer.Valid() && brewer.FieldsValid()
    ensures brewer.name == Some(name) && brewer.beers == [] && brewer.turnover == None
  {
    var r := Brewer.Named(Some(name));
    brewer := r.value;
  }

  /** Brewer(name, location, street) for a name known to be acceptable. */
  method NewBrewerAt(name: string, location: Location, street: string) returns (brewer: Brewer)
    requires 0 < |name| <= MaxNameLength && !IsWhiteSpace(name[0])
    ensures fresh(brewer) && brewer.Valid() && brewer.FieldsValid()
    ensures brewer.name == Some(name) && brewer.beers == [] && brewer.turnover == None
    ensures brewer.location == location && brewer.street == Some(street)
  {
    var r := Brewer.WithAddress(Some(name), location, Some(street));
    brewer := r.value;
  }

  /**
   * Bavik as the dummy context builds it: brewer 1 at "Rijksweg 33" in Bavikhove (8531),
   * with "Bavik Pils" (5.2) and "Wittekerke" (5.0), which get the ids 1 and 2.
   */
  method DummyBavik() returns (bavik: Brewer, bavikhove: Location, pils: Beer, wittekerke: Beer)
    ensures fresh(bavik) && bavik.Valid() && bavik.FieldsValid() && bavik.turnover == None
    ensures bavik.brewerId == 1 && bavik.name == Some("Bavik")
    ensures bavik.location == bavikhove && bavik.street == Some("Rijksweg 33")
    ensures bavikhove.postalCode == Some("8531") && bavikhove.name == Some("Bavikhove")
    ensures bavik.BeerSet() == {pils, wittekerke} && pils != wittekerke
    ensures pils.name == Some("Bavik Pils") && pils.alcoholByVolume == Some(5.2) && pils.beerId == 1
    ensures wittekerke.name == Some("Wittekerke") && wittekerke.alcoholByVolume == Some(5.0)
    ensures wittekerke.beerId == 2
  {
    bavikhove := new Location(Some("8531"), Some("Bavikhove"));
    bavik := NewBrewerAt("Bavik", bavikhove, "Rijksweg 33");
    bavik.brewerId := 1;
    var r := bavik.AddBeer(Some("Bavik Pils"), Some(5.2), None);
    assert r.Success?;
    pils := r.value;
    pils.beerId := 1;
    assert bavik.BeerSet() == {pils};
    r := bavik.AddBeer(Some("Wittekerke"), Some(5.0), None);
    assert r.Success?;
    wittekerke := r.value;
    wittekerke.beerId := 2;
  }

  /** Bavik's two beers are found again by name and by id, with their alcohol percentages. */
  method BavikBeers() returns (count: nat, pilsAbv: Option<Abv>, wittekerkeAbv: Option<Abv>, byIdIsPils: bool)
    ensures count == 2
    ensures pilsAbv == Some(5.2) && wittekerkeAbv == Some(5.0)
    ensures byIdIsPils
  {
    var bavik, bavikhove, pils, wittekerke := DummyBavik();
    count := bavik.NrOfBeers();
    var p := bavik.GetByName(Some("Bavik Pils"));
    assert p == pils;
    var w := bavik.GetByName(Some("Wittekerke"));
    assert w == wittekerke;
    pilsAbv := p.alcoholByVolume;
    wittekerkeAbv := w.alcoholByVolume;
    byIdIsPils := bavik.GetById(1) == p;
  }

  /** Adding "Bavik Pils" twice fails the second time, and one beer remains. */
  method DuplicateBeerRejected() returns (second: Option<BrewerError>, count: nat)
    ensures second == Some(DuplicateBeer)
    ensures count == 1
  {
    var bavik := NewBrewer("Bavik");
    var first := bavik.AddBeer(Some("Bavik Pils"), Some(5.2), None);
    var again := bavik.AddBeer(Some("Bavik Pils"), Some(5.2), None);
    second := if again.Failure? then Some(again.error) else None;
    count := bavik.NrOfBeers();
  }

  /** Deleting Bavik's beer from Duvel Moortgat fails and leaves Duvel's beers alone. */
  method DeleteForeignBeerRejected() returns (outcome: Outcome<BrewerError>, count: nat, duvelKept: bool)
    ensures outcome == Fail(BeerNotOwned)
    ensures count == 1 && duvelKept
  {
    var bavik := NewBrewer("Bavik");
    var moortgat := NewBrewer("Duvel Moortgat");
    var pils := bavik.AddBeer(Some("Bavik Pils"), Some(5.2), None);
    var duvel := moortgat.AddBeer(Some("Duvel"), Some(8.5), None);
    outcome := moortgat.DeleteBier(pils.value);
    count := moortgat.NrOfBeers();
    duvelKept := moortgat.GetByName(Some("Duvel")) == duvel.value;
  }

  /** Deleting an owned beer removes it: afterwards it is no longer found. */
  method DeleteOwnBeer() returns (outcome: Outcome<BrewerError>, count: nat, found: bool)
    ensures outcome == Pass
    ensures count == 0 && !found
  {
    var moortgat := NewBrewer("Duvel Moortgat");
    var duvel := moortgat.AddBeer(Some("Duvel"), Some(8.5), None);
    outcome := moortgat.DeleteBier(duvel.value);
    count := moortgat.NrOfBeers();
    found := moortgat.GetByName(Some("Duvel")) != null;
  }

  /** new Brewer("Chimay") then Turnover = -1: the setter throws and Turnover stays null. */
  method ChimayNegativeTurnover() returns (outcome: Outcome<BrewerError>, turnover: Option<Int32>)
    ensures outcome == Fail(NegativeTurnover)
    ensures turnover == None
  {
    var chimay := NewBrewer("Chimay");
    outcome := chimay.SetTurnover(Some(-1));
    turnover := chimay.turnover;
  }

  /** AddBeer("Duvel", 8.5) on a brewer without beers returns that beer and makes the count 1. */
  method AddDuvel() returns (name: Option<string>, abv: Option<Abv>, count: nat)
    ensures name == Some("Duvel") && abv == Some(8.5)
    ensures count == 1
  {
    var moortgat := NewBrewer("Duvel Moortgat");
    var duvel := moortgat.AddBeer(Some("Duvel"), Some(8.5), None);
    name := duvel.value.name;
    abv := duvel.value.alcoholByVolume;
    count := moortgat.NrOfBeers();
  }

  /**
   * Duvel Moortgat as the dummy context builds it: brewer 2 at "Breendonkdorp 28" in
   * Puurs (2870), with one beer, "Duvel" (8.5), which gets the id 3; no turnover.
   */
  method DummyMoortgat() returns (moortgat: Brewer, puurs: Location, duvel: Beer)
    ensures fresh(moortgat) && moortgat.Valid() && moortgat.FieldsValid() && moortgat.turnover == None
    ensures moortgat.brewerId == 2 && moortgat.name == Some("Duvel Moortgat")
    ensures moortgat.location == puurs && moortgat.street == Some("Breendonkdorp 28")
    ensures puurs.postalCode == Some("2870") && puurs.name == Some("Puurs")
    ensures moortgat.BeerSet() == {duvel}
    ensures duvel.name == Some("Duvel") && duvel.alcoholByVolume == Some(8.5) && duvel.beerId == 3
  {
    puurs := new Location(Some("2870"), Some("Puurs"));
    moortgat := NewBrewerAt("Duvel Moortgat", puurs, "Breendonkdorp 28");
    moortgat.brewerId := 2;
    var r := moortgat.AddBeer(Some("Duvel"), Some(8.5), None);
    assert r.Success?;
    duvel := r.value;
    duvel.beerId := 3;
  }

  /**
   * The three dummy brewers, De Leeuw (50,000), Duvel Moortgat (no turnover)
   * and Bavik (20,000,000): the total turnover is 20,050,000.
   */
  method DummyTotalTurnover() returns (total: Option<Int32>)
    ensures total == Some(20050000)
  {
    var bavik, bavikhove, pils, wittekerke := DummyBavik();
    var o1 := bavik.SetTurnover(Some(20000000));
    var moortgat, puurs, duvel := DummyMoortgat();
    var deLeeuw := NewBrewer("De Leeuw");
    deLeeuw.brewerId := 3;
    var o2 := deLeeuw.SetTurnover(Some(50000));
    var brewers := [deLeeuw, moortgat, bavik];
    ghost var ts := Turnovers(brewers);
    assert ts == [Some(50000), None, Some(20000000)];
    assert Total(ts) == 20050000 by {
      assert ts[1..] == [None, Some(20000000)];
      assert ts[1..][1..] == [Some(20000000)];
      assert Total([Some(20000000)]) == 20000000;
      assert Total([None, Some(20000000)]) == 20000000;
    }
    TotalTurnoverOfValidBrewers(brewers);
    total := TotalTurnoverOf(brewers);
  }

  /** An address inside other text is accepted; a null address keeps the one before. */
  method ContactEmailScenario() returns (afterSet: Option<string>, afterNull: Option<string>)
    ensures afterSet == Some("mail info@bavik.be!")
    ensures afterNull == Some("mail info@bavik.be!")
  {
    var bavik := NewBrewer("Bavik");
    EmailPattern.AcceptsAddressInsideText();
    EmailPattern.ContainsEmailIffRegexFinds("mail info@bavik.be!");
    var o1 := bavik.SetContactEmail(Some("mail info@bavik.be!"));
    afterSet := bavik.contactEmail;
    var o2 := bavik.SetContactEmail(None);
    afterNull := bavik.contactEmail;
  }
}
