# Beerhall Brewer entity in Dafny

Beerhall is a small administration application for breweries ("brewers"), their beers and locations.
The only logic it has is in the `Brewer` domain entity. That entity checks each value assigned to
its validated properties, and it owns the beers it brews. This project models that entity and proves
what its operations promise:

- `Name`, `ContactEmail`, `DateEstablished` and `Turnover` either store the new value or throw and keep
  the old one. Each of the four setters is a method that changes only its own field and returns an
  `Outcome`: `Pass`, or `Fail` with the kind of exception.
- The three constructors are `Brewer()` (the unnamed constructor), `Brewer(name)` (`Named`) and
  `Brewer(name, location, street)` (`WithAddress`). The last two throw whenever the `Name` setter would,
  so they are static methods returning a `Result`.
- `AddBeer` refuses a second beer of the same (non-null) name. `DeleteBier` refuses a beer the brewer
  does not own. Both keep the collection a set, and both preserve "no two beers share a non-null name".
- `GetBy(int)` and `GetBy(string)` are the functions `GetById` and `GetByName`. Each returns an owned beer
  that matches, or null when none does. `NrOfBeers` is the size of the collection.
- The brewer overview's total turnover (`BrewerController.Index`) is a checked `Sum` that skips null
  turnovers. Over brewers whose turnovers went through the setter, it is the exact total, or an
  overflow when the total exceeds `int.MaxValue`.
- The `Fixture` module replays the test fixture through these contracts: Bavik with "Bavik Pils" and
  "Wittekerke", Duvel Moortgat with "Duvel", De Leeuw with no beers, and a total turnover of 20,050,000.

Files:
- `wrappers.dfy`: `Option` (null), `Outcome` and `Result` (a thrown exception).
- `email.dfy`: the email regular expression.
- `domain.dfy`: `Beer`, `Location` and `Brewer`.
- `turnover.dfy`: the controller's total turnover.
- `fixture.dfy`: the fixture scenarios.

Modelling choices:
- The email check is `Regex.Match`, which searches anywhere in the string. `RegexFinds` states that
  search literally: some substring matches the whole pattern, with two to four letters for
  `{2,4}`. `ContainsEmail` is the condition the setter evaluates: a local character, then `@`, then
  domain characters, then `.`, then two letters. `ContainsEmailIffRegexFinds` proves the two equivalent.
  The code is followed where it is looser than the pattern's evident intent: an address inside other
  text is accepted, and so is a top-level domain longer than four letters.
- Assigning null to `ContactEmail` keeps the previous address, as the code does. The other nullable
  setters clear their field on null.
- `DeleteBier(null)` fails: `Contains(null)` is false, and the exception message then dereferences the
  null beer. This is the `NullBeer` error.
- The `HashSet<Beer>` is a field `beers: seq<Beer>` without repetitions (`Valid`). Beers are compared by
  reference. The order of the sequence stands for the set's enumeration order, which the source leaves
  unspecified. The contracts of `AddBeer` and `DeleteBier` speak only of the set of beers (`BeerSet`)
  and the count. `FirstWithId` and `FirstWithName` state `FirstOrDefault` exactly (the first match in
  enumeration order). `GetById` and `GetByName` state only what holds in any order.
- Null references are `Option` values (`string` is `Option<string>`, `int?` is `Option<Int32>`).
  Object references are `Beer?` and `Location?`.
- `DateTime` is a tick count. `DateTime.Today` becomes the parameter `today` of `SetDateEstablished`,
  the tick count of the current day's midnight. So a moment later on the current day is rejected, as
  `value > DateTime.Today` rejects it.
- A beer's alcohol percentage (`double`) is `Abv`, a `real` that is only stored and returned.

## Model

| member | source | states |
|---|---|---|
| `EmailPattern.RegexFinds` | src/Beerhall/Models/Domain/Brewer.cs:39-40 | `Regex.Match(value).Success`: some substring of the value is a match of the whole pattern, one or more local characters, `@`, one or more domain characters, `.`, then two to four letters |
| `EmailPattern.ContainsEmailIffRegexFinds` | src/Beerhall/Models/Domain/Brewer.cs:39-41 | the simple test the setter evaluates succeeds exactly when the unanchored regex search finds a match |
| `EmailPattern.AcceptsAddressInsideText` | src/Beerhall/Models/Domain/Brewer.cs:39-41 | an address with other text before and after it is accepted, because the search is unanchored |
| `EmailPattern.AcceptsLongTopLevelDomain` | src/Beerhall/Models/Domain/Brewer.cs:39-41 | a top-level domain longer than four letters is accepted, because `{2,4}` bounds only the matched part |
| `EmailPattern.RejectsOneLetterTopLevelDomain` | src/Beerhall/Models/Domain/Brewer.cs:39-41 | one letter after the last dot is not enough |
| `Domain.IsWhiteSpace` | src/Beerhall/Models/Domain/Brewer.cs:24 | `char.IsWhiteSpace`: the Unicode space, line and paragraph separators, U+0009 to U+000D and U+0085 |
| `Domain.IsNullOrWhiteSpace` | src/Beerhall/Models/Domain/Brewer.cs:24 | `string.IsNullOrWhiteSpace`: the value is null, or every one of its characters is white space (so the empty string counts) |
| `Domain.DistinctCardinality` | src/Beerhall/Models/Domain/Brewer.cs:77 | a collection without repetitions has as many elements as its set, so `Count` is the set's size |
| `Domain.IndexOf` | src/Beerhall/Models/Domain/Brewer.cs:111 | `Contains`: the index found holds the beer, and the end is returned exactly when the beer is absent |
| `Domain.FirstWithId` | src/Beerhall/Models/Domain/Brewer.cs:117 | `FirstOrDefault` by id: null exactly when no beer has the id, otherwise the first beer that has it |
| `Domain.FirstWithName` | src/Beerhall/Models/Domain/Brewer.cs:121 | `FirstOrDefault` by name: null exactly when no beer has the name, otherwise the first beer that has it |
| `Domain.Location.constructor` | test/Beerhall.Tests/Data/DummyApplicationDbContext.cs:24-26 | a new location holds the given postal code and name |
| `Domain.Beer.constructor` | src/Beerhall/Models/Domain/Brewer.cs:102 | a new beer has the given name, id 0, and no alcohol percentage or description |
| `Domain.Brewer.constructor` | src/Beerhall/Models/Domain/Brewer.cs:82-85 | `Brewer()` has no beers, no turnover, no name and no other values, and it keeps every invariant |
| `Domain.Brewer.Named` | src/Beerhall/Models/Domain/Brewer.cs:87-89 | `Brewer(name)` fails exactly when the Name setter would, with the same error; otherwise it holds the name, no beers and no turnover |
| `Domain.Brewer.WithAddress` | src/Beerhall/Models/Domain/Brewer.cs:91-95 | `Brewer(name, location, street)` fails exactly as `Brewer(name)`; otherwise it also holds the location and street |
| `Domain.Brewer.SetName` | src/Beerhall/Models/Domain/Brewer.cs:23-28 | a null or white-space name fails with NameRequired, and one over 50 characters with NameTooLong; any other name is stored unchanged; a failure keeps the old name, and no other field changes |
| `Domain.Brewer.SetContactEmail` | src/Beerhall/Models/Domain/Brewer.cs:37-45 | null keeps the old address; a value the regex finds a match in is stored; any other value fails and keeps the old address |
| `Domain.Brewer.SetDateEstablished` | src/Beerhall/Models/Domain/Brewer.cs:49-53 | null or a date up to today is stored (null clears the field); a later date fails and keeps the old one; afterwards the date is not after today |
| `Domain.Brewer.SetTurnover` | src/Beerhall/Models/Domain/Brewer.cs:66-70 | null or a value of at least zero is stored; a negative value fails and keeps the old one |
| `Domain.Brewer.NrOfBeers` | src/Beerhall/Models/Domain/Brewer.cs:77 | the number of beers is the size of the set of owned beers |
| `Domain.Brewer.GetById` | src/Beerhall/Models/Domain/Brewer.cs:116-118 | returns an owned beer with the id, and null exactly when no owned beer has it |
| `Domain.Brewer.GetByName` | src/Beerhall/Models/Domain/Brewer.cs:120-122 | returns an owned beer with the name, and null exactly when no owned beer has it |
| `Domain.Brewer.AddBeer` | src/Beerhall/Models/Domain/Brewer.cs:99-108 | fails with DuplicateBeer exactly when the name is not null and already owned, and then nothing changes; otherwise it adds one fresh beer with the given fields, the count grows by one, and distinct names stay distinct |
| `Domain.Brewer.DeleteBier` | src/Beerhall/Models/Domain/Brewer.cs:110-114 | a null beer or one not owned fails and changes nothing; an owned beer is removed and nothing else is, and the count drops by one |
| `TotalTurnover.CheckedSumFrom` | src/Beerhall/Controllers/BrewerController.cs:24 | the loop inside `Enumerable.Sum` continued from a partial sum: null turnovers are skipped, every addition is checked, and None stands for the OverflowException |
| `TotalTurnover.CheckedSum` | src/Beerhall/Controllers/BrewerController.cs:24 | `Sum(b => b.Turnover)` over turnovers in enumeration order, starting from 0, so the empty sum is 0 |
| `TotalTurnover.TotalTurnoverOf` | src/Beerhall/Controllers/BrewerController.cs:23-24 | the checked Sum of the brewers' turnovers in the given order, with None for the OverflowException |
| `TotalTurnover.CheckedSumFromIsExact` | src/Beerhall/Controllers/BrewerController.cs:24 | when the checked sum of the non-null turnovers does not overflow, it equals their exact sum |
| `TotalTurnover.CheckedSumFromNonNegative` | src/Beerhall/Controllers/BrewerController.cs:24 | with no negative turnover, the sum overflows exactly when the exact total exceeds `int.MaxValue` |
| `TotalTurnover.TotalTurnoverOfValidBrewers` | src/Beerhall/Controllers/BrewerController.cs:23-24 | over brewers with no negative turnover, as every turnover that passed the setter is, the total shown is the exact sum of the set turnovers, or an overflow when it exceeds `int.MaxValue` |
| `TotalTurnover.TotalOfPermutation` | src/Beerhall/Controllers/BrewerController.cs:23-24 | the exact total of the turnovers is the same for every ordering of the brewers, so ordering them by name does not change it |
| `Fixture.DummyBavik` | test/Beerhall.Tests/Data/DummyApplicationDbContext.cs:24-32 | Bavik built with `Brewer(name, location, street)` is brewer 1 at "Rijksweg 33" in Bavikhove (8531); AddBeer gives it exactly "Bavik Pils" (5.2, id 1) and "Wittekerke" (5.0, id 2) |
| `Fixture.BavikBeers` | test/Beerhall.Tests/Data/DummyApplicationDbContext.cs:34-35 | Bavik has two beers; both are found again by name with their percentages, and id 1 finds "Bavik Pils" |
| `Fixture.DummyMoortgat` | test/Beerhall.Tests/Data/DummyApplicationDbContext.cs:37-38 | Duvel Moortgat built with `Brewer(name, location, street)` is brewer 2 at "Breendonkdorp 28" in Puurs (2870); AddBeer gives it exactly "Duvel" (8.5, id 3) |
| `Fixture.DummyTotalTurnover` | test/Beerhall.Tests/Controllers/BrewerControllerTest.cs:41-45 | the fixture's three brewers have a total turnover of 20,050,000 |
| `Fixture.DuplicateBeerRejected` | src/Beerhall/Models/Domain/Brewer.cs:100-101 | adding "Bavik Pils" twice fails with DuplicateBeer the second time, and one beer remains |
| `Fixture.DeleteForeignBeerRejected` | src/Beerhall/Models/Domain/Brewer.cs:111-112 | deleting another brewer's beer fails with BeerNotOwned and keeps the brewer's own beer |
| `Fixture.DeleteOwnBeer` | src/Beerhall/Models/Domain/Brewer.cs:113 | deleting the only beer leaves none, and it is no longer found by name |
| `Fixture.ChimayNegativeTurnover` | src/Beerhall/Models/Domain/Brewer.cs:67-68 | setting the turnover of a new brewer to -1 fails with NegativeTurnover, and the turnover stays null |
| `Fixture.AddDuvel` | src/Beerhall/Models/Domain/Brewer.cs:99-107 | AddBeer("Duvel", 8.5) on a brewer with no beers returns a beer with that name and percentage, and the count becomes 1 |
| `Fixture.ContactEmailScenario` | src/Beerhall/Models/Domain/Brewer.cs:37-45 | an address inside text is stored, and assigning null afterwards keeps it |

## Left out

- Domain.Brewer.SetName: the length is counted in Dafny characters (Unicode scalar values). `string.Length` counts UTF-16 code units, so a character outside the Basic Multilingual Plane counts once here and twice in the source. Lone surrogates cannot be represented.
- The regular-expression engine is not modelled. The pattern is stated as predicates over characters, and there is no regex timeout.
- `DateTime.Today` is the parameter `today`. `DateTime` is a tick count, and its `Kind` is ignored, as the comparison ignores it.
- Alcohol percentages are `real` values that are stored and returned, never computed on. Floating-point behaviour does not arise.
- The `Beer` and `Location` classes are not part of this model. Beer is reduced to its id, name, percentage and description; its constructor is taken to store the name without a check. Location is reduced to its postal code and name.
- `Beers` is an `ICollection` exposed to every caller, and a beer's name can be changed from outside. Changes made directly to the collection or to a beer bypass `AddBeer` and `DeleteBier`. The model proves that the Brewer's own operations preserve distinct names, not that nobody else breaks them.
- `BrewerId`, `Description`, `Street` and `Location` are automatic properties without checks. They are plain fields.
- The exception messages are not modelled, only which exception is thrown.
- TotalTurnover.TotalTurnoverOf: sums the brewers in the order it is given and does not model the controller's `OrderBy(b => b.Name)`. The exact total does not depend on the order (`TotalOfPermutation`), and over non-negative turnovers the result depends only on that exact total (`TotalTurnoverOfValidBrewers`), so the order makes no difference there.
- The controller actions, the view model, Entity Framework mapping, dependency injection, authentication and the rest of the web plumbing are framework code and are not modelled.
- Concurrent use of one Brewer is not modelled; the operations are sequential.
