/** Flag questions: a country not asked yet is drawn from a fixed list,
    together with three other countries as decoys, and the player names
    the flag shown. */
module PreguntadosService {
  import opened Wrappers
  import opened Random
  import opened Sets

  datatype Country = Country(code: string, name: string)

  /** A question: the flag image, the right name, four names to choose
      from, and the code of the country asked. */
  datatype Question = Question(imageUrl: string, correct: string, options: seq<string>, countryCode: string)

  const ALL_COUNTRIES: seq<Country> := [
    Country("AR", "Argentina"), Country("ES", "España"), Country("MX", "México"),
    Country("CO", "Colombia"), Country("CL", "Chile"), Country("PE", "Perú"),
    Country("UY", "Uruguay"), Country("BR", "Brasil"), Country("US", "Estados Unidos"),
    Country("CA", "Canadá"), Country("FR", "Francia"), Country("DE", "Alemania"),
    Country("IT", "Italia"), Country("JP", "Japón"), Country("CN", "China"),
    Country("AU", "Australia"), Country("GB", "Reino Unido"), Country("RU", "Rusia"),
    Country("IN", "India"), Country("ZA", "Sudáfrica")
  ]

  const OPTION_COUNT: nat := 4
  const NOT_ENOUGH_COUNTRIES := "No hay suficientes países únicos para continuar."

  function Codes(cs: seq<Country>): (r: seq<string>)
    ensures |r| == |cs| && forall i | 0 <= i < |cs| :: r[i] == cs[i].code
  {
    seq(|cs|, i requires 0 <= i < |cs| => cs[i].code)
  }

  function Names(cs: seq<Country>): (r: seq<string>)
    ensures |r| == |cs| && forall i | 0 <= i < |cs| :: r[i] == cs[i].name
  {
    seq(|cs|, i requires 0 <= i < |cs| => cs[i].name)
  }

  /** The position of a code in the list, and -1 for any other string. */
  function CodePosition(code: string): int {
    match code
    case "AR" => 0
    case "ES" => 1
    case "MX" => 2
    case "CO" => 3
    case "CL" => 4
    case "PE" => 5
    case "UY" => 6
    case "BR" => 7
    case "US" => 8
    case "CA" => 9
    case "FR" => 10
    case "DE" => 11
    case "IT" => 12
    case "JP" => 13
    case "CN" => 14
    case "AU" => 15
    case "GB" => 16
    case "RU" => 17
    case "IN" => 18
    case "ZA" => 19
    case _ => -1
  }

  /** The position of a name in the list, and -1 for any other string. */
  function NamePosition(name: string): int {
    match name
    case "Argentina" => 0
    case "España" => 1
    case "México" => 2
    case "Colombia" => 3
    case "Chile" => 4
    case "Perú" => 5
    case "Uruguay" => 6
    case "Brasil" => 7
    case "Estados Unidos" => 8
    case "Canadá" => 9
    case "Francia" => 10
    case "Alemania" => 11
    case "Italia" => 12
    case "Japón" => 13
    case "China" => 14
    case "Australia" => 15
    case "Reino Unido" => 16
    case "Rusia" => 17
    case "India" => 18
    case "Sudáfrica" => 19
    case _ => -1
  }

  /** Each country's code and name give back its position in the list. */
  lemma ListPositions()
    ensures forall i | 0 <= i < |ALL_COUNTRIES| :: CodePosition(ALL_COUNTRIES[i].code) == i
    ensures forall i | 0 <= i < |ALL_COUNTRIES| :: NamePosition(ALL_COUNTRIES[i].name) == i
  {
  }

  /** The list has 20 countries, no code twice and no name twice. */
  lemma CountriesDistinct()
    ensures |ALL_COUNTRIES| == 20
    ensures Distinct(Codes(ALL_COUNTRIES)) && Distinct(Names(ALL_COUNTRIES))
  {
    ListPositions();
    DistinctByPosition(Codes(ALL_COUNTRIES), CodePosition);
    DistinctByPosition(Names(ALL_COUNTRIES), NamePosition);
  }

  /** Within the list a name (a code) identifies its country. */
  lemma CountryDeterminedBy(c: Country, d: Country)
    requires c in ALL_COUNTRIES && d in ALL_COUNTRIES
    ensures c.name == d.name ==> c == d
    ensures c.code == d.code ==> c == d
  {
    ListPositions();
    var i :| 0 <= i < |ALL_COUNTRIES| && ALL_COUNTRIES[i] == c;
    var j :| 0 <= j < |ALL_COUNTRIES| && ALL_COUNTRIES[j] == d;
    assert c.name == d.name ==> i == j;
    assert c.code == d.code ==> i == j;
  }

  /** The countries of `cs`, in order, whose code is not excluded. */
  function Unexcluded(cs: seq<Country>, exclude: seq<string>): (r: seq<Country>)
    ensures forall c :: c in r <==> c in cs && c.code !in exclude
    ensures |r| <= |cs|
    ensures exclude == [] ==> r == cs
    ensures Distinct(cs) ==> Distinct(r)
  {
    if cs == [] then []
    else
      var rest := Unexcluded(cs[1..], exclude);
      assert Distinct(cs) ==> Distinct(cs[1..]) && cs[0] !in cs[1..] by {
        if Distinct(cs) {
          forall i, j | 0 <= i < j < |cs| - 1 ensures cs[1..][i] != cs[1..][j] {
            assert cs[1..][i] == cs[i + 1] && cs[1..][j] == cs[j + 1];
          }
          forall k | 0 <= k < |cs| - 1 ensures cs[1..][k] != cs[0] {
            assert cs[1..][k] == cs[k + 1];
          }
        }
      }
      assert cs == [cs[0]] + cs[1..];
      if cs[0].code in exclude then rest else [cs[0]] + rest
  }

  /** The countries that may still be asked. */
  function Available(exclude: seq<string>): seq<Country> {
    Unexcluded(ALL_COUNTRIES, exclude)
  }

  /** With nothing excluded all 20 countries are available, so a question can always be built. */
  lemma AvailableWithoutExclusions()
    ensures Available([]) == ALL_COUNTRIES
    ensures |Available([])| == 20
  {
    assert Available([]) == ALL_COUNTRIES;
  }

  /** The countries are distinct, so the available ones are too. */
  lemma AvailableDistinct(exclude: seq<string>)
    ensures Distinct(Available(exclude))
  {
    CountriesDistinct();
    assert Distinct(ALL_COUNTRIES) by {
      forall i, j | 0 <= i < j < |ALL_COUNTRIES| ensures ALL_COUNTRIES[i] != ALL_COUNTRIES[j] {
        assert Codes(ALL_COUNTRIES)[i] != Codes(ALL_COUNTRIES)[j];
      }
    }
  }

  /** `pickMany`: a shuffled copy of `arr`, cut to its first `n` elements.
      The result is drawn from `arr` without repetition. */
  method PickMany<T>(arr: seq<T>, n: nat) returns (r: seq<T>)
    ensures |r| == if n < |arr| then n else |arr|
    ensures multiset(r) <= multiset(arr)
    ensures Distinct(arr) ==> Distinct(r)
  {
    var a := Shuffle(arr);
    var k := if n < |a| then n else |a|;
    assert a == a[..k] + a[k..];
    assert multiset(a) == multiset(a[..k]) + multiset(a[k..]);
    r := a[..k];
    if Distinct(arr) {
      DistinctSubMultiset(arr, r);
    }
  }

  /** The URL of the 64-pixel flat flag of the country `code`. */
  function FlagUrl(code: string): string {
    "https://flagsapi.com/" + code + "/flat/64.png"
  }

  /** The URL names its country: different codes give different URLs. */
  lemma FlagUrlInjective(a: string, b: string)
    requires FlagUrl(a) == FlagUrl(b)
    ensures a == b
  {
    var p := "https://flagsapi.com/";
    assert |a| == |b|;
    assert FlagUrl(a)[|p|..|p| + |a|] == a;
    assert FlagUrl(b)[|p|..|p| + |b|] == b;
  }

  /** Distinct countries of the list have distinct names. */
  lemma NamesDistinct(picked: seq<Country>)
    requires Distinct(picked)
    requires forall c | c in picked :: c in ALL_COUNTRIES
    ensures Distinct(Names(picked))
  {
    var names := Names(picked);
    forall i, j | 0 <= i < j < |names| ensures names[i] != names[j] {
      CountryDeterminedBy(picked[i], picked[j]);
    }
  }

  /** A rearrangement of the names of some of `available` holds names of `available` only. */
  lemma OptionsAvailable(picked: seq<Country>, options: seq<string>, available: seq<Country>)
    requires forall c | c in picked :: c in available
    requires multiset(options) == multiset(Names(picked))
    ensures forall o | o in options :: o in Names(available)
  {
    var names := Names(picked);
    forall o | o in options ensures o in Names(available) {
      assert o in multiset(names);
      var i :| 0 <= i < |names| && names[i] == o;
      assert picked[i] in available;
      var k :| 0 <= k < |available| && available[k] == picked[i];
      assert Names(available)[k] == o;
    }
  }

  /** What a question built with `exclude` promises: a country not excluded
      is asked, its flag is shown, and the four options are distinct names
      of available countries, the right one among them. */
  predicate ValidQuestion(q: Question, exclude: seq<string>) {
    && q.countryCode !in exclude
    && Country(q.countryCode, q.correct) in ALL_COUNTRIES
    && q.imageUrl == FlagUrl(q.countryCode)
    && |q.options| == OPTION_COUNT
    && Distinct(q.options)
    && q.correct in q.options
    && (forall o | o in q.options :: o in Names(Available(exclude)))
  }

  /** `getQuestion`: fails exactly when fewer than four countries are left,
      and otherwise returns a valid question. */
  method GetQuestion(exclude: seq<string>) returns (r: Result<Question, string>)
    ensures r.Failure? <==> |Available(exclude)| < OPTION_COUNT
    ensures r.Failure? ==> r.error == NOT_ENOUGH_COUNTRIES
    ensures r.Success? ==> ValidQuestion(r.value, exclude)
  {
    var available := Available(exclude);
    if |available| < OPTION_COUNT {
      return Failure(NOT_ENOUGH_COUNTRIES);
    }
    AvailableDistinct(exclude);
    var picked := PickMany(available, OPTION_COUNT);
    SubMultisetMembers(picked, available);
    var correctCountry := picked[0];
    var names := Names(picked);
    NamesDistinct(picked);
    var options := Shuffle(names);
    DistinctSubMultiset(names, options);
    assert names[0] == correctCountry.name;
    SubMultisetMembers(names, options);
    OptionsAvailable(picked, options, available);
    var imageUrl := FlagUrl(correctCountry.code);
    return Success(Question(imageUrl, correctCountry.name, options, correctCountry.code));
  }
}
