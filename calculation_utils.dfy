/**
 * The pure calculator of calculationUtils.ts: the round-trip distance from an
 * origin to the festival (a static state -> city -> one-way km table with
 * "DEFAULT" fallbacks), the compensation price with its minimum charge, and
 * the BRL currency rendering.
 */
module CalculationUtils {

  /** The trip's origin; `customCity` is set when the city was typed in rather than picked. */
  datatype Origin = Origin(city: string, state: string, customCity: bool)

  /** The sentinel key present in every level of the distance table. */
  const Default: string := "DEFAULT"

  // ---------------------------------------------------------------------------
  // One-way distances (km) from each origin to São Thomé das Letras (MG)
  // ---------------------------------------------------------------------------

  const SP: map<string, int> := map[
    "São Paulo" := 320,
    "Guarulhos" := 340,
    "Campinas" := 280,
    "Santos" := 390,
    "Santo André" := 330,
    "São Bernardo do Campo" := 335,
    "Osasco" := 330,
    "Ribeirão Preto" := 370,
    "DEFAULT" := 350
  ]

  const RJ: map<string, int> := map[
    "Rio de Janeiro" := 430,
    "Niterói" := 450,
    "São Gonçalo" := 460,
    "Búzios" := 540,
    "Petrópolis" := 390,
    "Angra dos Reis" := 500,
    "Nova Iguaçu" := 420,
    "Duque de Caxias" := 410,
    "DEFAULT" := 450
  ]

  const MG: map<string, int> := map[
    "Belo Horizonte" := 280,
    "Juiz de Fora" := 220,
    "Ouro Preto" := 340,
    "Uberlândia" := 480,
    "Tiradentes" := 180,
    "Contagem" := 290,
    "Uberaba" := 400,
    "São Thomé das Letras" := 0,
    "DEFAULT" := 300
  ]

  const PA: map<string, int> := map[
    "Belém" := 2800,
    "Ananindeua" := 2820,
    "Santarém" := 3200,
    "Marabá" := 2500,
    "Castanhal" := 2850,
    "Parauapebas" := 2400,
    "DEFAULT" := 2800
  ]

  const BA: map<string, int> := map[
    "Salvador" := 1700,
    "Feira de Santana" := 1650,
    "Vitória da Conquista" := 1200,
    "Camaçari" := 1720,
    "Porto Seguro" := 1500,
    "Ilhéus" := 1450,
    "DEFAULT" := 1600
  ]

  const PR: map<string, int> := map[
    "Curitiba" := 650,
    "Londrina" := 720,
    "Maringá" := 780,
    "Foz do Iguaçu" := 1050,
    "Ponta Grossa" := 700,
    "Cascavel" := 900,
    "DEFAULT" := 750
  ]

  const RS: map<string, int> := map[
    "Porto Alegre" := 1300,
    "Caxias do Sul" := 1350,
    "Pelotas" := 1450,
    "Canoas" := 1320,
    "Santa Maria" := 1500,
    "Gramado" := 1400,
    "DEFAULT" := 1400
  ]

  const SC: map<string, int> := map[
    "Florianópolis" := 850,
    "Joinville" := 800,
    "Blumenau" := 830,
    "Balneário Camboriú" := 870,
    "Criciúma" := 950,
    "Chapecó" := 1050,
    "DEFAULT" := 900
  ]

  const GO: map<string, int> := map[
    "Goiânia" := 800,
    "Anápolis" := 820,
    "Rio Verde" := 850,
    "Aparecida de Goiânia" := 810,
    "Caldas Novas" := 700,
    "Catalão" := 650,
    "DEFAULT" := 800
  ]

  const PE: map<string, int> := map[
    "Recife" := 2300,
    "Jaboatão dos Guararapes" := 2310,
    "Olinda" := 2290,
    "Caruaru" := 2200,
    "Petrolina" := 1900,
    "Paulista" := 2320,
    "DEFAULT" := 2200
  ]

  const CE: map<string, int> := map[
    "Fortaleza" := 2700,
    "Caucaia" := 2720,
    "Juazeiro do Norte" := 2400,
    "Maracanaú" := 2710,
    "Sobral" := 2650,
    "Crato" := 2450,
    "DEFAULT" := 2600
  ]

  const AM: map<string, int> := map[
    "Manaus" := 3500,
    "Parintins" := 3600,
    "Itacoatiara" := 3550,
    "Manacapuru" := 3580,
    "Coari" := 3650,
    "Tefé" := 3700,
    "DEFAULT" := 3600
  ]

  const ES: map<string, int> := map[
    "Vitória" := 750,
    "Vila Velha" := 760,
    "Serra" := 740,
    "Cariacica" := 755,
    "Cachoeiro de Itapemirim" := 680,
    "Linhares" := 800,
    "DEFAULT" := 750
  ]

  const DF: map<string, int> := map[
    "Brasília" := 950,
    "Ceilândia" := 960,
    "Taguatinga" := 955,
    "Plano Piloto" := 945,
    "Samambaia" := 965,
    "Águas Claras" := 950,
    "DEFAULT" := 950
  ]

  const MT: map<string, int> := map[
    "Cuiabá" := 1350,
    "Várzea Grande" := 1360,
    "Rondonópolis" := 1250,
    "Sinop" := 1600,
    "Tangará da Serra" := 1550,
    "Cáceres" := 1450,
    "DEFAULT" := 1400
  ]

  const MS: map<string, int> := map[
    "Campo Grande" := 1050,
    "Dourados" := 1100,
    "Três Lagoas" := 800,
    "Corumbá" := 1350,
    "Ponta Porã" := 1200,
    "Naviraí" := 1050,
    "DEFAULT" := 1100
  ]

  const MA: map<string, int> := map[
    "São Luís" := 2500,
    "Imperatriz" := 2200,
    "DEFAULT" := 2400
  ]

  const PI: map<string, int> := map[
    "Teresina" := 2400,
    "Parnaíba" := 2500,
    "DEFAULT" := 2450
  ]

  const RN: map<string, int> := map[
    "Natal" := 2600,
    "Mossoró" := 2550,
    "DEFAULT" := 2600
  ]

  const PB: map<string, int> := map[
    "João Pessoa" := 2450,
    "Campina Grande" := 2400,
    "DEFAULT" := 2450
  ]

  const AL: map<string, int> := map[
    "Maceió" := 2200,
    "Arapiraca" := 2150,
    "DEFAULT" := 2200
  ]

  const SE: map<string, int> := map[
    "Aracaju" := 2050,
    "Nossa Senhora do Socorro" := 2060,
    "DEFAULT" := 2050
  ]

  const AC: map<string, int> := map[
    "Rio Branco" := 3600,
    "Cruzeiro do Sul" := 3800,
    "DEFAULT" := 3700
  ]

  const RO: map<string, int> := map[
    "Porto Velho" := 2900,
    "Ji-Paraná" := 2800,
    "DEFAULT" := 2850
  ]

  const RR: map<string, int> := map[
    "Boa Vista" := 4100,
    "Caracaraí" := 4000,
    "DEFAULT" := 4050
  ]

  const AP: map<string, int> := map[
    "Macapá" := 3300,
    "Santana" := 3310,
    "DEFAULT" := 3300
  ]

  const TO: map<string, int> := map[
    "Palmas" := 1800,
    "Araguaína" := 1750,
    "DEFAULT" := 1800
  ]

  const UnlistedState: map<string, int> := map[
    "DEFAULT" := 1500
  ]

  /** The state codes that have their own table; "DEFAULT" is the table for every other state. */
  const StateCodes: set<string> :=
    {"SP", "RJ", "MG", "PA", "BA", "PR", "RS", "SC", "GO", "PE", "CE", "AM", "ES", "DF", "MT", "MS", "MA", "PI", "RN", "PB", "AL", "SE", "AC", "RO", "RR", "AP", "TO", "DEFAULT"}

  /** The city table of a listed state code. */
  function StateTable(code: string): map<string, int>
  {
    if code == "SP" then SP else
    if code == "RJ" then RJ else
    if code == "MG" then MG else
    if code == "PA" then PA else
    if code == "BA" then BA else
    if code == "PR" then PR else
    if code == "RS" then RS else
    if code == "SC" then SC else
    if code == "GO" then GO else
    if code == "PE" then PE else
    if code == "CE" then CE else
    if code == "AM" then AM else
    if code == "ES" then ES else
    if code == "DF" then DF else
    if code == "MT" then MT else
    if code == "MS" then MS else
    if code == "MA" then MA else
    if code == "PI" then PI else
    if code == "RN" then RN else
    if code == "PB" then PB else
    if code == "AL" then AL else
    if code == "SE" then SE else
    if code == "AC" then AC else
    if code == "RO" then RO else
    if code == "RR" then RR else
    if code == "AP" then AP else
    if code == "TO" then TO else
    UnlistedState
  }

  /** The two-level table: state code -> city -> one-way km. */
  const OneWayDistances: map<string, map<string, int>> :=
    map code | code in StateCodes :: StateTable(code)

  /** Every city table has a positive "DEFAULT" entry and no negative entry. */
  ghost predicate WellFormedCityTable(table: map<string, int>)
  {
    && Default in table
    && table[Default] > 0
    && forall city :: city in table ==> table[city] >= 0
  }

  /** The whole table has a "DEFAULT" state and every state's table is well formed. */
  ghost predicate WellFormedDistanceTable(t: map<string, map<string, int>>)
  {
    && Default in t
    && forall state :: state in t ==> WellFormedCityTable(t[state])
  }

  lemma SPWellFormed() ensures WellFormedCityTable(SP) {}
  lemma RJWellFormed() ensures WellFormedCityTable(RJ) {}
  lemma MGWellFormed() ensures WellFormedCityTable(MG) {}
  lemma PAWellFormed() ensures WellFormedCityTable(PA) {}
  lemma BAWellFormed() ensures WellFormedCityTable(BA) {}
  lemma PRWellFormed() ensures WellFormedCityTable(PR) {}
  lemma RSWellFormed() ensures WellFormedCityTable(RS) {}
  lemma SCWellFormed() ensures WellFormedCityTable(SC) {}
  lemma GOWellFormed() ensures WellFormedCityTable(GO) {}
  lemma PEWellFormed() ensures WellFormedCityTable(PE) {}
  lemma CEWellFormed() ensures WellFormedCityTable(CE) {}
  lemma AMWellFormed() ensures WellFormedCityTable(AM) {}
  lemma ESWellFormed() ensures WellFormedCityTable(ES) {}
  lemma DFWellFormed() ensures WellFormedCityTable(DF) {}
  lemma MTWellFormed() ensures WellFormedCityTable(MT) {}
  lemma MSWellFormed() ensures WellFormedCityTable(MS) {}
  lemma MAWellFormed() ensures WellFormedCityTable(MA) {}
  lemma PIWellFormed() ensures WellFormedCityTable(PI) {}
  lemma RNWellFormed() ensures WellFormedCityTable(RN) {}
  lemma PBWellFormed() ensures WellFormedCityTable(PB) {}
  lemma ALWellFormed() ensures WellFormedCityTable(AL) {}
  lemma SEWellFormed() ensures WellFormedCityTable(SE) {}
  lemma ACWellFormed() ensures WellFormedCityTable(AC) {}
  lemma ROWellFormed() ensures WellFormedCityTable(RO) {}
  lemma RRWellFormed() ensures WellFormedCityTable(RR) {}
  lemma APWellFormed() ensures WellFormedCityTable(AP) {}
  lemma TOWellFormed() ensures WellFormedCityTable(TO) {}
  lemma UnlistedStateWellFormed() ensures WellFormedCityTable(UnlistedState) {}

  /** Every table the selector can return is well formed (the case split follows StateTable). */
  lemma StateTableWellFormed(code: string)
    ensures WellFormedCityTable(StateTable(code))
  {
    if code == "SP" { SPWellFormed(); }
    else if code == "RJ" { RJWellFormed(); }
    else if code == "MG" { MGWellFormed(); }
    else if code == "PA" { PAWellFormed(); }
    else if code == "BA" { BAWellFormed(); }
    else if code == "PR" { PRWellFormed(); }
    else if code == "RS" { RSWellFormed(); }
    else if code == "SC" { SCWellFormed(); }
    else if code == "GO" { GOWellFormed(); }
    else if code == "PE" { PEWellFormed(); }
    else if code == "CE" { CEWellFormed(); }
    else if code == "AM" { AMWellFormed(); }
    else if code == "ES" { ESWellFormed(); }
    else if code == "DF" { DFWellFormed(); }
    else if code == "MT" { MTWellFormed(); }
    else if code == "MS" { MSWellFormed(); }
    else if code == "MA" { MAWellFormed(); }
    else if code == "PI" { PIWellFormed(); }
    else if code == "RN" { RNWellFormed(); }
    else if code == "PB" { PBWellFormed(); }
    else if code == "AL" { ALWellFormed(); }
    else if code == "SE" { SEWellFormed(); }
    else if code == "AC" { ACWellFormed(); }
    else if code == "RO" { ROWellFormed(); }
    else if code == "RR" { RRWellFormed(); }
    else if code == "AP" { APWellFormed(); }
    else if code == "TO" { TOWellFormed(); }
    else { UnlistedStateWellFormed(); }
  }

  /** The static distance table meets the shape every lookup below relies on. */
  lemma DistanceTableWellFormed()
    ensures WellFormedDistanceTable(OneWayDistances)
  {
    assert Default in StateCodes;
    forall state | state in OneWayDistances
      ensures WellFormedCityTable(OneWayDistances[state])
    {
      StateTableWellFormed(state);
    }
  }

  // ---------------------------------------------------------------------------
  // Round-trip distance resolver
  //
  // The lookup is defined over any table of the shape above, so the general
  // facts about it are proved once for every such table; OneWayDistances is
  // shown to have that shape by DistanceTableWellFormed.
  // ---------------------------------------------------------------------------

  /**
   * `table[key] || table["DEFAULT"]`: JavaScript's `||` falls back both when
   * the key is missing and when its entry is the falsy number 0.
   */
  function EntryOrDefault(table: map<string, int>, key: string): (km: int)
    requires WellFormedCityTable(table)
    ensures km > 0
  {
    if key in table && table[key] != 0 then table[key] else table[Default]
  }

  /** The city table used for a state: its own, or the "DEFAULT" state's when it has none. */
  function StateDistances(t: map<string, map<string, int>>, state: string): (table: map<string, int>)
    requires WellFormedDistanceTable(t)
    ensures WellFormedCityTable(table)
  {
    if state in t then t[state] else t[Default]
  }

  /** The one-way distance; a custom city always takes the state's "DEFAULT" entry. */
  function OneWayDistance(t: map<string, map<string, int>>, origin: Origin): (km: int)
    requires WellFormedDistanceTable(t)
    ensures km > 0
  {
    var table := StateDistances(t, origin.state);
    var byCity := EntryOrDefault(table, origin.city);
    if origin.customCity then table[Default] else byCity
  }

  /** Doubling gives an even number that halves back exactly. */
  lemma Doubled(x: int)
    ensures (x * 2) % 2 == 0 && (x * 2) / 2 == x
  {
  }

  /** Twice the one-way distance: always a positive even number of km. */
  function RoundTripDistance(t: map<string, map<string, int>>, origin: Origin): (km: int)
    requires WellFormedDistanceTable(t)
    ensures km > 0 && km % 2 == 0
    ensures km / 2 == OneWayDistance(t, origin)
  {
    var oneWay := OneWayDistance(t, origin);
    Doubled(oneWay);
    oneWay * 2
  }

  /** calculateRoundTripDistance: the round trip over the static table. */
  function CalculateRoundTripDistance(origin: Origin): (km: int)
    ensures km > 0 && km % 2 == 0
  {
    DistanceTableWellFormed();
    RoundTripDistance(OneWayDistances, origin)
  }

  /** A listed city with a non-zero entry gives exactly twice that entry. */
  lemma ListedCityRoundTrip(t: map<string, map<string, int>>, origin: Origin)
    requires WellFormedDistanceTable(t)
    requires !origin.customCity
    requires origin.state in t && origin.city in t[origin.state]
    requires t[origin.state][origin.city] != 0
    ensures RoundTripDistance(t, origin) == 2 * t[origin.state][origin.city]
  {
  }

  /** A state without its own table takes every distance from the "DEFAULT" state's table. */
  lemma UnlistedStateRoundTrip(t: map<string, map<string, int>>, origin: Origin)
    requires WellFormedDistanceTable(t)
    requires origin.state !in t
    ensures RoundTripDistance(t, origin) == RoundTripDistance(t, origin.(state := Default))
  {
  }

  /** A city missing from a listed state's table gives twice that state's "DEFAULT". */
  lemma UnlistedCityRoundTrip(t: map<string, map<string, int>>, origin: Origin)
    requires WellFormedDistanceTable(t)
    requires origin.state in t && origin.city !in t[origin.state]
    ensures RoundTripDistance(t, origin) == 2 * t[origin.state][Default]
  {
  }

  /** A custom city gives twice the state table's "DEFAULT", even when the name is listed. */
  lemma CustomCityRoundTrip(t: map<string, map<string, int>>, origin: Origin)
    requires WellFormedDistanceTable(t)
    requires origin.customCity
    ensures RoundTripDistance(t, origin) == 2 * StateDistances(t, origin.state)[Default]
    ensures RoundTripDistance(t, origin) == RoundTripDistance(t, origin.(city := Default))
  {
  }

  /** A zero entry counts as missing: the state's "DEFAULT" is used instead, never 0. */
  lemma ZeroEntryRoundTrip(t: map<string, map<string, int>>, origin: Origin)
    requires WellFormedDistanceTable(t)
    requires origin.state in t && origin.city in t[origin.state]
    requires t[origin.state][origin.city] == 0
    ensures RoundTripDistance(t, origin) == 2 * t[origin.state][Default]
  {
  }

  /** A state code of StateCodes keys its own table in OneWayDistances. */
  lemma ListedStateTable(code: string)
    requires code in StateCodes
    ensures code in OneWayDistances && OneWayDistances[code] == StateTable(code)
  {
  }

  lemma UnlistedStateEntries()
    ensures forall city :: city in UnlistedState <==> city == Default
    ensures UnlistedState[Default] == 1500
  {
  }

  /** Any state outside the static table is 2 x 1500 km away, whatever the city. */
  lemma UnlistedStateIs3000(origin: Origin)
    requires origin.state !in OneWayDistances
    ensures CalculateRoundTripDistance(origin) == 3000
  {
    DistanceTableWellFormed();
    ListedStateTable(Default);
    assert StateTable(Default) == UnlistedState;
    UnlistedStateEntries();
    UnlistedStateRoundTrip(OneWayDistances, origin);
    if origin.customCity {
      CustomCityRoundTrip(OneWayDistances, origin.(state := Default));
    } else if origin.city in UnlistedState {
      assert origin.city == Default;
      ListedCityRoundTrip(OneWayDistances, origin.(state := Default));
    } else {
      UnlistedCityRoundTrip(OneWayDistances, origin.(state := Default));
    }
  }

  lemma SaoPauloEntry()
    ensures "São Paulo" in SP && SP["São Paulo"] == 320
  {
  }

  lemma SaoThomeEntry()
    ensures "São Thomé das Letras" in MG && MG["São Thomé das Letras"] == 0 && MG[Default] == 300
  {
  }

  /** São Paulo (SP) is listed at 320 km one way. */
  lemma SaoPauloRoundTrip()
    ensures CalculateRoundTripDistance(Origin("São Paulo", "SP", false)) == 640
  {
    DistanceTableWellFormed();
    ListedStateTable("SP");
    assert StateTable("SP") == SP;
    SaoPauloEntry();
    ListedCityRoundTrip(OneWayDistances, Origin("São Paulo", "SP", false));
  }

  /** São Thomé das Letras (MG) is listed as 0 km, which falls back to MG's "DEFAULT" of 300. */
  lemma SaoThomeRoundTrip()
    ensures CalculateRoundTripDistance(Origin("São Thomé das Letras", "MG", false)) == 600
  {
    DistanceTableWellFormed();
    ListedStateTable("MG");
    assert StateTable("MG") == MG;
    SaoThomeEntry();
    ZeroEntryRoundTrip(OneWayDistances, Origin("São Thomé das Letras", "MG", false));
  }

  // ---------------------------------------------------------------------------
  // The lookup the festival town's 0 entry was written for
  // ---------------------------------------------------------------------------

  /**
   * A presence test in place of `||`: a listed entry is taken as it is, 0
   * included. It differs from the `||` lookup exactly on the 0 entries.
   */
  function EntryIfPresent(table: map<string, int>, key: string): (km: int)
    requires WellFormedCityTable(table)
    ensures km >= 0
    ensures km == 0 <==> key in table && table[key] == 0
    ensures km != 0 ==> km == EntryOrDefault(table, key)
  {
    if key in table then table[key] else table[Default]
  }

  /** The round trip with the presence test: 0 exactly for a listed, non-custom city at 0 km. */
  function IntendedRoundTripDistance(t: map<string, map<string, int>>, origin: Origin): (km: int)
    requires WellFormedDistanceTable(t)
    ensures km >= 0 && km % 2 == 0
    ensures km == 0 <==>
              var table := StateDistances(t, origin.state);
              !origin.customCity && origin.city in table && table[origin.city] == 0
    ensures km != 0 ==> km == RoundTripDistance(t, origin)
  {
    var table := StateDistances(t, origin.state);
    var oneWay := if origin.customCity then table[Default] else EntryIfPresent(table, origin.city);
    Doubled(oneWay);
    oneWay * 2
  }

  /** The presence-test round trip over the static table. */
  function IntendedCalculateRoundTripDistance(origin: Origin): (km: int)
    ensures km >= 0 && km % 2 == 0
    ensures km != 0 ==> km == CalculateRoundTripDistance(origin)
  {
    DistanceTableWellFormed();
    IntendedRoundTripDistance(OneWayDistances, origin)
  }

  /** On a listed 0 entry the source's `||` gives twice the state default, the presence test 0. */
  lemma ZeroEntryDiscrepancy(t: map<string, map<string, int>>, origin: Origin)
    requires WellFormedDistanceTable(t)
    requires !origin.customCity
    requires origin.city in StateDistances(t, origin.state)
    requires StateDistances(t, origin.state)[origin.city] == 0
    ensures RoundTripDistance(t, origin) == 2 * StateDistances(t, origin.state)[Default] > 0
    ensures IntendedRoundTripDistance(t, origin) == 0
  {
  }

  /** With the presence test, the festival town itself is 0 km away. */
  lemma IntendedSaoThomeRoundTrip()
    ensures IntendedCalculateRoundTripDistance(Origin("São Thomé das Letras", "MG", false)) == 0
  {
    DistanceTableWellFormed();
    ListedStateTable("MG");
    assert StateTable("MG") == MG;
    SaoThomeEntry();
    ZeroEntryDiscrepancy(OneWayDistances, Origin("São Thomé das Letras", "MG", false));
  }

  // ---------------------------------------------------------------------------
  // Compensation pricer
  // ---------------------------------------------------------------------------

  /** Price of one metric ton of CO2, in BRL. */
  const PricePerTon: real := 40.0

  /** The minimum charge, in BRL. */
  const MinimumCompensation: real := 9.84

  /** Math.max on reals. */
  function Max(a: real, b: real): (m: real)
    ensures m >= a && m >= b && (m == a || m == b)
  {
    if a >= b then a else b
  }

  /**
   * calculateCompensationValue: the emission in tons times the price per ton,
   * never below the minimum charge; the two meet at 246 kg.
   */
  function CalculateCompensationValue(emission: real): (value: real)
    ensures value >= MinimumCompensation
    ensures value == MinimumCompensation <==> emission <= 246.0
    ensures emission >= 246.0 ==> value * 1000.0 == emission * PricePerTon
  {
    var emissionTons := emission / 1000.0;
    var rawValue := emissionTons * PricePerTon;
    Max(rawValue, MinimumCompensation)
  }

  /** A larger emission never costs less. */
  lemma CompensationMonotonic(e1: real, e2: real)
    requires e1 <= e2
    ensures CalculateCompensationValue(e1) <= CalculateCompensationValue(e2)
  {
  }

  // ---------------------------------------------------------------------------
  // Currency rendering: "R$ " + value.toFixed(2) with the "." replaced by ","
  // ---------------------------------------------------------------------------

  predicate IsDigit(c: char)
  {
    '0' <= c <= '9'
  }

  predicate AllDigits(s: string)
  {
    forall i :: 0 <= i < |s| ==> IsDigit(s[i])
  }

  /** The character of a decimal digit. */
  function Digit(d: nat): (c: char)
    requires d < 10
    ensures IsDigit(c) && (c as int) - ('0' as int) == d
  {
    (('0' as int) + d) as char
  }

  /** The number a decimal numeral denotes (the reading partner of NatToDigits). */
  function DigitsValue(s: string): nat
    requires AllDigits(s)
  {
    if s == [] then 0
    else DigitsValue(s[..|s| - 1]) * 10 + ((s[|s| - 1] as int) - ('0' as int))
  }

  /** The decimal numeral of a natural number, without leading zeros. */
  function NatToDigits(n: nat): (s: string)
    ensures |s| >= 1 && AllDigits(s)
    ensures DigitsValue(s) == n
    ensures |s| > 1 ==> s[0] != '0'
  {
    if n < 10 then [Digit(n)]
    else
      var prefix := NatToDigits(n / 10);
      var s := prefix + [Digit(n % 10)];
      assert s[..|s| - 1] == prefix;
      s
  }

  /**
   * The integer n that toFixed(2) writes for a non-negative x: n / 100 is the
   * closest two-decimal value to x, and the larger one on a tie.
   */
  function RoundCents(x: real): (n: nat)
    requires x >= 0.0
    ensures (n as real) - 0.5 <= x * 100.0 < (n as real) + 0.5
  {
    (x * 100.0 + 0.5).Floor
  }

  /** A value with at most two decimals is written exactly. */
  lemma RoundCentsExact(cents: nat)
    ensures RoundCents(cents as real / 100.0) == cents
  {
  }

  function Abs(x: real): (a: real)
    ensures a >= 0.0 && (a == x || a == -x)
  {
    if x < 0.0 then -x else x
  }

  /** Two digit characters read back as the two-digit number. */
  lemma TwoDigitsValue(tens: nat, units: nat)
    requires tens < 10 && units < 10
    ensures DigitsValue([Digit(tens), Digit(units)]) == tens * 10 + units
  {
    var s := [Digit(tens), Digit(units)];
    assert s[..1] == [Digit(tens)];
    assert DigitsValue(s[..1]) == tens by {
      assert s[..1][..0] == [];
    }
    assert DigitsValue(s) == DigitsValue(s[..1]) * 10 + units;
  }

  /** An amount in cents is its whole part times 100 plus its two decimal digits. */
  lemma SplitCents(n: nat)
    ensures n % 100 / 10 < 10 && n % 10 < 10
    ensures (n % 100 / 10) * 10 + n % 10 == n % 100
    ensures (n / 100) * 100 + n % 100 == n
  {
  }


  /** String.prototype.replace with a one-character pattern: only the first occurrence is replaced. */
  function ReplaceFirst(s: string, from: char, to: char): (r: string)
    ensures from !in s ==> r == s
  {
    if s == [] then []
    else if s[0] == from then [to] + s[1..]
    else [s[0]] + ReplaceFirst(s[1..], from, to)
  }

  /** Replacing the first `from` rewrites exactly the occurrence after a `from`-free prefix. */
  lemma {:induction false} ReplaceFirstSplit(prefix: string, from: char, to: char, suffix: string)
    requires from !in prefix
    ensures ReplaceFirst(prefix + [from] + suffix, from, to) == prefix + [to] + suffix
  {
    if prefix != [] {
      assert (prefix + [from] + suffix)[1..] == prefix[1..] + [from] + suffix;
      ReplaceFirstSplit(prefix[1..], from, to, suffix);
    }
  }

  /** The sign toFixed writes in front of a negative number. */
  function Sign(value: real): string
  {
    if value < 0.0 then "-" else ""
  }

  /** The amount in cents n written as "R$ " + sign + integer part + "," + two decimals. */
  function CurrencyText(sign: string, n: nat): string
  {
    "R$ " + sign + NatToDigits(n / 100) + [',', Digit(n % 100 / 10), Digit(n % 10)]
  }

  /**
   * The layout of toFixed(2)'s output: sign, integer digits, one ".", two
   * decimals; replacing the first "." rewrites exactly that one.
   */
  lemma FixedPointLayout(sign: string, digits: string, decimals: string)
    requires sign == "" || sign == "-"
    requires |digits| >= 1 && AllDigits(digits) && |decimals| == 2 && AllDigits(decimals)
    ensures var r := sign + digits + ['.'] + decimals;
            && |r| >= 4 && r[|r| - 3] == '.' && '.' !in r[..|r| - 3] + r[|r| - 2..]
            && (r[0] == '-' <==> sign == "-")
            && ReplaceFirst(r, '.', ',') == sign + digits + [','] + decimals
  {
    var r := sign + digits + ['.'] + decimals;
    assert r[..|r| - 3] + r[|r| - 2..] == sign + digits + decimals;
    assert sign == "" ==> r[0] == digits[0];
    assert '.' !in sign + digits;
    ReplaceFirstSplit(sign + digits, '.', ',', decimals);
  }

  /**
   * Number.prototype.toFixed(2) for |x| < 10^21: a "-" for negative x, the
   * integer part, exactly one ".", and two decimals. Replacing that "." by ","
   * gives the currency text of the rounded amount in cents.
   */
  function ToFixed2(x: real): (r: string)
    ensures |r| >= 4 && r[|r| - 3] == '.' && '.' !in r[..|r| - 3] + r[|r| - 2..]
    ensures (r[0] == '-') <==> x < 0.0
    ensures "R$ " + ReplaceFirst(r, '.', ',') == CurrencyText(Sign(x), RoundCents(Abs(x)))
  {
    var n := RoundCents(Abs(x));
    var digits := NatToDigits(n / 100);
    var decimals := [Digit(n % 100 / 10), Digit(n % 10)];
    assert AllDigits(decimals);
    FixedPointLayout(Sign(x), digits, decimals);
    assert "R$ " + (Sign(x) + digits + [','] + decimals) == CurrencyText(Sign(x), n);
    Sign(x) + digits + ['.'] + decimals
  }

  /** Where each part of a currency text sits, whatever its digits. */
  lemma CurrencyLayout(s: string, sign: string, whole: string, tens: char, units: char)
    requires sign == "" || sign == "-"
    requires |whole| >= 1 && AllDigits(whole) && IsDigit(tens) && IsDigit(units)
    requires s == "R$ " + sign + whole + [',', tens, units]
    ensures |s| >= 7 && s[..3] == "R$ "
    ensures '.' !in s
    ensures s[|s| - 3] == ',' && ',' !in s[..|s| - 3]
    ensures (s[3] == '-' <==> sign == "-")
    ensures s[3 + |sign|..|s| - 3] == whole
    ensures s[|s| - 2..] == [tens, units]
  {
    assert s[..|s| - 3] == "R$ " + sign + whole;
    assert sign == "" ==> s[3] == whole[0];
  }

  /** The layout of the currency text of a value, and its digits read back as the rounded cents. */
  lemma CurrencyTextFacts(value: real, s: string)
    requires s == CurrencyText(Sign(value), RoundCents(Abs(value)))
    ensures |s| >= 7 && s[..3] == "R$ "
    ensures '.' !in s
    ensures s[|s| - 3] == ',' && ',' !in s[..|s| - 3]
    ensures IsDigit(s[|s| - 2]) && IsDigit(s[|s| - 1])
    ensures (s[3] == '-') <==> value < 0.0
    ensures var whole := s[|Sign(value)| + 3..|s| - 3];
            && |whole| >= 1 && (|whole| > 1 ==> whole[0] != '0')
            && AllDigits(whole) && AllDigits(s[|s| - 2..])
            && DigitsValue(whole) * 100 + DigitsValue(s[|s| - 2..]) == RoundCents(Abs(value))
  {
    var n := RoundCents(Abs(value));
    SplitCents(n);
    var whole := NatToDigits(n / 100);
    CurrencyLayout(s, Sign(value), whole, Digit(n % 100 / 10), Digit(n % 10));
    TwoDigitsValue(n % 100 / 10, n % 10);
  }

  /**
   * formatCurrency: "R$ ", an optional "-", the integer part, "," and exactly
   * two decimals; the digits read back as the rounded amount in cents.
   */
  function FormatCurrency(value: real): (s: string)
    ensures |s| >= 7 && s[..3] == "R$ "
    ensures '.' !in s
    ensures s[|s| - 3] == ',' && ',' !in s[..|s| - 3]
    ensures IsDigit(s[|s| - 2]) && IsDigit(s[|s| - 1])
    ensures (s[3] == '-') <==> value < 0.0
    ensures var whole := s[|Sign(value)| + 3..|s| - 3];
            && |whole| >= 1 && (|whole| > 1 ==> whole[0] != '0')
            && AllDigits(whole) && AllDigits(s[|s| - 2..])
            && DigitsValue(whole) * 100 + DigitsValue(s[|s| - 2..]) == RoundCents(Abs(value))
  {
    var s := "R$ " + ReplaceFirst(ToFixed2(value), '.', ',');
    CurrencyTextFacts(value, s);
    s
  }

  /** The minimum charge 9.84 is written "R$ 9,84". */
  lemma FormatMinimumCompensation()
    ensures FormatCurrency(9.84) == "R$ 9,84"
  {
    assert RoundCents(Abs(9.84)) == 984;
    assert NatToDigits(9) == "9";
  }

  /** 20 is written "R$ 20,00". */
  lemma FormatTwenty()
    ensures FormatCurrency(20.0) == "R$ 20,00"
  {
    assert RoundCents(Abs(20.0)) == 2000;
    assert NatToDigits(20) == "20";
  }
}
