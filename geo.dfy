/**
 * The region tables (geo.go): the declared city codes, the country records,
 * the table of countries by ISO code, the city-to-country lookup and the
 * value of the `X-LLM-Country` request header.
 *
 * The Hong Kong record carries the Brasil country code (geo.go:137). The
 * functions below keep that as written; the `…Intended` definitions carry
 * the code "HK" that the table's key evidently means.
 */
module Geo {

  /** A UN/LOCODE-style city code; any string, declared or not. */
  type CityCode = string
  /** An ISO 3166-1 alpha-2 code. */
  type CountryCode = string
  type Locale = string

  datatype Country = Country(
    name: string,
    code: CountryCode,
    cities: seq<CityCode>,
    locales: seq<Locale>,
    phoneRegex: string)

  const CityBrasilSaoPaulo: CityCode := "BR_SAO"
  const CityBrasilRioDeJaneiro: CityCode := "BR_RIO"
  const CityHongKongHongKong: CityCode := "HK_HKG"
  const CityIndiaBengaluru: CityCode := "IN_BLR"
  const CityIndiaMumbai: CityCode := "IN_BOM"
  const CityIndiaDelhi: CityCode := "IN_DEL"
  const CityIndonesiaJakarta: CityCode := "ID_JKT"
  const CityMalaysiaKualaLumpur: CityCode := "MY_KUL"
  const CityMexicoMexico: CityCode := "MX_MEX"
  const CityPhilippinesManila: CityCode := "PH_MNL"
  const CityPhilippinesCebu: CityCode := "PH_CEB"
  const CitySingaporeSingapore: CityCode := "SG_SIN"
  const CityTaiwanTaipei: CityCode := "TW_TPE"
  const CityThailandBangkok: CityCode := "TH_BKK"
  const CityThailandPattaya: CityCode := "TH_PYX"
  const CityVietnamHoChiMinh: CityCode := "VN_SGN"
  const CityVietnamHanoi: CityCode := "VN_HAN"

  /** The 17 declared city codes. */
  const DeclaredCities: set<CityCode> := {
    CityBrasilSaoPaulo, CityBrasilRioDeJaneiro, CityHongKongHongKong,
    CityIndiaBengaluru, CityIndiaMumbai, CityIndiaDelhi, CityIndonesiaJakarta,
    CityMalaysiaKualaLumpur, CityMexicoMexico, CityPhilippinesManila,
    CityPhilippinesCebu, CitySingaporeSingapore, CityTaiwanTaipei,
    CityThailandBangkok, CityThailandPattaya, CityVietnamHoChiMinh, CityVietnamHanoi
  }

  const CountryCodeBrasil: CountryCode := "BR"
  const CountryCodeHongKong: CountryCode := "HK"
  const CountryCodeIndia: CountryCode := "IN"
  const CountryCodeIndonesia: CountryCode := "ID"
  const CountryCodeMalaysia: CountryCode := "MY"
  const CountryCodeMexico: CountryCode := "MX"
  const CountryCodePhilippines: CountryCode := "PH"
  const CountryCodeSingapore: CountryCode := "SG"
  const CountryCodeTaiwan: CountryCode := "TW"
  const CountryCodeThailand: CountryCode := "TH"
  const CountryCodeVietnam: CountryCode := "VN"

  const CountryUnknown := Country("Unknown", "", [], [], "")
  const CountryBrasil := Country("Brasil", CountryCodeBrasil,
    [CityBrasilSaoPaulo, CityBrasilRioDeJaneiro], ["en_BR", "pt_BR"],
    "^[0-9]{2}[9]{1}[0-9]{8}$")
  /** As written: the Hong Kong record's code is the Brasil code. */
  const CountryHongKong := Country("Hong Kong", CountryCodeBrasil,
    [CityHongKongHongKong], ["en_HK", "zh_HK"],
    "^((?!999)([2-9][0-9]{7}))$")
  const CountryIndia := Country("India", CountryCodeIndia,
    [CityIndiaBengaluru, CityIndiaMumbai, CityIndiaDelhi], ["en_IN", "hi_IN", "kn_IN", "mr_IN"],
    "^([6-9][0-9]{9}|22[0-9]{8})$")
  const CountryIndonesia := Country("Indonesia", CountryCodeIndonesia,
    [CityIndonesiaJakarta], ["en_ID", "id_ID"],
    "^0(8\\d{8,11}|21\\d{7,8})$")
  const CountryMalaysia := Country("Malaysia", CountryCodeMalaysia,
    [CityMalaysiaKualaLumpur], ["en_MY", "ms_MY"],
    "^0(1[1,5]?\\d{8}|[4-7,9]\\d{7}|8[2-9]\\d{6}|3\\d{8})$")
  const CountryMexico := Country("Mexico", CountryCodeMexico,
    [CityMexicoMexico], ["en_MX", "es_MX"],
    "^([+]+52?)?(\\d{3}?){2}\\d{4}$")
  const CountryPhilippines := Country("Philippines", CountryCodePhilippines,
    [CityPhilippinesManila, CityPhilippinesCebu], ["en_PH"],
    "^09[0-9]{9}$|^0?2[0-9]{7}$|^0?32[0-9]{7}$")
  const CountrySingapore := Country("Singapore", CountryCodeSingapore,
    [CitySingaporeSingapore], ["en_SG"],
    "^[689]{1}[0-9]{7}$")
  const CountryTaiwan := Country("Taiwan", CountryCodeTaiwan,
    [CityTaiwanTaipei], ["zh_TW"],
    "^0([1-8]{1}[0-9]{7,8}|9[0-9]{8})$")
  const CountryThailand := Country("Thailand", CountryCodeThailand,
    [CityThailandBangkok, CityThailandPattaya], ["en_TH", "th_TH"],
    "^(0[0-9]{8,9}|[0-9]{4})$")
  const CountryVietnam := Country("Vietnam", CountryCodeVietnam,
    [CityVietnamHoChiMinh, CityVietnamHanoi], ["en_VN", "vi_VN"],
    "^0?(2|[35789])[0-9]{8}$|^02[48][0-9]{8}$")

  /** `AllCountriesByISOCode`, as written. */
  const AllCountriesByISOCode: map<CountryCode, Country> := map[
    CountryCodeBrasil := CountryBrasil,
    CountryCodeHongKong := CountryHongKong,
    CountryCodeIndia := CountryIndia,
    CountryCodeIndonesia := CountryIndonesia,
    CountryCodeMalaysia := CountryMalaysia,
    CountryCodeMexico := CountryMexico,
    CountryCodePhilippines := CountryPhilippines,
    CountryCodeSingapore := CountrySingapore,
    CountryCodeTaiwan := CountryTaiwan,
    CountryCodeThailand := CountryThailand,
    CountryCodeVietnam := CountryVietnam
  ]

  /** The declared country codes. */
  const CountryCodes: set<CountryCode> := {
    CountryCodeBrasil, CountryCodeHongKong, CountryCodeIndia, CountryCodeIndonesia,
    CountryCodeMalaysia, CountryCodeMexico, CountryCodePhilippines, CountryCodeSingapore,
    CountryCodeTaiwan, CountryCodeThailand, CountryCodeVietnam
  }

  /** `CityCode.GetCountry`: the record of the country a city belongs to. */
  function GetCountry(c: CityCode): (country: Country)
    ensures c in DeclaredCities ==> c in country.cities
    ensures c !in DeclaredCities ==> country == CountryUnknown
  {
    match c
    case "BR_SAO" => CountryBrasil
    case "BR_RIO" => CountryBrasil
    case "HK_HKG" => CountryHongKong
    case "IN_BLR" => CountryIndia
    case "IN_BOM" => CountryIndia
    case "IN_DEL" => CountryIndia
    case "ID_JKT" => CountryIndonesia
    case "MY_KUL" => CountryMalaysia
    case "MX_MEX" => CountryMexico
    case "PH_MNL" => CountryPhilippines
    case "PH_CEB" => CountryPhilippines
    case "SG_SIN" => CountrySingapore
    case "TW_TPE" => CountryTaiwan
    case "TH_BKK" => CountryThailand
    case "TH_PYX" => CountryThailand
    case "VN_SGN" => CountryVietnam
    case "VN_HAN" => CountryVietnam
    case _ => CountryUnknown
  }

  /** The cities whose header value is their country's code. */
  const CountryLevelCities: set<CityCode> := {
    CityHongKongHongKong, CityIndonesiaJakarta, CityMalaysiaKualaLumpur,
    CitySingaporeSingapore, CityTaiwanTaipei
  }

  /** `getLLMCountry`: the value sent in the `X-LLM-Country` header. */
  function GetLLMCountry(c: CityCode): (header: string)
    ensures c in CountryLevelCities ==>
      header == (if c == CityHongKongHongKong then CountryCodeBrasil else c[..2])
    ensures c in CountryLevelCities ==> |header| == 2 && header in AllCountriesByISOCode
    ensures c !in CountryLevelCities ==> header == c
  {
    if c == CityHongKongHongKong || c == CityIndonesiaJakarta || c == CityMalaysiaKualaLumpur
      || c == CitySingaporeSingapore || c == CityTaiwanTaipei
    then GetCountry(c).code
    else c
  }

  /** The five country-level cities and the header each one gets, as written. */
  lemma LLMCountryValues()
    ensures GetLLMCountry(CityIndonesiaJakarta) == "ID"
    ensures GetLLMCountry(CityMalaysiaKualaLumpur) == "MY"
    ensures GetLLMCountry(CitySingaporeSingapore) == "SG"
    ensures GetLLMCountry(CityTaiwanTaipei) == "TW"
    ensures GetLLMCountry(CityHongKongHongKong) == "BR"
  {
  }

  /** The table holds one record per declared country code, 11 in all. */
  lemma CountryTableShape()
    ensures AllCountriesByISOCode.Keys == CountryCodes
    ensures |AllCountriesByISOCode| == 11
  {
    assert |CountryCodes| == 11;
  }

  /** Every city a table record lists is a declared city. */
  lemma TableCitiesAreDeclared(k: CountryCode, c: CityCode)
    requires k in AllCountriesByISOCode && c in AllCountriesByISOCode[k].cities
    ensures c in DeclaredCities
  {
  }

  /** A declared city resolves to the table entry named by its first two letters. */
  lemma DeclaredCityResolvesByPrefix(c: CityCode)
    requires c in DeclaredCities
    ensures c[..2] in AllCountriesByISOCode
    ensures GetCountry(c) == AllCountriesByISOCode[c[..2]]
  {
    assert c[..2] == [c[0], c[1]];
  }

  /** Every city a table record lists resolves back to that record. */
  lemma CitiesResolveToTheirCountry(k: CountryCode, c: CityCode)
    requires k in AllCountriesByISOCode && c in AllCountriesByISOCode[k].cities
    ensures c in DeclaredCities
    ensures GetCountry(c) == AllCountriesByISOCode[k]
  {
    TableCitiesAreDeclared(k, c);
    CityCodesCarryTheirKey(k, c);
    DeclaredCityResolvesByPrefix(c);
  }

  /** Every city a table record lists is spelled with the record's key and "_". */
  lemma CityCodesCarryTheirKey(k: CountryCode, c: CityCode)
    requires k in AllCountriesByISOCode && c in AllCountriesByISOCode[k].cities
    ensures |c| == 6 && c[..2] == k && c[2] == '_'
  {
  }

  /** As written, every record's code is its key except Hong Kong's, which says Brasil. */
  lemma CodesMatchKeysExceptHongKong(k: CountryCode)
    requires k in AllCountriesByISOCode
    ensures k != CountryCodeHongKong ==> AllCountriesByISOCode[k].code == k
    ensures k == CountryCodeHongKong ==> AllCountriesByISOCode[k].code == CountryCodeBrasil
  {
  }

  /**
   * The defect of geo.go:137 as it shows at the boundary: the Hong Kong
   * city is sent with the Brasil header, the same header a Brasil city
   * would send if it were country-level.
   */
  lemma HongKongResolvesToBrasil()
    ensures GetLLMCountry(CityHongKongHongKong) == CountryCodeBrasil
    ensures AllCountriesByISOCode[GetLLMCountry(CityHongKongHongKong)] != GetCountry(CityHongKongHongKong)
    ensures GetCountry(CityHongKongHongKong).code != CountryCodeHongKong
    ensures AllCountriesByISOCode[CountryCodeHongKong].code == AllCountriesByISOCode[CountryCodeBrasil].code
  {
  }

  /** The Hong Kong record with the code its table key names. */
  const CountryHongKongIntended := CountryHongKong.(code := CountryCodeHongKong)

  const AllCountriesByISOCodeIntended: map<CountryCode, Country> :=
    AllCountriesByISOCode[CountryCodeHongKong := CountryHongKongIntended]

  function GetCountryIntended(c: CityCode): (country: Country)
    ensures c in DeclaredCities ==> c in country.cities
    ensures c !in DeclaredCities ==> country == CountryUnknown
  {
    if c == CityHongKongHongKong then CountryHongKongIntended else GetCountry(c)
  }

  function GetLLMCountryIntended(c: CityCode): (header: string)
    ensures c in CountryLevelCities ==> header == c[..2] && header in AllCountriesByISOCodeIntended
    ensures c in CountryLevelCities ==> c in AllCountriesByISOCodeIntended[header].cities
    ensures c !in CountryLevelCities ==> header == c
  {
    if c in CountryLevelCities then GetCountryIntended(c).code else c
  }

  /** With the correction every record's code equals its key and resolves back. */
  lemma IntendedCodesMatchKeys(k: CountryCode, c: CityCode)
    requires k in AllCountriesByISOCodeIntended
    ensures AllCountriesByISOCodeIntended[k].code == k
    ensures c in AllCountriesByISOCodeIntended[k].cities ==>
      GetCountryIntended(c) == AllCountriesByISOCodeIntended[k]
  {
    if k != CountryCodeHongKong {
      CodesMatchKeysExceptHongKong(k);
      if c in AllCountriesByISOCodeIntended[k].cities {
        CityCodesCarryTheirKey(k, c);
        CitiesResolveToTheirCountry(k, c);
      }
    }
  }

  /**
   * With the correction a country-level city's header names, in the table,
   * the very record the city resolves to.
   */
  lemma IntendedHeaderNamesItsCountry(c: CityCode)
    requires c in CountryLevelCities
    ensures AllCountriesByISOCodeIntended[GetLLMCountryIntended(c)] == GetCountryIntended(c)
  {
    IntendedCodesMatchKeys(GetLLMCountryIntended(c), c);
  }
}
