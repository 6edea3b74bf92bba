/** Country-dependent duration options offered by the parameters panel.
    The translation lookup is taken to be the identity, so a load-duration
    option is its translation key. */
module Durations {

  const UsaLoadDurations: seq<string> := [
    "loadDuration.dead90",
    "loadDuration.floor100",
    "loadDuration.snow115",
    "loadDuration.roof125",
    "loadDuration.quakeWind160"
  ]

  const CanadaLoadDurations: seq<string> := ["loadDuration.standardTerm100"]

  /** No option is listed twice (each one keys an `<option>` element). */
  predicate Distinct(s: seq<string>) {
    forall i, j :: 0 <= i < j < |s| ==> s[i] != s[j]
  }

  /** The load-duration options for a country: the Canadian list for "Canada",
      the USA list for "USA" and for every other country. */
  function LoadDurationOptions(country: string): (r: seq<string>)
    ensures 0 < |r|
    ensures Distinct(r)
    ensures |r| == 1 <==> country == "Canada"
    ensures r[0] == (if country == "Canada" then "loadDuration.standardTerm100" else "loadDuration.dead90")
  {
    if country == "USA" then UsaLoadDurations
    else if country == "Canada" then CanadaLoadDurations
    else UsaLoadDurations
  }

  /** The uplift-duration options for a country; the fallback list for other
      countries is not the USA list. */
  function UpliftDurationOptions(country: string): (r: seq<string>)
    ensures |r| == 2
    ensures Distinct(r)
    ensures "Short Term 1.15" in r <==> country != "USA"
  {
    if country == "USA" then ["Quake/Wind (160)", "Normal (100)"]
    else if country == "Canada" then ["Standard Term 1.00", "Short Term 1.15"]
    else ["Short Term 1.15", "Medium Term 1.5"]
  }

  /** The three branches of the load-duration selection. */
  lemma LoadDurationOptionsByCountry(country: string)
    ensures country == "USA" ==> LoadDurationOptions(country) == UsaLoadDurations
    ensures country == "Canada" ==> LoadDurationOptions(country) == ["loadDuration.standardTerm100"]
    ensures country != "USA" && country != "Canada" ==> LoadDurationOptions(country) == LoadDurationOptions("USA")
    ensures |LoadDurationOptions("USA")| == 5
  {
  }

  /** The three branches of the uplift-duration selection; unlike the load
      durations, the fallback differs from both named countries. */
  lemma UpliftDurationOptionsByCountry(country: string)
    ensures country == "USA" ==> UpliftDurationOptions(country) == ["Quake/Wind (160)", "Normal (100)"]
    ensures country == "Canada" ==> UpliftDurationOptions(country) == ["Standard Term 1.00", "Short Term 1.15"]
    ensures country != "USA" && country != "Canada" ==>
      UpliftDurationOptions(country) == ["Short Term 1.15", "Medium Term 1.5"]
      && UpliftDurationOptions(country) != UpliftDurationOptions("USA")
      && UpliftDurationOptions(country) != UpliftDurationOptions("Canada")
  {
  }

  /** The USA and Canadian load-duration lists share no option, so moving
      between these two countries always invalidates the stored choice. */
  lemma UsaAndCanadaLoadDurationsDisjoint(d: string)
    ensures d in LoadDurationOptions("USA") ==> d !in LoadDurationOptions("Canada")
  {
  }
}
