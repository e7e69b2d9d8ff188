/** The company registry: the static table of companies to scrape and the
    profile URL each one is fetched from. */
module Registry {

  /** An entry of the static table: display name and screener id. */
  datatype CompanyData = CompanyData(name: string, id: string)

  /** A company as the extractors see it: display name and profile URL. */
  datatype CompanyRef = CompanyRef(name: string, url: string)

  const BaseUrl: string := "https://www.screener.in/company/"

  const CompaniesData: seq<CompanyData> := [
    CompanyData("Voltas", "VOLTAS"),
    CompanyData("Blue Star", "BLUESTARCO"),
    CompanyData("Crompton", "CROMPTON"),
    CompanyData("Orient Electric", "ORIENTELEC"),
    CompanyData("Havells", "HAVELLS"),
    CompanyData("Symphony", "SYMPHONY"),
    CompanyData("Whirlpool", "WHIRLPOOL")
  ]

  /** The profile URL of a screener id: the id appended to the base URL. */
  function ProfileUrl(id: string): (url: string)
    ensures |url| == |BaseUrl| + |id|
    ensures url[..|BaseUrl|] == BaseUrl && url[|BaseUrl|..] == id
  {
    BaseUrl + id
  }

  /** The inverse of ProfileUrl: the id part of a profile URL. */
  function IdOfUrl(url: string): (id: string)
    requires |BaseUrl| <= |url|
  {
    url[|BaseUrl|..]
  }

  /** `companiesData.map(...)`: one reference per table entry, in table
      order, keeping the name and turning the id into a profile URL. */
  function ToCompanyRefs(data: seq<CompanyData>): (companies: seq<CompanyRef>)
    ensures |companies| == |data|
    ensures forall i :: 0 <= i < |data| ==>
      companies[i].name == data[i].name && IsProfileUrlOf(companies[i].url, data[i].id)
  {
    seq(|data|, i requires 0 <= i < |data| => CompanyRef(data[i].name, ProfileUrl(data[i].id)))
  }

  /** `url` starts with the base URL and what follows it is `id`. */
  predicate IsProfileUrlOf(url: string, id: string)
  {
    |BaseUrl| <= |url| && url[..|BaseUrl|] == BaseUrl && IdOfUrl(url) == id
  }

  /** The registry the script iterates over. */
  function Companies(): (companies: seq<CompanyRef>)
  {
    ToCompanyRefs(CompaniesData)
  }

  /** Building a profile URL and taking its id back gives the id again,
      and a URL that decomposes as base + id is exactly ProfileUrl(id). */
  lemma {:induction false} ProfileUrlRoundTrip(id: string, url: string)
    ensures IdOfUrl(ProfileUrl(id)) == id
    ensures IsProfileUrlOf(url, id) <==> url == ProfileUrl(id)
  {
    if IsProfileUrlOf(url, id) {
      assert url == url[..|BaseUrl|] + url[|BaseUrl|..];
    }
  }

  /** Distinct ids give distinct URLs, so no two registry entries fetch
      the same page unless their ids coincide. */
  lemma UrlsDistinct(data: seq<CompanyData>)
    requires forall i, j :: 0 <= i < j < |data| ==> data[i].id != data[j].id
    ensures forall i, j :: 0 <= i < j < |data| ==>
      ToCompanyRefs(data)[i].url != ToCompanyRefs(data)[j].url
  {
    var companies := ToCompanyRefs(data);
    forall i, j | 0 <= i < j < |data|
      ensures companies[i].url != companies[j].url
    {
      assert IdOfUrl(companies[i].url) == data[i].id;
      assert IdOfUrl(companies[j].url) == data[j].id;
    }
  }

  /** The shipped registry: seven companies, names in table order, every
      URL on the screener base, no page fetched twice. */
  lemma CompaniesFacts()
    ensures |Companies()| == 7
    ensures Companies()[0] == CompanyRef("Voltas", "https://www.screener.in/company/VOLTAS")
    ensures forall i :: 0 <= i < 7 ==> Companies()[i].name == CompaniesData[i].name
    ensures forall i, j :: 0 <= i < j < 7 ==> Companies()[i].url != Companies()[j].url
  {
    UrlsDistinct(CompaniesData);
    assert ProfileUrl("VOLTAS") == "https://www.screener.in/company/VOLTAS";
  }
}
