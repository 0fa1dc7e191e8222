/** The company list page: a case-insensitive search over four optional
    fields of the fetched companies, pages of 8 rows, and the Excel and PDF
    exports of the filtered list. */
module CompanyManagement {
  import opened Js
  import opened Text
  import opened Listing

  /** A company as the list lookup returns it; `None` is a missing or null field. */
  datatype Company = Company(
    CompanyId: Option<string>,
    CompanyName: Option<string>,
    Email: Option<string>,
    PhoneNumber: Option<string>,
    Status: Option<string>,
    Website: Option<string>)

  /** The lookup response, `{ LookupData }`. */
  datatype CompanyList = CompanyList(LookupData: Option<seq<Company>>)

  /** `field?.toLowerCase().includes(searchStr)`: `undefined` for a missing
      field, which is falsy. */
  predicate FieldMatches(field: Option<string>, searchStr: string) {
    field.Some? && Includes(Lower(field.value), searchStr)
  }

  /** The filter callback. */
  predicate Matches(c: Company, query: string) {
    var searchStr := Lower(query);
    FieldMatches(c.CompanyId, searchStr) || FieldMatches(c.CompanyName, searchStr) ||
    FieldMatches(c.Email, searchStr) || FieldMatches(c.PhoneNumber, searchStr)
  }

  function MatchesQuery(query: string): Company -> bool {
    c => Matches(c, query)
  }

  /** `companies?.LookupData?.filter(...) || []` */
  function FilteredCompanies(companies: Option<CompanyList>, query: string): seq<Company> {
    if companies.None? || companies.value.LookupData.None? then []
    else Filter(companies.value.LookupData.value, MatchesQuery(query))
  }

  /** A company is kept iff one of its four searched fields is present and,
      lower-cased, contains the lower-cased query somewhere. */
  lemma MatchesSpec(c: Company, query: string)
    ensures Matches(c, query) <==>
              OccursIn(c.CompanyId, Lower(query)) || OccursIn(c.CompanyName, Lower(query)) ||
              OccursIn(c.Email, Lower(query)) || OccursIn(c.PhoneNumber, Lower(query))
  {
  }

  /** The search ignores the case of the query. */
  lemma SearchIgnoresCase(c: Company, query: string)
    ensures Matches(c, Upper(query)) == Matches(c, query)
    ensures Matches(c, Lower(query)) == Matches(c, query)
  {
    LowerOfUpper(query);
    LowerIdempotent(query);
  }

  /** With an empty search box a company is kept iff at least one searched
      field is present, so a company missing all four is never listed. */
  lemma EmptyQueryKeepsPresent(c: Company)
    ensures Matches(c, "") <==> c.CompanyId.Some? || c.CompanyName.Some? || c.Email.Some? || c.PhoneNumber.Some?
  {
    assert Lower("") == "";
    if c.CompanyId.Some? { IncludesEmpty(Lower(c.CompanyId.value)); }
    if c.CompanyName.Some? { IncludesEmpty(Lower(c.CompanyName.value)); }
    if c.Email.Some? { IncludesEmpty(Lower(c.Email.value)); }
    if c.PhoneNumber.Some? { IncludesEmpty(Lower(c.PhoneNumber.value)); }
  }

  /** The filtered list is empty without lookup data; otherwise it keeps the
      matching companies and only those, in their order. */
  lemma FilteredSpec(companies: Option<CompanyList>, query: string)
    ensures companies.None? || companies.value.LookupData.None? ==> FilteredCompanies(companies, query) == []
    ensures companies.Some? && companies.value.LookupData.Some? ==>
              var all, r := companies.value.LookupData.value, FilteredCompanies(companies, query);
              && IsSubsequence(r, all)
              && (forall i :: 0 <= i < |r| ==> Matches(r[i], query))
              && (forall i :: 0 <= i < |all| && Matches(all[i], query) ==> all[i] in r)
              && (forall c :: multiset(r)[c] == if Matches(c, query) then multiset(all)[c] else 0)
  {
    if companies.Some? && companies.value.LookupData.Some? {
      FilterIsSubsequence(companies.value.LookupData.value, MatchesQuery(query));
      FilterCounts(companies.value.LookupData.value, MatchesQuery(query));
    }
  }

  /** `displayedCompanies` for page `currentPage`. */
  function DisplayedCompanies(companies: Option<CompanyList>, query: string, currentPage: int): seq<Company> {
    PageRows(FilteredCompanies(companies, query), currentPage)
  }

  /** The pager: `ceil(n / 8)` pages; page p holds rows (p-1)*8 up to p*8 of
      the filtered list, at most 8, none past the last page; and the pages in
      turn give back the filtered list. */
  lemma PagingSpec(companies: Option<CompanyList>, query: string, currentPage: int)
    ensures var n := |FilteredCompanies(companies, query)|;
      && TotalPages(n) * RowsPerPage >= n
      && (TotalPages(n) == 0 <==> n == 0)
      && |DisplayedCompanies(companies, query, currentPage)| <= RowsPerPage
      && (currentPage > TotalPages(n) ==> DisplayedCompanies(companies, query, currentPage) == [])
      && (currentPage >= 1 ==>
            DisplayedCompanies(companies, query, currentPage) ==
            FilteredCompanies(companies, query)[Min(PageStart(currentPage), n)..Min(PageStart(currentPage) + RowsPerPage, n)])
      && Pages(FilteredCompanies(companies, query), TotalPages(n)) == FilteredCompanies(companies, query)
  {
    PagesPartition(FilteredCompanies(companies, query));
    if currentPage < 1 {
      assert PageStart(currentPage) + RowsPerPage <= 0;
    }
  }

  /** The export column titles, in order. */
  const ExportHeaders: seq<string> := ["CompanyId", "CompanyName", "Email", "Phone Number", "Status", "Website"]

  /** One PDF row: the six fields, a missing one as `""`. */
  function PdfRow(c: Company): seq<string> {
    [OrEmpty(c.CompanyId), OrEmpty(c.CompanyName), OrEmpty(c.Email),
     OrEmpty(c.PhoneNumber), OrEmpty(c.Status), OrEmpty(c.Website)]
  }

  /** One Excel row: an object keyed by the column titles. */
  function ExcelRow(c: Company): seq<(string, string)> {
    [("CompanyId", OrEmpty(c.CompanyId)), ("CompanyName", OrEmpty(c.CompanyName)),
     ("Email", OrEmpty(c.Email)), ("Phone Number", OrEmpty(c.PhoneNumber)),
     ("Status", OrEmpty(c.Status)), ("Website", OrEmpty(c.Website))]
  }

  function PdfBody(filtered: seq<Company>): seq<seq<string>> {
    seq(|filtered|, i requires 0 <= i < |filtered| => PdfRow(filtered[i]))
  }

  function ExcelData(filtered: seq<Company>): seq<seq<(string, string)>> {
    seq(|filtered|, i requires 0 <= i < |filtered| => ExcelRow(filtered[i]))
  }

  /** Both exports give one row per filtered company, in order, with the six
      columns under the fixed titles; a present field is exported as it is
      and a missing one as `""`; and the two exports hold the same cells. */
  lemma ExportSpec(filtered: seq<Company>)
    ensures |PdfBody(filtered)| == |filtered| && |ExcelData(filtered)| == |filtered|
    ensures forall i :: 0 <= i < |filtered| ==>
              && |PdfBody(filtered)[i]| == |ExportHeaders|
              && |ExcelData(filtered)[i]| == |ExportHeaders|
              && (forall j :: 0 <= j < |ExportHeaders| ==>
                    ExcelData(filtered)[i][j] == (ExportHeaders[j], PdfBody(filtered)[i][j]))
              && PdfBody(filtered)[i] ==
                   [OrEmpty(filtered[i].CompanyId), OrEmpty(filtered[i].CompanyName), OrEmpty(filtered[i].Email),
                    OrEmpty(filtered[i].PhoneNumber), OrEmpty(filtered[i].Status), OrEmpty(filtered[i].Website)]
  {
  }
}
