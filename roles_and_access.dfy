/** The user group list page: the lookup's rows, a case-insensitive search
    over two optional fields, pages of 8 rows, and the PDF export. */
module RolesAndAccess {
  import opened Js
  import opened Text
  import opened Listing

  /** A user group row; `None` is a missing or null field. */
  datatype UserGroupRow = UserGroupRow(
    UserGroupId: Option<string>,
    CompanyId: Option<string>,
    Description: Option<string>,
    Status: Option<string>)

  /** The lookup response, `{ LookupData }`; an item may itself be `null`. */
  datatype UserGroupList = UserGroupList(LookupData: Option<seq<Option<UserGroupRow>>>)

  /** `select: res => res?.LookupData || []`. Before the one fetch resolves
      there is no data at all, which `data || []` also reads as `[]`. */
  function Select(res: Option<UserGroupList>): (rows: seq<Option<UserGroupRow>>)
    ensures res.Some? && res.value.LookupData.Some? ==> rows == res.value.LookupData.value
    ensures res.None? || res.value.LookupData.None? ==> rows == []
  {
    if res.None? || res.value.LookupData.None? then [] else res.value.LookupData.value
  }

  /** `item?.X?.toLowerCase().includes(searchQuery.toLowerCase())` */
  predicate FieldMatches(field: Option<string>, query: string) {
    field.Some? && Includes(Lower(field.value), Lower(query))
  }

  /** The filter callback; a `null` item is never kept. */
  predicate Matches(item: Option<UserGroupRow>, query: string) {
    item.Some? && (FieldMatches(item.value.UserGroupId, query) || FieldMatches(item.value.Description, query))
  }

  function MatchesQuery(query: string): Option<UserGroupRow> -> bool {
    item => Matches(item, query)
  }

  /** `filteredData` */
  function FilteredData(res: Option<UserGroupList>, searchQuery: string): seq<Option<UserGroupRow>> {
    Filter(Select(res), MatchesQuery(searchQuery))
  }

  /** A row is kept iff it is not `null` and its UserGroupId or Description is
      present and, lower-cased, contains the lower-cased query; the kept rows
      keep their order and nothing is added. */
  lemma FilteredSpec(res: Option<UserGroupList>, searchQuery: string)
    ensures var all, r := Select(res), FilteredData(res, searchQuery);
      && IsSubsequence(r, all)
      && |r| <= |all|
      && (forall i :: 0 <= i < |r| ==>
            (r[i].Some? &&
             (OccursIn(r[i].value.UserGroupId, Lower(searchQuery)) || OccursIn(r[i].value.Description, Lower(searchQuery)))))
      && (forall i :: 0 <= i < |all| && Matches(all[i], searchQuery) ==> all[i] in r)
      && (forall item :: multiset(r)[item] == if Matches(item, searchQuery) then multiset(all)[item] else 0)
  {
    var r := FilteredData(res, searchQuery);
    FilterIsSubsequence(Select(res), MatchesQuery(searchQuery));
    FilterCounts(Select(res), MatchesQuery(searchQuery));
    forall i | 0 <= i < |r|
      ensures r[i].Some? && (OccursIn(r[i].value.UserGroupId, Lower(searchQuery)) || OccursIn(r[i].value.Description, Lower(searchQuery)))
    {
      assert MatchesQuery(searchQuery)(r[i]);
    }
  }

  /** The search ignores the case of the query. */
  lemma SearchIgnoresCase(item: Option<UserGroupRow>, query: string)
    ensures Matches(item, Upper(query)) == Matches(item, query)
  {
    LowerOfUpper(query);
  }

  /** `paginatedUsers` for page `currentPage`. */
  function PaginatedUsers(res: Option<UserGroupList>, searchQuery: string, currentPage: int): seq<Option<UserGroupRow>> {
    PageRows(FilteredData(res, searchQuery), currentPage)
  }

  /** `ceil(n / 8)` pages; page p holds at most 8 rows, from `(p-1)*8` on,
      none past the last page; the pages in turn give back the filtered rows. */
  lemma PagingSpec(res: Option<UserGroupList>, searchQuery: string, currentPage: int)
    ensures var n := |FilteredData(res, searchQuery)|;
      && TotalPages(n) * RowsPerPage >= n
      && (TotalPages(n) > 0 ==> (TotalPages(n) - 1) * RowsPerPage < n)
      && |PaginatedUsers(res, searchQuery, currentPage)| <= RowsPerPage
      && (currentPage >= 1 ==>
            PaginatedUsers(res, searchQuery, currentPage) ==
            FilteredData(res, searchQuery)[Min(PageStart(currentPage), n)..Min(PageStart(currentPage) + RowsPerPage, n)])
      && (currentPage > TotalPages(n) ==> PaginatedUsers(res, searchQuery, currentPage) == [])
      && Pages(FilteredData(res, searchQuery), TotalPages(n)) == FilteredData(res, searchQuery)
  {
    PagesPartition(FilteredData(res, searchQuery));
    if currentPage < 1 {
      assert PageStart(currentPage) + RowsPerPage <= 0;
    }
  }

  /** The PDF column titles. */
  const PdfHeaders: seq<string> := ["UserGroupId", "CompanyId", "Description", "Status"]

  /** One PDF row; a kept row is never `null`. */
  function PdfRow(row: UserGroupRow): seq<string> {
    [OrEmpty(row.UserGroupId), OrEmpty(row.CompanyId), OrEmpty(row.Description), OrEmpty(row.Status)]
  }

  /** `filteredData.map(...)` for the PDF body, on the filtered rows, which
      are all present. */
  function PdfBody(filtered: seq<Option<UserGroupRow>>): seq<seq<string>>
    requires forall i :: 0 <= i < |filtered| ==> filtered[i].Some?
  {
    seq(|filtered|, i requires 0 <= i < |filtered| => PdfRow(filtered[i].value))
  }

  /** The export always applies: the filtered rows are never `null`; it gives
      one row per filtered item, in order, with four columns in the fixed order,
      a present field as it is and a missing one as `""`. */
  lemma PdfSpec(res: Option<UserGroupList>, searchQuery: string)
    ensures var r := FilteredData(res, searchQuery);
      && (forall i :: 0 <= i < |r| ==> r[i].Some?)
      && |PdfBody(r)| == |r|
      && forall i :: 0 <= i < |r| ==>
           && |PdfBody(r)[i]| == |PdfHeaders|
           && PdfBody(r)[i][0] == OrEmpty(r[i].value.UserGroupId)
           && PdfBody(r)[i][1] == OrEmpty(r[i].value.CompanyId)
           && PdfBody(r)[i][2] == OrEmpty(r[i].value.Description)
           && PdfBody(r)[i][3] == OrEmpty(r[i].value.Status)
  {
  }
}
