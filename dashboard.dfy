/**
 * The derivations of the dashboard table: filtering by category and search
 * query, pagination with clamping of the current page, the windowed list of
 * page numbers, the "Showing X to Y" range, and the projection onto the export
 * fields. The record sets are given to the table instead of being fixtures;
 * `currentPage` is the table's one piece of state.
 */
module Dashboard {
  import opened Wrappers
  import opened Text
  import opened Sequences
  import Export
  import CsvReader

  const ItemsPerPage: nat := 10
  const MaxVisiblePages: nat := 5

  /** The table's `userRole` prop: admins see user accounts, lenders see rentals. */
  datatype ViewerRole = ViewerLender | ViewerAdmin

  datatype RentalStatus = Pending | Approved | Rejected
  datatype AccountRole = Admin | Lender | Renter

  function StatusName(s: RentalStatus): string {
    match s
    case Pending => "pending"
    case Approved => "approved"
    case Rejected => "rejected"
  }

  function RoleName(r: AccountRole): string {
    match r
    case Admin => "admin"
    case Lender => "lender"
    case Renter => "renter"
  }

  datatype RentalData = RentalData(
    id: string, name: string, equipment: string, date: string, duration: string,
    location: string, email: string, status: RentalStatus, statusText: string)

  datatype UserData = UserData(
    id: string, name: string, email: string, date: string, location: string,
    role: AccountRole, roleText: string)

  /** A status or role filter: `'all'` or one value. */
  datatype CategoryFilter<T> = All | Only(value: T)

  predicate Admits<T(==)>(f: CategoryFilter<T>, v: T) {
    f.All? || f.value == v
  }

  /** The table's filter props, with their defaults `'all'`, `'all'` and `''`. */
  datatype Props = Props(statusFilter: CategoryFilter<RentalStatus> := All, roleFilter: CategoryFilter<AccountRole> := All,
                         searchQuery: string := "")

  // ---------------------------------------------------------------- filtering

  /** The search test for an account: name, email or location contains the (lower-cased) query. */
  predicate UserMatches(u: UserData, query: string) {
    Includes(Lower(u.name), query) || Includes(Lower(u.email), query) || Includes(Lower(u.location), query)
  }

  /** The search test for a rental: name, email, equipment or location contains the (lower-cased) query. */
  predicate RentalMatches(r: RentalData, query: string) {
    Includes(Lower(r.name), query) || Includes(Lower(r.email), query)
    || Includes(Lower(r.equipment), query) || Includes(Lower(r.location), query)
  }

  /** The accounts `filteredData` keeps: the role filter, then the search when the trimmed query is not empty. */
  function FilteredUsers(users: seq<UserData>, roleFilter: CategoryFilter<AccountRole>, searchQuery: string): (r: seq<UserData>)
    ensures |r| <= |users|
    ensures forall i :: 0 <= i < |r| ==> r[i] in users && KeepUser(r[i], roleFilter, searchQuery)
  {
    var byRole := if roleFilter.Only? then Filter(users, (u: UserData) => u.role == roleFilter.value) else users;
    if Trim(searchQuery) != [] then
      var query := Lower(searchQuery);
      Filter(byRole, (u: UserData) => UserMatches(u, query))
    else byRole
  }

  /** The rentals `filteredData` keeps: the status filter, then the search when the trimmed query is not empty. */
  function FilteredRentals(rentals: seq<RentalData>, statusFilter: CategoryFilter<RentalStatus>, searchQuery: string): (r: seq<RentalData>)
    ensures |r| <= |rentals|
    ensures forall i :: 0 <= i < |r| ==> r[i] in rentals && KeepRental(r[i], statusFilter, searchQuery)
  {
    var byStatus := if statusFilter.Only? then Filter(rentals, (r: RentalData) => r.status == statusFilter.value) else rentals;
    if Trim(searchQuery) != [] then
      var query := Lower(searchQuery);
      Filter(byStatus, (r: RentalData) => RentalMatches(r, query))
    else byStatus
  }

  /** Whether one account survives the filters; note that the query is lower-cased but not trimmed. */
  predicate KeepUser(u: UserData, roleFilter: CategoryFilter<AccountRole>, searchQuery: string) {
    Admits(roleFilter, u.role) && (Trim(searchQuery) == [] || UserMatches(u, Lower(searchQuery)))
  }

  /** Whether one rental survives the filters; note that the query is lower-cased but not trimmed. */
  predicate KeepRental(r: RentalData, statusFilter: CategoryFilter<RentalStatus>, searchQuery: string) {
    Admits(statusFilter, r.status) && (Trim(searchQuery) == [] || RentalMatches(r, Lower(searchQuery)))
  }

  lemma FilteredUsersIsOneFilter(users: seq<UserData>, roleFilter: CategoryFilter<AccountRole>, searchQuery: string)
    ensures FilteredUsers(users, roleFilter, searchQuery) == Filter(users, (u: UserData) => KeepUser(u, roleFilter, searchQuery))
  {
    var keep := (u: UserData) => KeepUser(u, roleFilter, searchQuery);
    var query := Lower(searchQuery);
    var byRole := (u: UserData) => Admits(roleFilter, u.role);
    var search := (u: UserData) => UserMatches(u, query);
    if roleFilter.Only? {
      var onlyRole := (u: UserData) => u.role == roleFilter.value;
      if Trim(searchQuery) != [] {
        FilterTwice(users, onlyRole, search, keep);
      } else {
        FilterAgree(users, onlyRole, keep);
      }
    } else {
      if Trim(searchQuery) != [] {
        FilterAgree(users, search, keep);
      } else {
        FilterKeepsAll(users, keep);
      }
    }
  }

  lemma FilteredRentalsIsOneFilter(rentals: seq<RentalData>, statusFilter: CategoryFilter<RentalStatus>, searchQuery: string)
    ensures FilteredRentals(rentals, statusFilter, searchQuery) == Filter(rentals, (r: RentalData) => KeepRental(r, statusFilter, searchQuery))
  {
    var keep := (r: RentalData) => KeepRental(r, statusFilter, searchQuery);
    var query := Lower(searchQuery);
    var search := (r: RentalData) => RentalMatches(r, query);
    if statusFilter.Only? {
      var onlyStatus := (r: RentalData) => r.status == statusFilter.value;
      if Trim(searchQuery) != [] {
        FilterTwice(rentals, onlyStatus, search, keep);
      } else {
        FilterAgree(rentals, onlyStatus, keep);
      }
    } else {
      if Trim(searchQuery) != [] {
        FilterAgree(rentals, search, keep);
      } else {
        FilterKeepsAll(rentals, keep);
      }
    }
  }

  /**
   * The filtered accounts are an order-preserving subsequence of the record set,
   * and each account occurs in it exactly as often as in the record set when it
   * passes both filters, and not at all otherwise.
   */
  lemma FilteredUsersSpec(users: seq<UserData>, roleFilter: CategoryFilter<AccountRole>, searchQuery: string)
    ensures IsSubsequence(FilteredUsers(users, roleFilter, searchQuery), users)
    ensures forall u :: multiset(FilteredUsers(users, roleFilter, searchQuery))[u]
                     == if KeepUser(u, roleFilter, searchQuery) then multiset(users)[u] else 0
  {
    var keep := (u: UserData) => KeepUser(u, roleFilter, searchQuery);
    FilteredUsersIsOneFilter(users, roleFilter, searchQuery);
    FilterIsSubsequence(users, keep);
    forall u ensures multiset(FilteredUsers(users, roleFilter, searchQuery))[u]
                  == if KeepUser(u, roleFilter, searchQuery) then multiset(users)[u] else 0 {
      FilterCount(users, keep, u);
    }
  }

  /**
   * The filtered rentals are an order-preserving subsequence of the record set,
   * and each rental occurs in it exactly as often as in the record set when it
   * passes both filters, and not at all otherwise.
   */
  lemma FilteredRentalsSpec(rentals: seq<RentalData>, statusFilter: CategoryFilter<RentalStatus>, searchQuery: string)
    ensures IsSubsequence(FilteredRentals(rentals, statusFilter, searchQuery), rentals)
    ensures forall r :: multiset(FilteredRentals(rentals, statusFilter, searchQuery))[r]
                     == if KeepRental(r, statusFilter, searchQuery) then multiset(rentals)[r] else 0
  {
    var keep := (r: RentalData) => KeepRental(r, statusFilter, searchQuery);
    FilteredRentalsIsOneFilter(rentals, statusFilter, searchQuery);
    FilterIsSubsequence(rentals, keep);
    forall r ensures multiset(FilteredRentals(rentals, statusFilter, searchQuery))[r]
                  == if KeepRental(r, statusFilter, searchQuery) then multiset(rentals)[r] else 0 {
      FilterCount(rentals, keep, r);
    }
  }

  /** With the default props (`'all'`, `'all'`, `''`) nothing is filtered out. */
  lemma DefaultPropsKeepEverything(users: seq<UserData>, rentals: seq<RentalData>)
    ensures FilteredUsers(users, Props().roleFilter, Props().searchQuery) == users
    ensures FilteredRentals(rentals, Props().statusFilter, Props().searchQuery) == rentals
  {
  }

  // --------------------------------------------------------------- pagination

  function Min(a: int, b: int): int { if a <= b then a else b }
  function Max(a: int, b: int): int { if a >= b then a else b }

  /** `Math.max(1, Math.ceil(n / ITEMS_PER_PAGE))`: the fewest pages of ten that hold `n` items, and at least one. */
  function TotalPages(n: nat): (t: nat)
    ensures t >= 1
    ensures n <= t * ItemsPerPage
    ensures t == 1 || (t - 1) * ItemsPerPage < n
  {
    Max(1, (n + ItemsPerPage - 1) / ItemsPerPage)
  }

  /** `Math.min(Math.max(1, currentPage), totalPages)`. */
  function ClampPage(currentPage: int, totalPages: nat): (p: int)
    requires totalPages >= 1
    ensures 1 <= p <= totalPages
    ensures 1 <= currentPage <= totalPages ==> p == currentPage
    ensures currentPage < 1 ==> p == 1
    ensures currentPage > totalPages ==> p == totalPages
  {
    Min(Max(1, currentPage), totalPages)
  }

  /** Clamping twice is clamping once. */
  lemma ClampIdempotent(currentPage: int, totalPages: nat)
    requires totalPages >= 1
    ensures ClampPage(ClampPage(currentPage, totalPages), totalPages) == ClampPage(currentPage, totalPages)
  {
  }

  /** `items.slice(start, end)` for `0 <= start <= end`: out-of-range bounds are cut to the length. */
  function Slice<T>(s: seq<T>, start: nat, end: nat): (r: seq<T>)
    requires start <= end
    ensures |r| == Max(0, Min(end, |s|) - start)
    ensures forall i :: 0 <= i < |r| ==> r[i] == s[start + i]
  {
    if start >= |s| then [] else s[start..Min(end, |s|)]
  }

  function StartIndex(page: int): int { (page - 1) * ItemsPerPage }
  function EndIndex(page: int): int { StartIndex(page) + ItemsPerPage }

  /** `paginatedData`: the slice of the filtered items shown on `page`. */
  function PageSlice<T>(s: seq<T>, page: int): seq<T>
    requires page >= 1
  {
    Slice(s, StartIndex(page), EndIndex(page))
  }

  /** A valid page starts inside the items, holds at most ten of them, and is not empty when there are items. */
  lemma PageSliceSpec<T>(s: seq<T>, page: int)
    requires 1 <= page <= TotalPages(|s|)
    ensures StartIndex(page) <= |s|
    ensures PageSlice(s, page) == s[StartIndex(page)..Min(EndIndex(page), |s|)]
    ensures |PageSlice(s, page)| <= ItemsPerPage
    ensures |s| > 0 ==> |PageSlice(s, page)| > 0
  {
    var t := TotalPages(|s|);
    if |s| > 0 {
      assert (page - 1) * ItemsPerPage <= (t - 1) * ItemsPerPage;
    }
  }

  /** Every item is shown on exactly one page: item `k` is entry `k % 10` of page `k / 10 + 1`. */
  lemma ItemOnItsPage<T>(s: seq<T>, k: nat)
    requires k < |s|
    ensures 1 <= k / ItemsPerPage + 1 <= TotalPages(|s|)
    ensures k % ItemsPerPage < |PageSlice(s, k / ItemsPerPage + 1)|
    ensures PageSlice(s, k / ItemsPerPage + 1)[k % ItemsPerPage] == s[k]
  {
    var p := k / ItemsPerPage + 1;
    var t := TotalPages(|s|);
    assert StartIndex(p) == k - k % ItemsPerPage;
    assert (p - 1) * ItemsPerPage < t * ItemsPerPage;
  }

  /** The numbers of the "Showing X to Y of N entries" line. */
  function ShowingRange(totalItems: nat, page: int): (nat, nat)
    requires page >= 1
  {
    (if totalItems == 0 then 0 else StartIndex(page) + 1, Min(EndIndex(page), totalItems))
  }

  /** The "Showing" line reports exactly the items on the page: 0 to 0 when there are none. */
  lemma ShowingMatchesPage<T>(s: seq<T>, page: int)
    requires 1 <= page <= TotalPages(|s|)
    ensures |s| == 0 ==> ShowingRange(|s|, page) == (0, 0)
    ensures |s| > 0 ==>
      var (from, to) := ShowingRange(|s|, page);
      1 <= from <= to <= |s| && PageSlice(s, page) == s[from - 1..to]
  {
    PageSliceSpec(s, page);
  }

  // --------------------------------------------------------- page number list

  /** An entry of the pagination control: a page number or an ellipsis. */
  datatype PageItem = Num(n: int) | Ellipsis

  /** The page numbers `lo` to `hi`, inclusive. */
  function Range(lo: int, hi: int): (r: seq<PageItem>)
    ensures |r| == Max(0, hi - lo + 1)
    ensures forall i :: 0 <= i < |r| ==> r[i] == Num(lo + i)
  {
    seq(Max(0, hi - lo + 1), i requires 0 <= i < Max(0, hi - lo + 1) => Num(lo + i))
  }

  /** The windowed page list of `getPageNumbers`, as a value. */
  function PageWindow(totalPages: int, current: int): seq<PageItem> {
    if totalPages <= MaxVisiblePages then Range(1, totalPages)
    else if current <= 3 then Range(1, 4) + [Ellipsis, Num(totalPages)]
    else if current >= totalPages - 2 then [Num(1), Ellipsis] + Range(totalPages - 3, totalPages)
    else [Num(1), Ellipsis] + Range(current - 1, current + 1) + [Ellipsis, Num(totalPages)]
  }

  /** `getPageNumbers()`: pushes the page numbers and ellipses, loop by loop. */
  method GetPageNumbers(totalPages: int, validCurrentPage: int) returns (pages: seq<PageItem>)
    ensures pages == PageWindow(totalPages, validCurrentPage)
  {
    pages := [];
    if totalPages <= MaxVisiblePages {
      var i := 1;
      while i <= totalPages
        invariant 1 <= i <= Max(1, totalPages + 1)
        invariant pages == Range(1, i - 1)
      {
        pages := pages + [Num(i)];
        i := i + 1;
      }
    } else if validCurrentPage <= 3 {
      var i := 1;
      while i <= 4
        invariant 1 <= i <= 5
        invariant pages == Range(1, i - 1)
      {
        pages := pages + [Num(i)];
        i := i + 1;
      }
      pages := pages + [Ellipsis];
      pages := pages + [Num(totalPages)];
    } else if validCurrentPage >= totalPages - 2 {
      pages := pages + [Num(1)];
      pages := pages + [Ellipsis];
      var i := totalPages - 3;
      while i <= totalPages
        invariant totalPages - 3 <= i <= totalPages + 1
        invariant pages == [Num(1), Ellipsis] + Range(totalPages - 3, i - 1)
      {
        pages := pages + [Num(i)];
        i := i + 1;
      }
    } else {
      pages := pages + [Num(1)];
      pages := pages + [Ellipsis];
      var i := validCurrentPage - 1;
      while i <= validCurrentPage + 1
        invariant validCurrentPage - 1 <= i <= validCurrentPage + 2
        invariant pages == [Num(1), Ellipsis] + Range(validCurrentPage - 1, i - 1)
      {
        pages := pages + [Num(i)];
        i := i + 1;
      }
      pages := pages + [Ellipsis];
      pages := pages + [Num(totalPages)];
    }
  }

  /** With at most five pages, every page is listed, in order. */
  lemma SmallWindowListsAll(totalPages: int, current: int)
    requires 1 <= totalPages <= MaxVisiblePages
    ensures |PageWindow(totalPages, current)| == totalPages
    ensures forall i :: 0 <= i < totalPages ==> PageWindow(totalPages, current)[i] == Num(i + 1)
  {
  }

  /** The shape of a window over more than five pages: first and last page at the ends, six or seven entries. */
  lemma LargeWindowShape(totalPages: int, current: int)
    requires totalPages > MaxVisiblePages
    ensures var w := PageWindow(totalPages, current);
      && (|w| == 6 || |w| == 7)
      && w[0] == Num(1) && w[|w| - 1] == Num(totalPages)
  {
  }

  /** The current page is always listed. */
  lemma WindowShowsCurrent(totalPages: int, current: int)
    requires 1 <= current <= totalPages
    ensures Num(current) in PageWindow(totalPages, current)
  {
    var w := PageWindow(totalPages, current);
    if totalPages <= MaxVisiblePages {
      assert w[current - 1] == Num(current);
    } else if current <= 3 {
      assert w[current - 1] == Num(current);
    } else if current >= totalPages - 2 {
      assert w[current - totalPages + 5] == Num(current);
    } else {
      assert w[3] == Num(current);
    }
  }

  /**
   * Every listed number is a page; adjacent numbers are consecutive pages; every
   * ellipsis sits between two numbers and stands for at least one hidden page.
   */
  ghost predicate OrderedCover(w: seq<PageItem>, totalPages: int) {
    && (forall i :: 0 <= i < |w| && w[i].Num? ==> 1 <= w[i].n <= totalPages)
    && (forall i :: 0 <= i < |w| - 1 && w[i].Num? && w[i + 1].Num? ==> w[i + 1].n == w[i].n + 1)
    && (forall i :: 0 <= i < |w| && w[i].Ellipsis? ==>
          0 < i < |w| - 1 && w[i - 1].Num? && w[i + 1].Num? && w[i - 1].n + 1 < w[i + 1].n)
  }

  lemma HeadWindowCover(totalPages: int)
    requires totalPages > MaxVisiblePages
    ensures OrderedCover([Num(1), Num(2), Num(3), Num(4), Ellipsis, Num(totalPages)], totalPages)
  {
  }

  lemma TailWindowCover(totalPages: int)
    requires totalPages > MaxVisiblePages
    ensures OrderedCover([Num(1), Ellipsis, Num(totalPages - 3), Num(totalPages - 2), Num(totalPages - 1), Num(totalPages)], totalPages)
  {
  }

  lemma MiddleWindowCover(totalPages: int, current: int)
    requires 3 < current < totalPages - 2
    ensures OrderedCover([Num(1), Ellipsis, Num(current - 1), Num(current), Num(current + 1), Ellipsis, Num(totalPages)], totalPages)
  {
  }

  /**
   * The window is an ordered cover of the pages: it is strictly increasing and
   * covers 1 to `totalPages`, each page shown or hidden behind exactly one ellipsis.
   */
  lemma WindowIsOrderedCover(totalPages: int, current: int)
    requires 1 <= current <= totalPages
    ensures OrderedCover(PageWindow(totalPages, current), totalPages)
  {
    var w := PageWindow(totalPages, current);
    if totalPages <= MaxVisiblePages {
      SmallWindowListsAll(totalPages, current);
    } else if current <= 3 {
      assert w == [Num(1), Num(2), Num(3), Num(4), Ellipsis, Num(totalPages)];
      HeadWindowCover(totalPages);
    } else if current >= totalPages - 2 {
      assert w == [Num(1), Ellipsis, Num(totalPages - 3), Num(totalPages - 2), Num(totalPages - 1), Num(totalPages)];
      TailWindowCover(totalPages);
    } else {
      assert w == [Num(1), Ellipsis, Num(current - 1), Num(current), Num(current + 1), Ellipsis, Num(totalPages)];
      MiddleWindowCover(totalPages, current);
    }
  }

  /** Numbers in the window strictly increase from left to right. */
  lemma {:induction false} WindowStrictlyIncreasing(totalPages: int, current: int)
    requires 1 <= current <= totalPages
    ensures var w := PageWindow(totalPages, current);
      forall i, j :: 0 <= i < j < |w| && w[i].Num? && w[j].Num? ==> w[i].n < w[j].n
  {
    var w := PageWindow(totalPages, current);
    WindowIsOrderedCover(totalPages, current);
    forall i, j | 0 <= i < j < |w| && w[i].Num? && w[j].Num? ensures w[i].n < w[j].n {
      StepIncreases(w, totalPages, i, j);
    }
  }

  /** In a list whose neighbouring entries increase across numbers and ellipses, numbers strictly increase. */
  lemma {:induction false} StepIncreases(w: seq<PageItem>, totalPages: int, i: int, j: int)
    requires 0 <= i < j < |w| && w[i].Num? && w[j].Num?
    requires OrderedCover(w, totalPages)
    ensures w[i].n < w[j].n
    decreases j - i
  {
    if w[i + 1].Num? {
      if i + 1 < j {
        StepIncreases(w, totalPages, i + 1, j);
      }
    } else {
      if i + 2 < j {
        StepIncreases(w, totalPages, i + 2, j);
      }
    }
  }

  // ------------------------------------------------------------------- export

  /** The fields of a rental by property name, as the rental object holds them. */
  function RentalField(r: RentalData, name: string): Option<string> {
    if name == "id" then Some(r.id)
    else if name == "name" then Some(r.name)
    else if name == "equipment" then Some(r.equipment)
    else if name == "date" then Some(r.date)
    else if name == "duration" then Some(r.duration)
    else if name == "location" then Some(r.location)
    else if name == "email" then Some(r.email)
    else if name == "status" then Some(StatusName(r.status))
    else if name == "statusText" then Some(r.statusText)
    else None
  }

  /** The fields of an account by property name, as the account object holds them. */
  function UserField(u: UserData, name: string): Option<string> {
    if name == "id" then Some(u.id)
    else if name == "name" then Some(u.name)
    else if name == "email" then Some(u.email)
    else if name == "date" then Some(u.date)
    else if name == "location" then Some(u.location)
    else if name == "role" then Some(RoleName(u.role))
    else if name == "roleText" then Some(u.roleText)
    else None
  }

  /** `({ id, name, equipment, date, duration, location, email, status }) => ...`. */
  function ProjectRental(r: RentalData): Export.RentalExportData {
    Export.RentalExportData(r.id, r.name, r.equipment, r.date, r.duration, r.location, r.email, StatusName(r.status))
  }

  /** `({ id, name, email, date, location, role }) => ...`. */
  function ProjectUser(u: UserData): Export.UserExportData {
    Export.UserExportData(u.id, u.name, u.email, u.date, u.location, RoleName(u.role))
  }

  function ProjectRentals(rentals: seq<RentalData>): (r: seq<Export.RentalExportData>)
    ensures |r| == |rentals|
  {
    seq(|rentals|, i requires 0 <= i < |rentals| => ProjectRental(rentals[i]))
  }

  function ProjectUsers(users: seq<UserData>): (r: seq<Export.UserExportData>)
    ensures |r| == |users|
  {
    seq(|users|, i requires 0 <= i < |users| => ProjectUser(users[i]))
  }

  /** The cells a rental's CSV row carries, in export order. */
  function RentalCells(r: RentalData): seq<string> {
    [r.id, r.name, r.equipment, r.date, r.duration, r.location, r.email, StatusName(r.status)]
  }

  /** The cells an account's CSV row carries, in export order. */
  function UserCells(u: UserData): seq<string> {
    [u.id, u.name, u.email, u.date, u.location, RoleName(u.role)]
  }

  /** Each export key of a rental's export object holds the rental's own value. */
  lemma RentalExportValues(r: RentalData)
    ensures var o := Export.RentalObj(ProjectRental(r));
      && Export.Get(o, "id") == Some(r.id)
      && Export.Get(o, "name") == Some(r.name)
      && Export.Get(o, "equipment") == Some(r.equipment)
      && Export.Get(o, "date") == Some(r.date)
      && Export.Get(o, "duration") == Some(r.duration)
      && Export.Get(o, "location") == Some(r.location)
      && Export.Get(o, "email") == Some(r.email)
      && Export.Get(o, "status") == Some(StatusName(r.status))
  {
    var o := Export.RentalObj(ProjectRental(r));
    Export.RentalExportKeysDistinct();
    assert forall a :: 0 <= a < |o| ==> o[a].key == Export.RentalExportKeys[a];
    GetAt(o, 0);
    GetAt(o, 1);
    GetAt(o, 2);
    GetAt(o, 3);
    GetAt(o, 4);
    GetAt(o, 5);
    GetAt(o, 6);
    GetAt(o, 7);
  }

  /** Each export key of an account's export object holds the account's own value. */
  lemma UserExportValues(u: UserData)
    ensures var o := Export.UserObj(ProjectUser(u));
      && Export.Get(o, "id") == Some(u.id)
      && Export.Get(o, "name") == Some(u.name)
      && Export.Get(o, "email") == Some(u.email)
      && Export.Get(o, "date") == Some(u.date)
      && Export.Get(o, "location") == Some(u.location)
      && Export.Get(o, "role") == Some(RoleName(u.role))
  {
    var o := Export.UserObj(ProjectUser(u));
    Export.UserExportKeysDistinct();
    assert forall a :: 0 <= a < |o| ==> o[a].key == Export.UserExportKeys[a];
    GetAt(o, 0);
    GetAt(o, 1);
    GetAt(o, 2);
    GetAt(o, 3);
    GetAt(o, 4);
    GetAt(o, 5);
  }

  /** The i-th export key of a rental's export object holds the rental's own value for that property. */
  lemma RentalExportFieldAt(r: RentalData, i: nat)
    requires i < |Export.RentalExportKeys|
    ensures Export.Get(Export.RentalObj(ProjectRental(r)), Export.RentalExportKeys[i]) == Some(RentalCells(r)[i])
    ensures RentalField(r, Export.RentalExportKeys[i]) == Some(RentalCells(r)[i])
  {
    RentalExportValues(r);
    if i == 0 {
      assert Export.RentalExportKeys[0] == "id" && RentalCells(r)[0] == r.id;
    } else if i == 1 {
      assert Export.RentalExportKeys[1] == "name" && RentalCells(r)[1] == r.name;
    } else if i == 2 {
      assert Export.RentalExportKeys[2] == "equipment" && RentalCells(r)[2] == r.equipment;
    } else if i == 3 {
      assert Export.RentalExportKeys[3] == "date" && RentalCells(r)[3] == r.date;
    } else if i == 4 {
      assert Export.RentalExportKeys[4] == "duration" && RentalCells(r)[4] == r.duration;
    } else if i == 5 {
      assert Export.RentalExportKeys[5] == "location" && RentalCells(r)[5] == r.location;
    } else if i == 6 {
      assert Export.RentalExportKeys[6] == "email" && RentalCells(r)[6] == r.email;
    } else {
      assert Export.RentalExportKeys[7] == "status" && RentalCells(r)[7] == StatusName(r.status);
    }
  }

  /** The i-th export key of an account's export object holds the account's own value for that property. */
  lemma UserExportFieldAt(u: UserData, i: nat)
    requires i < |Export.UserExportKeys|
    ensures Export.Get(Export.UserObj(ProjectUser(u)), Export.UserExportKeys[i]) == Some(UserCells(u)[i])
    ensures UserField(u, Export.UserExportKeys[i]) == Some(UserCells(u)[i])
  {
    UserExportValues(u);
    if i == 0 {
      assert Export.UserExportKeys[0] == "id" && UserCells(u)[0] == u.id;
    } else if i == 1 {
      assert Export.UserExportKeys[1] == "name" && UserCells(u)[1] == u.name;
    } else if i == 2 {
      assert Export.UserExportKeys[2] == "email" && UserCells(u)[2] == u.email;
    } else if i == 3 {
      assert Export.UserExportKeys[3] == "date" && UserCells(u)[3] == u.date;
    } else if i == 4 {
      assert Export.UserExportKeys[4] == "location" && UserCells(u)[4] == u.location;
    } else {
      assert Export.UserExportKeys[5] == "role" && UserCells(u)[5] == RoleName(u.role);
    }
  }

  /** An exported rental has exactly the listed properties, each with the rental's own value: `statusText` is dropped. */
  lemma RentalExportFields(r: RentalData, k: string)
    ensures Export.Get(Export.RentalObj(ProjectRental(r)), k)
         == if k in Export.RentalExportKeys then RentalField(r, k) else None
  {
    if k in Export.RentalExportKeys {
      var i :| 0 <= i < |Export.RentalExportKeys| && Export.RentalExportKeys[i] == k;
      RentalExportFieldAt(r, i);
    } else {
      Export.GetMissing(Export.RentalObj(ProjectRental(r)), k);
    }
  }

  /** An exported account has exactly the listed properties, each with the account's own value: `roleText` is dropped. */
  lemma UserExportFields(u: UserData, k: string)
    ensures Export.Get(Export.UserObj(ProjectUser(u)), k)
         == if k in Export.UserExportKeys then UserField(u, k) else None
  {
    if k in Export.UserExportKeys {
      var i :| 0 <= i < |Export.UserExportKeys| && Export.UserExportKeys[i] == k;
      UserExportFieldAt(u, i);
    } else {
      Export.GetMissing(Export.UserObj(ProjectUser(u)), k);
    }
  }

  /** Looking up a key that no earlier entry carries finds its own entry. */
  lemma {:induction false} GetAt(o: Export.Obj, i: nat)
    requires i < |o|
    requires forall a :: 0 <= a < i ==> o[a].key != o[i].key
    ensures Export.Get(o, o[i].key) == o[i].value
  {
    if i > 0 {
      assert o[0].key != o[i].key;
      GetAt(o[1..], i - 1);
    }
  }

  /** A rental's CSV row reads back as its export cells. */
  lemma RentalRowCells(r: RentalData)
    ensures CsvReader.CellTexts(Export.RowValues(Export.RentalObj(ProjectRental(r)), Export.RentalExportKeys)) == RentalCells(r)
  {
    var vs := Export.RowValues(Export.RentalObj(ProjectRental(r)), Export.RentalExportKeys);
    forall j | 0 <= j < |vs| ensures vs[j] == Some(RentalCells(r)[j]) {
      RentalExportFieldAt(r, j);
    }
  }

  /** An account's CSV row reads back as its export cells. */
  lemma UserRowCells(u: UserData)
    ensures CsvReader.CellTexts(Export.RowValues(Export.UserObj(ProjectUser(u)), Export.UserExportKeys)) == UserCells(u)
  {
    var vs := Export.RowValues(Export.UserObj(ProjectUser(u)), Export.UserExportKeys);
    forall j | 0 <= j < |vs| ensures vs[j] == Some(UserCells(u)[j]) {
      UserExportFieldAt(u, j);
    }
  }

  /** Every exported rental's CSV row reads back as its export cells. */
  lemma RentalCsvRows(rentals: seq<RentalData>)
    ensures var data := Export.RentalObjs(ProjectRentals(rentals));
      seq(|data|, i requires 0 <= i < |data| => CsvReader.CellTexts(Export.RowValues(data[i], Export.RentalExportKeys)))
      == seq(|rentals|, i requires 0 <= i < |rentals| => RentalCells(rentals[i]))
  {
    var data := Export.RentalObjs(ProjectRentals(rentals));
    forall i | 0 <= i < |rentals| ensures CsvReader.CellTexts(Export.RowValues(data[i], Export.RentalExportKeys)) == RentalCells(rentals[i]) {
      assert data[i] == Export.RentalObj(ProjectRental(rentals[i]));
      RentalRowCells(rentals[i]);
    }
  }

  /**
   * Reading back the CSV export of a set of rentals gives the export header,
   * then one row per rental, in order, holding exactly its exported fields,
   * whatever commas, quotes or line feeds they contain.
   */
  lemma RentalsCsvReadsBack(rentals: seq<RentalData>)
    requires rentals != []
    ensures CsvReader.ReadCsv(Export.ArrayToCsv(Export.RentalObjs(ProjectRentals(rentals)), None))
         == Some([Export.RentalExportKeys] + seq(|rentals|, i requires 0 <= i < |rentals| => RentalCells(rentals[i])))
  {
    var data := Export.RentalObjs(ProjectRentals(rentals));
    var keys := Export.RentalExportKeys;
    assert Export.CsvKeys(data, None) == keys;
    Export.RentalExportKeysPlain();
    CsvReader.CsvRoundTrip(data, None);
    RentalCsvRows(rentals);
  }

  /** Every exported account's CSV row reads back as its export cells. */
  lemma UserCsvRows(users: seq<UserData>)
    ensures var data := Export.UserObjs(ProjectUsers(users));
      seq(|data|, i requires 0 <= i < |data| => CsvReader.CellTexts(Export.RowValues(data[i], Export.UserExportKeys)))
      == seq(|users|, i requires 0 <= i < |users| => UserCells(users[i]))
  {
    var data := Export.UserObjs(ProjectUsers(users));
    forall i | 0 <= i < |users| ensures CsvReader.CellTexts(Export.RowValues(data[i], Export.UserExportKeys)) == UserCells(users[i]) {
      assert data[i] == Export.UserObj(ProjectUser(users[i]));
      UserRowCells(users[i]);
    }
  }

  /**
   * Reading back the CSV export of a set of accounts gives the export header,
   * then one row per account, in order, holding exactly its exported fields,
   * whatever commas, quotes or line feeds they contain.
   */
  lemma UsersCsvReadsBack(users: seq<UserData>)
    requires users != []
    ensures CsvReader.ReadCsv(Export.ArrayToCsv(Export.UserObjs(ProjectUsers(users)), None))
         == Some([Export.UserExportKeys] + seq(|users|, i requires 0 <= i < |users| => UserCells(users[i])))
  {
    var data := Export.UserObjs(ProjectUsers(users));
    var keys := Export.UserExportKeys;
    assert Export.CsvKeys(data, None) == keys;
    Export.UserExportKeysPlain();
    CsvReader.CsvRoundTrip(data, None);
    UserCsvRows(users);
  }

  // ---------------------------------------------------------------- scenarios

  /** Twelve records and no filter: two pages, the first with records 1 to 10, the second with 11 and 12. */
  lemma TwelveRecordsMakeTwoPages<T>(s: seq<T>)
    requires |s| == 12
    ensures TotalPages(|s|) == 2
    ensures PageSlice(s, 1) == s[..10] && PageSlice(s, 2) == s[10..]
    ensures ShowingRange(|s|, 1) == (1, 10) && ShowingRange(|s|, 2) == (11, 12)
  {
  }

  /** A filter that narrows 25 records (three pages) to 3 while page 3 is shown sends the table back to page 1. */
  lemma NarrowedFilterClampsToFirstPage()
    ensures TotalPages(25) == 3 && TotalPages(3) == 1
    ensures ClampPage(3, TotalPages(3)) == 1
  {
  }

  /** "manila" is a non-blank query. */
  lemma ManilaIsNotBlank()
    ensures Trim("manila") != []
  {
    TrimEmptyIffBlank("manila");
    assert !IsJsWhitespace("manila"[0]);
  }

  /** "manila" and "Manila" both lower-case to "manila". */
  lemma ManilaLowerCase()
    ensures Lower("manila") == "manila" && Lower("Manila") == "manila"
  {
    assert Lower("Manila")[0] == 'm';
  }

  /** The query "manila" keeps every rental located in "Manila", as both sample rentals are. */
  lemma ManilaQueryKeepsManilaRentals(rentals: seq<RentalData>)
    requires forall i :: 0 <= i < |rentals| ==> rentals[i].location == "Manila"
    ensures FilteredRentals(rentals, All, "manila") == rentals
  {
    ManilaIsNotBlank();
    ManilaLowerCase();
    assert Includes("manila", "manila");
    var query := Lower("manila");
    var search := (r: RentalData) => RentalMatches(r, query);
    forall i | 0 <= i < |rentals| ensures search(rentals[i]) {
      assert Includes(Lower(rentals[i].location), query);
    }
    FilterKeepsAll(rentals, search);
  }


  // -------------------------------------------------------------- the table

  /** What the component holds to render: the current page of filtered accounts or rentals. */
  datatype Rows = UserRows(users: seq<UserData>) | RentalRows(rentals: seq<RentalData>) {
    function Length(): nat {
      if UserRows? then |users| else |rentals|
    }

    function Page(page: int): Rows
      requires page >= 1
    {
      if UserRows? then UserRows(PageSlice(users, page)) else RentalRows(PageSlice(rentals, page))
    }
  }

  /** One render's derived values. `pageNumbers` is empty when the pagination control is hidden (one page). */
  datatype View = View(rows: Rows, showingFrom: nat, showingTo: nat, totalItems: nat,
                       totalPages: nat, page: int, pageNumbers: seq<PageItem>)

  class DashboardTable {
    const userRole: ViewerRole
    const rentals: seq<RentalData>
    const users: seq<UserData>
    var currentPage: int

    constructor (userRole: ViewerRole, rentals: seq<RentalData>, users: seq<UserData>)
      ensures this.userRole == userRole && this.rentals == rentals && this.users == users
      ensures currentPage == 1
    {
      this.userRole, this.rentals, this.users := userRole, rentals, users;
      currentPage := 1;
    }

    predicate IsAdmin() {
      userRole == ViewerAdmin
    }

    /** `filteredData` (also what `getFilteredData()` returns). */
    function FilteredData(props: Props): (r: Rows)
      ensures r.UserRows? <==> IsAdmin()
      ensures r.Length() <= if IsAdmin() then |users| else |rentals|
    {
      if IsAdmin() then UserRows(FilteredUsers(users, props.roleFilter, props.searchQuery))
      else RentalRows(FilteredRentals(rentals, props.statusFilter, props.searchQuery))
    }

    /**
     * One render: clamps the current page (writing it back only when it was out
     * of range) before slicing, then derives the page, the "Showing" range and
     * the page list.
     */
    method Render(props: Props) returns (view: View)
      modifies this
      ensures var data := FilteredData(props);
        var t := TotalPages(data.Length());
        && currentPage == ClampPage(old(currentPage), t)
        && (1 <= old(currentPage) <= t ==> currentPage == old(currentPage))
        && view.page == currentPage
        && view.rows == data.Page(currentPage)
        && (view.showingFrom, view.showingTo) == ShowingRange(data.Length(), currentPage)
        && view.totalItems == data.Length() && view.totalPages == t
        && view.pageNumbers == (if t > 1 then PageWindow(t, currentPage) else [])
    {
      var data := FilteredData(props);
      var totalItems := data.Length();
      var totalPages := TotalPages(totalItems);
      var validCurrentPage := ClampPage(currentPage, totalPages);
      if validCurrentPage != currentPage {
        currentPage := validCurrentPage;
      }
      var paginatedData := data.Page(validCurrentPage);
      var (showingFrom, showingTo) := ShowingRange(totalItems, validCurrentPage);
      var pageNumbers := [];
      if totalPages > 1 {
        pageNumbers := GetPageNumbers(totalPages, validCurrentPage);
      }
      view := View(paginatedData, showingFrom, showingTo, totalItems, totalPages, validCurrentPage, pageNumbers);
    }

    /** `handlePageChange(page)`: moves to `page` when it is a page, else changes nothing. */
    method HandlePageChange(props: Props, page: int)
      modifies this
      ensures var t := TotalPages(FilteredData(props).Length());
        currentPage == if 1 <= page <= t then page else old(currentPage)
    {
      var totalPages := TotalPages(FilteredData(props).Length());
      if page >= 1 && page <= totalPages {
        currentPage := page;
      }
    }

    /** `exportData(format = 'csv')`: exports the whole filtered set (not just the page), projected onto the export fields. */
    method ExportData(props: Props, browser: Export.Browser, isoTimestamp: string, json: seq<Export.Obj> -> string, format: string := "csv")
      returns (result: Result<()>)
      modifies browser
      ensures var effect :=
          if IsAdmin() then
            Export.ExportEffect(Export.UserObjs(ProjectUsers(FilteredUsers(users, props.roleFilter, props.searchQuery))),
                                Export.ExportFilename("users", isoTimestamp), format, json)
          else
            Export.ExportEffect(Export.RentalObjs(ProjectRentals(FilteredRentals(rentals, props.statusFilter, props.searchQuery))),
                                Export.ExportFilename("rentals", isoTimestamp), format, json);
        && (effect.Success? ==> result == Success(()) && browser.events == old(browser.events) + effect.value)
        && (effect.Failure? ==> result == Failure(effect.error) && browser.events == old(browser.events))
    {
      if IsAdmin() {
        var userExportData := ProjectUsers(FilteredUsers(users, props.roleFilter, props.searchQuery));
        result := Export.ExportUsers(browser, userExportData, isoTimestamp, json, format);
      } else {
        var rentalExportData := ProjectRentals(FilteredRentals(rentals, props.statusFilter, props.searchQuery));
        result := Export.ExportRentals(browser, rentalExportData, isoTimestamp, json, format);
      }
    }
  }
}
