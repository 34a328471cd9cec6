/** The project list page: the sample projects, the search-and-status filter, the sort
    by the chosen key, the selection and the status filter the page's handlers replace. */
module Projects {
  import opened Wrappers
  import opened Strings
  import opened UploadValidation

  /** A project as the list shows it; `createdDate` is in milliseconds. */
  datatype Project = Project(id: nat, title: string, description: string, duration: string,
                             createdDate: int, status: string, clips: nat, favorite: bool)

  const HourMs: int := 60 * 60 * 1000
  const DayMs: int := 24 * HourMs

  /** The seven sample projects, created a fixed time before `now`. */
  function SampleProjects(now: int): (ps: seq<Project>)
    ensures |ps| == 7
    ensures forall k :: 0 <= k < |ps| ==> ps[k].id == k + 1
  {
    [Project(1, "Marketing Campaign Q4", "Product launch video with multiple clips and translations", "3:45", now - 2 * HourMs, "completed", 8, true),
     Project(2, "Customer Testimonials", "Compilation of customer reviews and feedback", "2:30", now - DayMs, "processing", 5, false),
     Project(3, "Product Demo Tutorial", "Step-by-step guide for new users", "5:12", now - 3 * DayMs, "completed", 12, false),
     Project(4, "Behind the Scenes", "Company culture and team introduction", "4:18", now - 7 * DayMs, "completed", 6, true),
     Project(5, "Webinar Highlights", "Key moments from monthly webinar series", "8:22", now - 14 * DayMs, "completed", 15, false),
     Project(6, "Event Coverage", "Conference highlights and interviews", "6:45", now - 21 * DayMs, "completed", 10, false),
     Project(7, "Social Media Content", "Quick clips for Instagram and TikTok", "1:15", now - 30 * DayMs, "draft", 3, true)]
  }

  // ---------------------------------------------------------------------------
  // Removing every occurrence (`filter(x => x !== v)`)
  // ---------------------------------------------------------------------------

  function Without<T(==)>(s: seq<T>, v: T): (r: seq<T>)
    ensures v !in r && |r| <= |s|
  {
    if |s| == 0 then []
    else if s[|s| - 1] == v then Without(s[..|s| - 1], v)
    else Without(s[..|s| - 1], v) + [s[|s| - 1]]
  }

  /** Exactly the other elements remain. */
  lemma {:induction false} WithoutMembers<T>(s: seq<T>, v: T, x: T)
    ensures x in Without(s, v) <==> x in s && x != v
  {
    if |s| > 0 {
      WithoutMembers(s[..|s| - 1], v, x);
      assert s == s[..|s| - 1] + [s[|s| - 1]];
    }
  }

  /** Removing a value that is absent changes nothing. */
  lemma {:induction false} WithoutAbsent<T>(s: seq<T>, v: T)
    requires v !in s
    ensures Without(s, v) == s
  {
    if |s| > 0 {
      assert s == s[..|s| - 1] + [s[|s| - 1]];
      WithoutAbsent(s[..|s| - 1], v);
    }
  }

  /** Removing after appending the same value forgets the append. */
  lemma WithoutAppended<T>(s: seq<T>, v: T)
    ensures Without(s + [v], v) == Without(s, v)
  {
    assert (s + [v])[..|s + [v]| - 1] == s;
  }

  // ---------------------------------------------------------------------------
  // The filter
  // ---------------------------------------------------------------------------

  /** The title or the description contains the term, ignoring letter case. */
  predicate MatchesSearch(p: Project, term: string) {
    Contains(Lower(p.title), Lower(term)) || Contains(Lower(p.description), Lower(term))
  }

  /** No status is ticked, or the project's status is. */
  predicate MatchesStatus(p: Project, statusFilter: seq<string>) {
    |statusFilter| == 0 || p.status in statusFilter
  }

  predicate Keeps(p: Project, term: string, statusFilter: seq<string>) {
    MatchesSearch(p, term) && MatchesStatus(p, statusFilter)
  }

  /** The projects the filter keeps, in their original order. */
  function FilterProjects(ps: seq<Project>, term: string, statusFilter: seq<string>): (r: seq<Project>)
    ensures |r| <= |ps|
    ensures forall k :: 0 <= k < |r| ==> Keeps(r[k], term, statusFilter)
  {
    if |ps| == 0 then []
    else
      var rest := FilterProjects(ps[..|ps| - 1], term, statusFilter);
      if Keeps(ps[|ps| - 1], term, statusFilter) then rest + [ps[|ps| - 1]] else rest
  }

  /** A project is listed exactly when it is one of the projects and the filter keeps it. */
  lemma {:induction false} FilterMembers(ps: seq<Project>, term: string, statusFilter: seq<string>, p: Project)
    ensures p in FilterProjects(ps, term, statusFilter) <==> p in ps && Keeps(p, term, statusFilter)
  {
    if |ps| > 0 {
      FilterMembers(ps[..|ps| - 1], term, statusFilter, p);
      assert ps == ps[..|ps| - 1] + [ps[|ps| - 1]];
    }
  }

  /** An empty search with no status ticked keeps every project, in order. */
  lemma {:induction false} EmptyFilterKeepsAll(ps: seq<Project>)
    ensures FilterProjects(ps, "", []) == ps
  {
    if |ps| > 0 {
      EmptyFilterKeepsAll(ps[..|ps| - 1]);
      ContainsEmpty(Lower(ps[|ps| - 1].title));
      assert ps == ps[..|ps| - 1] + [ps[|ps| - 1]];
    }
  }

  /** Lower-casing touches nothing that is not an ASCII letter: the search is
      case-insensitive. */
  lemma SearchIgnoresCase(p: Project, term: string)
    ensures MatchesSearch(p, Upper(term)) <==> MatchesSearch(p, Lower(term))
  {
    assert Lower(Upper(term)) == Lower(Lower(term)) by {
      forall k | 0 <= k < |term| ensures Lower(Upper(term))[k] == Lower(Lower(term))[k] {
      }
    }
  }

  // ---------------------------------------------------------------------------
  // Durations (`split(':').reduce((acc, t) => 60 * acc + +t, 0)`)
  // ---------------------------------------------------------------------------

  /** `+t` for a part of a duration: a run of digits between optional whitespace, 0 for
      a blank part, and NaN (None) for anything else. */
  function PartValue(t: string): (r: Option<nat>)
    ensures AllDigits(t) ==> r == Some(if |t| == 0 then 0 else ParseDigits(t))
    ensures IsBlank(t) ==> r == Some(0)
  {
    if AllDigits(t) then Some(if |t| == 0 then 0 else ParseDigits(t))
    else
      var u := Trim(t);
      if |u| == 0 then Some(0)
      else if AllDigits(u) then Some(ParseDigits(u))
      else None
  }

  /** `+t` of every part. */
  function PartValues(parts: seq<string>): (vs: seq<Option<nat>>)
    ensures |vs| == |parts| && forall k :: 0 <= k < |parts| ==> vs[k] == PartValue(parts[k])
  {
    seq(|parts|, k requires 0 <= k < |parts| => PartValue(parts[k]))
  }

  /** The fold over the part values, from the left: NaN once any part is NaN. */
  function FoldValues(vs: seq<Option<nat>>): Option<nat> {
    if |vs| == 0 then Some(0)
    else
      var acc := FoldValues(vs[..|vs| - 1]);
      var v := vs[|vs| - 1];
      if acc.Some? && v.Some? then Some(60 * acc.value + v.value) else None
  }

  /** Two numeric parts fold to 60·x + y. */
  lemma FoldTwo(x: nat, y: nat)
    ensures FoldValues([Some(x), Some(y)]) == Some(60 * x + y)
  {
    assert [Some(x)][..0] == [];
    assert FoldValues([Some(x)]) == Some(x);
    assert [Some(x), Some(y)][..1] == [Some(x)];
  }

  /** A numeral holds no ':'. */
  lemma DigitsHoldNoColon(m: string)
    requires AllDigits(m)
    ensures ':' !in m
  {
  }

  /** The seconds of a "h:m:s", "m:ss" or "s" duration. */
  function DurationSeconds(d: string): Option<nat> {
    FoldValues(PartValues(SplitOn(d, ':')))
  }

  /** Minutes and seconds written in digits read as 60·m + s. */
  lemma MinutesSeconds(m: string, s: string)
    requires AllDigits(m) && AllDigits(s)
    ensures DurationSeconds(m + ":" + s) == Some(60 * (if |m| == 0 then 0 else ParseDigits(m)) + (if |s| == 0 then 0 else ParseDigits(s)))
  {
    DigitsHoldNoColon(m);
    DigitsHoldNoColon(s);
    SplitAtColon(m, s);
    FoldDigitPair(m, s);
  }

  lemma FoldDigitPair(m: string, s: string)
    requires AllDigits(m) && AllDigits(s)
    ensures FoldValues(PartValues([m, s])) == Some(60 * (if |m| == 0 then 0 else ParseDigits(m)) + (if |s| == 0 then 0 else ParseDigits(s)))
  {
    var x := if |m| == 0 then 0 else ParseDigits(m);
    var y := if |s| == 0 then 0 else ParseDigits(s);
    assert PartValues([m, s]) == [Some(x), Some(y)];
    FoldTwo(x, y);
  }

  lemma SplitAtColon(m: string, s: string)
    requires ':' !in m && ':' !in s
    ensures SplitOn(m + ":" + s, ':') == [m, s]
  {
    assert m + ":" + s == m + [':'] + s;
    SplitOnAfter(m, ':', s);
    SplitOnWithout(s, ':');
  }

  /** The page's "m:ss" label reads back as the duration it rendered. */
  lemma FormattedDurationReadsBack(d: Seconds)
    ensures DurationSeconds(FormatDuration(d)) == Some(d.Floor)
  {
    var parts := SplitOn(FormatDuration(d), ':');
    assert parts == [parts[0], parts[1]];
    FoldDigitPair(parts[0], parts[1]);
  }

  /** "3:45" is 225 seconds. */
  lemma DurationExample()
    ensures DurationSeconds("3:45") == Some(225)
  {
    UploadValidation.DurationExample();
    FormattedDurationReadsBack(225.7);
  }

  // ---------------------------------------------------------------------------
  // The sort
  // ---------------------------------------------------------------------------

  /** `localeCompare` on titles is read as comparing their positions in a caller-given
      collation order. */
  type Collation = string -> int

  /** The comparator the list is sorted with: negative when `a` goes first. A duration
      that reads as NaN counts as 0. */
  function Compare(sortBy: string, collate: Collation, a: Project, b: Project): int {
    if sortBy == "recent" then b.createdDate - a.createdDate
    else if sortBy == "oldest" then a.createdDate - b.createdDate
    else if sortBy == "name" then collate(a.title) - collate(b.title)
    else if sortBy == "duration" then
      DurationSeconds(b.duration).GetOr(0) - DurationSeconds(a.duration).GetOr(0)
    else 0
  }

  /** The value the comparator orders by: newest first, oldest first, collation order,
      longest first, or all equal. */
  function SortKey(sortBy: string, collate: Collation, p: Project): int {
    if sortBy == "recent" then -p.createdDate
    else if sortBy == "oldest" then p.createdDate
    else if sortBy == "name" then collate(p.title)
    else if sortBy == "duration" then -(DurationSeconds(p.duration).GetOr(0) as int)
    else 0
  }

  /** The comparator is the difference of the keys, so it is a total preorder and the
      order of keys is the order it sorts into. */
  lemma CompareIsKeyDifference(sortBy: string, collate: Collation, a: Project, b: Project)
    ensures Compare(sortBy, collate, a, b) == SortKey(sortBy, collate, a) - SortKey(sortBy, collate, b)
  {
  }

  /** The key the list is ordered by, as a function value. */
  function KeyOf(sortBy: string, collate: Collation): Project -> int {
    p => SortKey(sortBy, collate, p)
  }

  predicate SortedByKey(s: seq<Project>, key: Project -> int) {
    forall i, j :: 0 <= i < j < |s| ==> key(s[i]) <= key(s[j])
  }

  predicate SortedBy(s: seq<Project>, sortBy: string, collate: Collation) {
    SortedByKey(s, KeyOf(sortBy, collate))
  }

  /** `filtered.sort(...)`: sorts `a` in place by `key`. Like the stable
      `Array.prototype.sort`, it leaves an array that is already in order as it is. */
  method SortProjects(a: array<Project>, key: Project -> int)
    modifies a
    ensures SortedByKey(a[..], key)
    ensures multiset(a[..]) == old(multiset(a[..]))
    ensures SortedByKey(old(a[..]), key) ==> a[..] == old(a[..])
  {
    if a.Length == 0 {
      return;
    }
    var i := 1;
    while i < a.Length
      invariant 1 <= i <= a.Length
      invariant SortedByKey(a[..i], key)
      invariant multiset(a[..]) == old(multiset(a[..]))
      invariant SortedByKey(old(a[..]), key) ==> a[..] == old(a[..])
    {
      if SortedByKey(a[..], key) {
        SortedPrefix(a[..], i + 1, key);
      }
      InsertAt(a, i, key);
      i := i + 1;
    }
    assert a[..] == a[..i];
  }

  /** Moves `a[i]` left past every larger element of the sorted prefix `a[..i]`. */
  method InsertAt(a: array<Project>, i: nat, key: Project -> int)
    requires 1 <= i < a.Length
    requires SortedByKey(a[..i], key)
    modifies a
    ensures SortedByKey(a[..i + 1], key)
    ensures multiset(a[..]) == old(multiset(a[..]))
    ensures SortedByKey(old(a[..i + 1]), key) ==> a[..] == old(a[..])
  {
    ghost var inOrder := SortedByKey(a[..i + 1], key);
    if inOrder {
      assert key(a[..i + 1][i - 1]) <= key(a[..i + 1][i]);
    }
    assert inOrder ==> key(old(a[i - 1])) <= key(old(a[i]));
    var j := i;
    StartAround(a[..], i, key);
    while j > 0 && key(a[j - 1]) > key(a[j])
      invariant 0 <= j <= i
      invariant SortedAround(a[..], i + 1, j, key)
      invariant multiset(a[..]) == old(multiset(a[..]))
      invariant inOrder ==> j == i && a[..] == old(a[..])
    {
      SwapDown(a[..], i + 1, j, key);
      Swap(a, j - 1, j);
      j := j - 1;
    }
    SettledSorted(a[..], i + 1, j, key);
  }

  /** Every prefix of a sorted sequence is sorted. */
  lemma SortedPrefix(s: seq<Project>, n: nat, key: Project -> int)
    requires n <= |s| && SortedByKey(s, key)
    ensures SortedByKey(s[..n], key)
  {
    forall p, q | 0 <= p < q < n ensures key(s[..n][p]) <= key(s[..n][q]) {
      assert s[..n][p] == s[p] && s[..n][q] == s[q];
    }
  }

  /** The prefix `s[..n]` is sorted except at `j`, whose element is below every element
      after it: the state of the insertion while it moves the new element left. */
  predicate SortedAround(s: seq<Project>, n: nat, j: nat, key: Project -> int)
    requires j < n <= |s|
  {
    && (forall p, q :: 0 <= p < q < n && p != j && q != j ==> key(s[p]) <= key(s[q]))
    && (forall q :: j < q < n ==> key(s[j]) < key(s[q]))
  }

  /** A sorted prefix followed by one new element is sorted around that element. */
  lemma StartAround(s: seq<Project>, i: nat, key: Project -> int)
    requires 1 <= i < |s| && SortedByKey(s[..i], key)
    ensures SortedAround(s, i + 1, i, key)
  {
    forall p, q | 0 <= p < q < i + 1 && p != i && q != i ensures key(s[p]) <= key(s[q]) {
      assert s[p] == s[..i][p] && s[q] == s[..i][q];
    }
  }

  /** Swapping the moving element with a larger left neighbour moves the gap left. */
  lemma SwapDown(s: seq<Project>, n: nat, j: nat, key: Project -> int)
    requires 0 < j < n <= |s| && SortedAround(s, n, j, key) && key(s[j - 1]) > key(s[j])
    ensures SortedAround(s[j - 1 := s[j]][j := s[j - 1]], n, j - 1, key)
  {
    var t := s[j - 1 := s[j]][j := s[j - 1]];
    forall p, q | 0 <= p < q < n && p != j - 1 && q != j - 1 ensures key(t[p]) <= key(t[q]) {
      if q == j {
        assert t[q] == s[j - 1] && t[p] == s[p];
        if p < j - 1 {
          assert key(s[p]) <= key(s[j - 1]);
        }
      } else if p == j {
        assert t[p] == s[j - 1] && t[q] == s[q];
        assert key(s[j - 1]) <= key(s[q]);
      } else {
        assert t[p] == s[p] && t[q] == s[q];
      }
    }
    forall q | j - 1 < q < n ensures key(t[j - 1]) < key(t[q]) {
      if q == j {
        assert t[q] == s[j - 1];
      } else {
        assert t[q] == s[q];
      }
    }
  }

  /** Once the moving element's left neighbour is not larger, the prefix is sorted. */
  lemma SettledSorted(s: seq<Project>, n: nat, j: nat, key: Project -> int)
    requires j < n <= |s| && SortedAround(s, n, j, key)
    requires j == 0 || key(s[j - 1]) <= key(s[j])
    ensures SortedByKey(s[..n], key)
  {
    forall p, q | 0 <= p < q < n ensures key(s[..n][p]) <= key(s[..n][q]) {
      assert s[..n][p] == s[p] && s[..n][q] == s[q];
      if q == j && p < j - 1 {
        assert key(s[p]) <= key(s[j - 1]);
      } else if p == j {
        assert key(s[j]) < key(s[q]);
      }
    }
  }

  /** Exchanges two elements. */
  method Swap(a: array<Project>, p: nat, q: nat)
    requires p < q < a.Length
    modifies a
    ensures a[..] == old(a[..])[p := old(a[q])][q := old(a[p])]
    ensures multiset(a[..]) == old(multiset(a[..]))
  {
    a[p], a[q] := a[q], a[p];
  }

  /** `sortedAndFilteredProjects`: the filtered projects, reordered by the chosen key;
      filtered projects already in that order, and so every list under a key the
      comparator does not know, are shown as filtered. */
  method SortedAndFiltered(ps: seq<Project>, term: string, statusFilter: seq<string>, sortBy: string, collate: Collation)
    returns (r: seq<Project>)
    ensures multiset(r) == multiset(FilterProjects(ps, term, statusFilter))
    ensures SortedBy(r, sortBy, collate)
    ensures SortedBy(FilterProjects(ps, term, statusFilter), sortBy, collate) ==> r == FilterProjects(ps, term, statusFilter)
    ensures !KnownSortKey(sortBy) ==> r == FilterProjects(ps, term, statusFilter)
  {
    var filtered := FilterProjects(ps, term, statusFilter);
    var a := new Project[|filtered|](k requires 0 <= k < |filtered| => filtered[k]);
    assert a[..] == filtered;
    SortProjects(a, KeyOf(sortBy, collate));
    r := a[..];
    if !KnownSortKey(sortBy) {
      UnknownKeyKeepsOrder(filtered, sortBy, collate);
    }
  }

  /** The four keys the comparator distinguishes. */
  predicate KnownSortKey(sortBy: string) {
    sortBy == "recent" || sortBy == "oldest" || sortBy == "name" || sortBy == "duration"
  }

  /** Under a key the comparator does not know every list is in order. */
  lemma UnknownKeyKeepsOrder(s: seq<Project>, sortBy: string, collate: Collation)
    requires !KnownSortKey(sortBy)
    ensures SortedBy(s, sortBy, collate)
  {
  }

  /** The sample projects are listed newest first. */
  lemma SamplesNewestFirst(now: int, collate: Collation)
    ensures SortedBy(SampleProjects(now), "recent", collate)
  {
  }

  // ---------------------------------------------------------------------------
  // Selection and status filter
  // ---------------------------------------------------------------------------

  /** `toggleProjectSelection`: a selected id is removed (every copy of it), another one
      is appended. */
  function ToggleSelection(selected: seq<nat>, id: nat): (r: seq<nat>)
    ensures id in selected ==> id !in r
    ensures id !in selected ==> r == selected + [id]
  {
    if id in selected then Without(selected, id) else selected + [id]
  }

  /** Toggling an id twice gives back the same set of selected ids; when the id was not
      selected, even the same sequence. */
  lemma ToggleTwice(selected: seq<nat>, id: nat)
    ensures (set x | x in ToggleSelection(ToggleSelection(selected, id), id)) == (set x | x in selected)
    ensures id !in selected ==> ToggleSelection(ToggleSelection(selected, id), id) == selected
  {
    var once := ToggleSelection(selected, id);
    var twice := ToggleSelection(once, id);
    if id in selected {
      assert twice == once + [id];
      forall x ensures x in twice <==> x in selected {
        WithoutMembers(selected, id, x);
      }
    } else {
      WithoutAppended(selected, id);
      WithoutAbsent(selected, id);
    }
  }

  function VisibleIds(visible: seq<Project>): (ids: seq<nat>)
    ensures |ids| == |visible| && forall k :: 0 <= k < |ids| ==> ids[k] == visible[k].id
  {
    seq(|visible|, k requires 0 <= k < |visible| => visible[k].id)
  }

  /** `toggleAllProjects`: a selection as long as the visible list is cleared, any other
      is replaced by the visible ids in display order. Only the lengths are compared. */
  function ToggleAll(selected: seq<nat>, visible: seq<Project>): (r: seq<nat>)
    ensures |selected| == |visible| ==> r == []
    ensures |selected| != |visible| ==> |r| == |visible| && forall k :: 0 <= k < |r| ==> r[k] == visible[k].id
  {
    if |selected| == |visible| then [] else VisibleIds(visible)
  }

  /** The toast of a bulk action on `n` selected projects; none for an unknown action. */
  function BulkNotice(action: string, n: nat): (r: Option<Notice>)
    ensures r.Some? <==> action in {"delete", "export", "share"}
    ensures r.Some? ==> !r.value.destructive
  {
    if action == "delete" then Some(Notice("Projects deleted", NatToString(n) + " projects have been moved to trash.", false))
    else if action == "export" then Some(Notice("Export started", "Exporting " + NatToString(n) + " projects...", false))
    else if action == "share" then Some(Notice("Share links generated", "Share links created for " + NatToString(n) + " projects.", false))
    else None
  }

  const NoSelectionNotice := Notice("No projects selected", "Please select projects to perform bulk actions.", true)

  /** The status checkbox: ticking appends the status, unticking removes every copy. */
  function SetStatusChecked(statusFilter: seq<string>, status: string, checked: bool): (r: seq<string>)
    ensures checked ==> r == statusFilter + [status]
    ensures !checked ==> status !in r && forall s :: s in r <==> s in statusFilter && s != status
  {
    if checked then statusFilter + [status]
    else
      forall s ensures s in Without(statusFilter, status) <==> s in statusFilter && s != status {
        WithoutMembers(statusFilter, status, s);
      }
      Without(statusFilter, status)
  }

  /** Ticking and then unticking a status that was not ticked restores the filter. */
  lemma TickUntickRestores(statusFilter: seq<string>, status: string)
    requires status !in statusFilter
    ensures SetStatusChecked(SetStatusChecked(statusFilter, status, true), status, false) == statusFilter
  {
    WithoutAppended(statusFilter, status);
    WithoutAbsent(statusFilter, status);
  }

  /** A ticked status narrows the list to its projects; with no status ticked the status
      plays no part. */
  lemma StatusFilterNarrows(ps: seq<Project>, term: string, statusFilter: seq<string>, status: string, p: Project)
    requires p in FilterProjects(ps, term, SetStatusChecked([], status, true))
    ensures p in ps && p.status == status
  {
    FilterMembers(ps, term, [status], p);
  }

  /** The page's state fields and handlers. */
  datatype ListState = ListState(searchTerm: string, sortBy: string, statusFilter: seq<string>, selected: seq<nat>)

  class ProjectList {
    var searchTerm: string
    var sortBy: string
    var statusFilter: seq<string>
    var selected: seq<nat>

    function State(): ListState
      reads this
    {
      ListState(searchTerm, sortBy, statusFilter, selected)
    }

    constructor()
      ensures State() == ListState("", "recent", [], [])
    {
      searchTerm, sortBy, statusFilter, selected := "", "recent", [], [];
    }

    method SetSearchTerm(term: string)
      modifies this
      ensures State() == old(State()).(searchTerm := term)
    {
      searchTerm := term;
    }

    method SetSortBy(key: string)
      modifies this
      ensures State() == old(State()).(sortBy := key)
    {
      sortBy := key;
    }

    /** The list the page shows for the current state. */
    method Visible(ps: seq<Project>, collate: Collation) returns (r: seq<Project>)
      ensures multiset(r) == multiset(FilterProjects(ps, searchTerm, statusFilter))
      ensures SortedBy(r, sortBy, collate)
      ensures SortedBy(FilterProjects(ps, searchTerm, statusFilter), sortBy, collate) ==> r == FilterProjects(ps, searchTerm, statusFilter)
      ensures !KnownSortKey(sortBy) ==> r == FilterProjects(ps, searchTerm, statusFilter)
    {
      r := SortedAndFiltered(ps, searchTerm, statusFilter, sortBy, collate);
    }

    method ToggleProject(id: nat)
      modifies this
      ensures State() == old(State()).(selected := ToggleSelection(old(selected), id))
    {
      selected := ToggleSelection(selected, id);
    }

    /** "Select all" against the list as shown, which is returned as `visible`. */
    method ToggleAllProjects(ps: seq<Project>, collate: Collation) returns (visible: seq<Project>)
      modifies this
      ensures multiset(visible) == multiset(FilterProjects(ps, old(searchTerm), old(statusFilter)))
      ensures SortedBy(visible, old(sortBy), collate)
      ensures !KnownSortKey(old(sortBy)) ==> visible == FilterProjects(ps, old(searchTerm), old(statusFilter))
      ensures State() == old(State()).(selected := ToggleAll(old(selected), visible))
    {
      visible := Visible(ps, collate);
      selected := ToggleAll(selected, visible);
    }

    /** `handleBulkAction`: with nothing selected only a warning; otherwise the action's
        toast, if it has one, and the selection is cleared whatever the action was. */
    method BulkAction(action: string) returns (notice: Option<Notice>)
      modifies this
      ensures |old(selected)| == 0 ==> notice == Some(NoSelectionNotice) && State() == old(State())
      ensures |old(selected)| > 0 ==>
        notice == BulkNotice(action, |old(selected)|) && State() == old(State()).(selected := [])
    {
      if |selected| == 0 {
        return Some(NoSelectionNotice);
      }
      notice := BulkNotice(action, |selected|);
      selected := [];
    }

    method CheckStatus(status: string, checked: bool)
      modifies this
      ensures State() == old(State()).(statusFilter := SetStatusChecked(old(statusFilter), status, checked))
    {
      statusFilter := SetStatusChecked(statusFilter, status, checked);
    }

    /** "Clear All" in the filter dialog. */
    method ClearStatusFilter()
      modifies this
      ensures State() == old(State()).(statusFilter := [])
    {
      statusFilter := [];
    }
  }
}
