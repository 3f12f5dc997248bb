/** The timetable listing: the fetched timetables, the case-insensitive search
    over three fields, and the loading / error / results views. */
module TimeTablePage {
  import opened Wrappers
  import opened Records
  import Text

  const FetchFailed: string := "Failed to fetch time table data. Please try again later."

  /** The filter's test: the lower-cased term occurs in the lower-cased
      title, course set name or venue set name. */
  predicate Matches(item: Timetable, term: string) {
    var t := Text.Lower(term);
    || Text.Contains(Text.Lower(item.title), t)
    || Text.Contains(Text.Lower(item.courseSetName), t)
    || Text.Contains(Text.Lower(item.venueSetName), t)
  }

  /** `filteredTimetables`: a timetable is kept exactly when it matches, with
      every copy of it. */
  function Filter(items: seq<Timetable>, term: string): (r: seq<Timetable>)
    ensures |r| <= |items|
    ensures forall x :: x in r <==> x in items && Matches(x, term)
    ensures forall x :: multiset(r)[x] == if Matches(x, term) then multiset(items)[x] else 0
  {
    if items == [] then []
    else
      assert items == [items[0]] + items[1..];
      (if Matches(items[0], term) then [items[0]] else []) + Filter(items[1..], term)
  }

  /** `r` can be obtained from `s` by deleting elements: same relative order. */
  predicate IsSubsequence<T(==)>(r: seq<T>, s: seq<T>) {
    if r == [] then true
    else if s == [] then false
    else if r[0] == s[0] then IsSubsequence(r[1..], s[1..])
    else IsSubsequence(r, s[1..])
  }

  /** The search only removes timetables; it never reorders them. */
  lemma {:induction false} FilterIsSubsequence(items: seq<Timetable>, term: string)
    ensures IsSubsequence(Filter(items, term), items)
  {
    if items != [] {
      FilterIsSubsequence(items[1..], term);
      var rest := Filter(items[1..], term);
      if Matches(items[0], term) {
        assert Filter(items, term) == [items[0]] + rest;
        assert (Filter(items, term))[1..] == rest;
      } else {
        assert Filter(items, term) == rest;
        SkipHeadKeepsSubsequence(rest, items);
      }
    }
  }

  /** A subsequence of the tail of `s` is a subsequence of `s`. */
  lemma {:induction false} SkipHeadKeepsSubsequence<T>(r: seq<T>, s: seq<T>)
    requires s != [] && IsSubsequence(r, s[1..])
    ensures IsSubsequence(r, s)
  {
    if r != [] && r[0] == s[0] {
      SubsequenceDropHead(r, s[1..]);
    }
  }

  /** Dropping the first element of a subsequence keeps it one. */
  lemma {:induction false} SubsequenceDropHead<T>(r: seq<T>, s: seq<T>)
    requires r != [] && IsSubsequence(r, s)
    ensures IsSubsequence(r[1..], s)
  {
    if s != [] && r[0] != s[0] {
      SubsequenceDropHead(r, s[1..]);
      SkipHeadKeepsSubsequence(r[1..], s);
    } else if s != [] && r[1..] != [] {
      SkipHeadKeepsSubsequence(r[1..], s);
    }
  }

  /** An empty search term keeps every timetable. */
  lemma {:induction false} EmptyTermKeepsAll(items: seq<Timetable>)
    ensures Filter(items, "") == items
  {
    if items != [] {
      Text.ContainsEmpty(Text.Lower(items[0].title));
      EmptyTermKeepsAll(items[1..]);
    }
  }

  /** The letter case of the term does not matter: terms that lower-case
      alike select the same timetables, and a term selects what its
      lower-cased form selects. */
  lemma {:induction false} FilterIgnoresTermCase(items: seq<Timetable>, t1: string, t2: string)
    requires Text.Lower(t1) == Text.Lower(t2)
    ensures Filter(items, t1) == Filter(items, t2)
  {
    if items != [] {
      FilterIgnoresTermCase(items[1..], t1, t2);
    }
  }

  lemma FilterOfLoweredTerm(items: seq<Timetable>, term: string)
    ensures Filter(items, Text.Lower(term)) == Filter(items, term)
  {
    Text.LowerIdempotent(term);
    FilterIgnoresTermCase(items, Text.Lower(term), term);
  }

  /** What the page renders. */
  datatype View =
    | LoadingView
    | ErrorView(message: string)
    | ResultsView(items: seq<Timetable>, noResults: bool)

  /** The render: the loading screen first, then the error screen, then the
      cards with "No results found" exactly when nothing matched. */
  function Render(isLoading: bool, error: Option<string>, details: seq<Timetable>, term: string): (v: View)
    ensures isLoading <==> v == LoadingView
    ensures !isLoading && error.Some? && error.value != "" ==> v == ErrorView(error.value)
    ensures !isLoading && (error.None? || error.value == "") ==> v.ResultsView?
    ensures v.ResultsView? ==> v.items == Filter(details, term)
    ensures v.ResultsView? ==> (v.noResults <==> forall x | x in details :: !Matches(x, term))
  {
    if isLoading then LoadingView
    else if error.Some? && error.value != "" then ErrorView(error.value)
    else
      var filtered := Filter(details, term);
      assert |filtered| > 0 ==> filtered[0] in filtered;
      ResultsView(filtered, |filtered| == 0)
  }

  class Page {
    var timeTableDetails: seq<Timetable>
    var isLoading: bool
    var error: Option<string>
    var searchTerm: string

    constructor ()
      ensures timeTableDetails == [] && isLoading && error.None? && searchTerm == ""
    {
      timeTableDetails := [];
      isLoading := true;
      error := None;
      searchTerm := "";
    }

    /** `fetchTimeTable` after its request settles: the list on success, the
      fixed message on failure, and `isLoading` lowered either way. */
    method FetchSettled(response: Option<seq<Timetable>>)
      modifies this
      ensures !isLoading && searchTerm == old(searchTerm)
      ensures response.Some? ==> timeTableDetails == response.value && error == old(error)
      ensures response.None? ==> timeTableDetails == old(timeTableDetails) && error == Some(FetchFailed)
    {
      if response.Some? {
        timeTableDetails := response.value;
      } else {
        error := Some(FetchFailed);
      }
      isLoading := false;
    }

    method SetSearchTerm(t: string)
      modifies this`searchTerm
      ensures searchTerm == t
    {
      searchTerm := t;
    }

    function View(): View
      reads this
    {
      Render(isLoading, error, timeTableDetails, searchTerm)
    }
  }
}
