/** The saved-sessions page (client/src/pages/sessions.tsx): the list the
    server returns, narrowed by a title search and three drop-down filters,
    and the text shown when nothing is left. */
module SessionsPage {
  import opened Text
  import opened Schema

  /** The page's filter state: the search box and the type, focus and
      duration selections, each "all" when not in use. */
  datatype Filters = Filters(search: string, sessionType: string, focus: string, duration: string)

  const All := "all"

  /** The filters as the page starts: no search text and every selection "all". */
  const NoFilters := Filters("", All, All, All)

  /** The four tests a session must pass to stay in the list. */
  predicate MatchesSearch(f: Filters, row: SessionRow) {
    Contains(ToLowerAscii(row.content.title), ToLowerAscii(f.search))
  }

  predicate MatchesType(f: Filters, row: SessionRow) {
    f.sessionType == All || row.content.sessionType == f.sessionType
  }

  predicate MatchesFocus(f: Filters, row: SessionRow) {
    f.focus == All || row.content.sessionFocus == f.focus
  }

  /** The duration test compares the decimal text of the minutes. */
  predicate MatchesDuration(f: Filters, row: SessionRow) {
    f.duration == All || IntToString(row.content.durationMinutes) == f.duration
  }

  predicate Keeps(f: Filters, row: SessionRow) {
    MatchesSearch(f, row) && MatchesType(f, row) && MatchesFocus(f, row) && MatchesDuration(f, row)
  }

  /** `filteredSessions`: the sessions that pass every test, in list order. */
  function FilterSessions(rows: seq<SessionRow>, f: Filters): (r: seq<SessionRow>)
    ensures |r| <= |rows|
    ensures forall x | x in r :: x in rows && Keeps(f, x)
    ensures forall i | 0 <= i < |rows| && Keeps(f, rows[i]) :: rows[i] in r
  {
    if rows == [] then []
    else (if Keeps(f, rows[0]) then [rows[0]] else []) + FilterSessions(rows[1..], f)
  }

  /** Filtering keeps the order: the result of a joined list is the joined
      results. */
  lemma {:induction false} FilterOfConcat(a: seq<SessionRow>, b: seq<SessionRow>, f: Filters)
    ensures FilterSessions(a + b, f) == FilterSessions(a, f) + FilterSessions(b, f)
    decreases |a|
  {
    if a == [] {
      assert a + b == b;
    } else {
      assert (a + b)[1..] == a[1..] + b;
      FilterOfConcat(a[1..], b, f);
    }
  }

  /** Filtering twice with the same filters changes nothing more. */
  lemma {:induction false} FilterIsIdempotent(rows: seq<SessionRow>, f: Filters)
    ensures FilterSessions(FilterSessions(rows, f), f) == FilterSessions(rows, f)
    decreases |rows|
  {
    if rows != [] {
      FilterIsIdempotent(rows[1..], f);
      var head := if Keeps(f, rows[0]) then [rows[0]] else [];
      FilterOfConcat(head, FilterSessions(rows[1..], f), f);
      if Keeps(f, rows[0]) {
        assert [rows[0]][1..] == [];
      }
    }
  }

  /** With an empty search and every selection "all", the list is shown as
      it came. */
  lemma {:induction false} NoFiltersKeepsEverything(rows: seq<SessionRow>)
    ensures FilterSessions(rows, NoFilters) == rows
    decreases |rows|
  {
    if rows != [] {
      assert ToLowerAscii("") == "";
      assert Keeps(NoFilters, rows[0]);
      NoFiltersKeepsEverything(rows[1..]);
    }
  }

  /** A selection of "all" puts no condition on its field. */
  lemma AllDisablesCriterion(f: Filters, row: SessionRow)
    ensures f.sessionType == All ==> MatchesType(f, row)
    ensures f.focus == All ==> MatchesFocus(f, row)
    ensures f.duration == All ==> MatchesDuration(f, row)
    ensures f.sessionType != All ==> (MatchesType(f, row) <==> row.content.sessionType == f.sessionType)
  {
  }

  /** Choosing a duration keeps exactly the sessions of that many minutes. */
  lemma DurationFilterMatchesMinutes(f: Filters, row: SessionRow, minutes: int)
    requires f.duration == IntToString(minutes)
    ensures MatchesDuration(f, row) <==> row.content.durationMinutes == minutes
  {
    var text := IntToString(minutes);
    assert text[0] != 'a' by {
      if minutes < 0 { assert text[0] == '-'; }
    }
    assert text != All by { assert All[0] == 'a'; }
    if IntToString(row.content.durationMinutes) == f.duration {
      IntToStringInjective(row.content.durationMinutes, minutes);
    }
  }

  /** The search ignores ASCII case on both sides. */
  lemma SearchIgnoresCase(f: Filters, row: SessionRow)
    ensures MatchesSearch(f.(search := ToLowerAscii(f.search)), row) == MatchesSearch(f, row)
  {
    assert ToLowerAscii(ToLowerAscii(f.search)) == ToLowerAscii(f.search);
  }

  /** The line under "No Sessions Found", shown when the filtered list is empty. */
  function EmptyStateText(rows: seq<SessionRow>, f: Filters): (text: string)
    requires FilterSessions(rows, f) == []
    ensures rows == [] <==> text == "You haven't generated any training sessions yet."
    ensures rows != [] <==> text == "No sessions match your current filters."
  {
    if rows == [] then "You haven't generated any training sessions yet."
    else "No sessions match your current filters."
  }

  /** With no filters set, the "no match" text is never reached: an empty
      list always means the user has no sessions. */
  lemma NoMatchTextNeedsFilters(rows: seq<SessionRow>)
    requires FilterSessions(rows, NoFilters) == []
    ensures EmptyStateText(rows, NoFilters) == "You haven't generated any training sessions yet."
  {
    NoFiltersKeepsEverything(rows);
  }
}
