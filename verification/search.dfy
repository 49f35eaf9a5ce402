/** The displayed view of the note collection: all notes while no search is
    active, otherwise the notes whose title or content contains the query,
    case-insensitively, in collection order. */
module NoteSearch {
  import opened Notes
  import opened Text

  /** The predicate passed to `allNotes.filter`. */
  predicate Matches(note: Note, lowerQuery: string)
  {
    Contains(Lower(note.title), lowerQuery) || Contains(Lower(note.content), lowerQuery)
  }

  /** `notes.filter(note => Matches(note, lowerQuery))`. */
  function SelectMatching(notes: seq<Note>, lowerQuery: string): seq<Note>
  {
    if notes == [] then []
    else (if Matches(notes[0], lowerQuery) then [notes[0]] else []) + SelectMatching(notes[1..], lowerQuery)
  }

  /** The value the filter effect stores in `filteredNotes`. */
  function FilteredView(allNotes: seq<Note>, isSearch: bool, searchQuery: string): seq<Note>
  {
    if !isSearch || Trim(searchQuery) == "" then allNotes
    else SelectMatching(allNotes, Lower(searchQuery))
  }

  /** `sub` is `s` with some elements dropped, the rest kept in order. */
  predicate IsSubsequence<T(==)>(sub: seq<T>, s: seq<T>)
    decreases |s|
  {
    sub == [] || (s != [] && ((sub[0] == s[0] && IsSubsequence(sub[1..], s[1..])) || IsSubsequence(sub, s[1..])))
  }

  lemma {:induction false} SubsequenceReflexive<T>(s: seq<T>)
    ensures IsSubsequence(s, s)
    decreases |s|
  {
    if s != [] {
      SubsequenceReflexive(s[1..]);
    }
  }

  /** Each note is kept as many times as it occurs when it matches, and
      dropped entirely when it does not. */
  lemma {:induction false} SelectMatchingCount(notes: seq<Note>, lowerQuery: string, n: Note)
    ensures multiset(SelectMatching(notes, lowerQuery))[n]
         == if Matches(n, lowerQuery) then multiset(notes)[n] else 0
    decreases |notes|
  {
    if notes != [] {
      SelectMatchingCount(notes[1..], lowerQuery, n);
      assert notes == [notes[0]] + notes[1..];
      assert multiset(notes) == multiset([notes[0]]) + multiset(notes[1..]);
    }
  }

  /** Soundness and completeness of the filter. */
  lemma {:induction false} SelectMatchingMember(notes: seq<Note>, lowerQuery: string, n: Note)
    ensures n in SelectMatching(notes, lowerQuery) <==> n in notes && Matches(n, lowerQuery)
  {
    SelectMatchingCount(notes, lowerQuery, n);
  }

  /** The filter keeps collection order. */
  lemma {:induction false} SelectMatchingSubsequence(notes: seq<Note>, lowerQuery: string)
    ensures IsSubsequence(SelectMatching(notes, lowerQuery), notes)
    decreases |notes|
  {
    if notes != [] {
      SelectMatchingSubsequence(notes[1..], lowerQuery);
      var rest := SelectMatching(notes[1..], lowerQuery);
      if Matches(notes[0], lowerQuery) {
        assert SelectMatching(notes, lowerQuery) == [notes[0]] + rest;
        assert ([notes[0]] + rest)[1..] == rest;
      } else {
        assert SelectMatching(notes, lowerQuery) == rest;
      }
    }
  }

  /** Filtering a concatenation filters each part, in order. */
  lemma {:induction false} SelectMatchingAppend(a: seq<Note>, b: seq<Note>, lowerQuery: string)
    ensures SelectMatching(a + b, lowerQuery) == SelectMatching(a, lowerQuery) + SelectMatching(b, lowerQuery)
    decreases |a|
  {
    if a == [] {
      assert a + b == b;
    } else {
      assert (a + b)[1..] == a[1..] + b;
      SelectMatchingAppend(a[1..], b, lowerQuery);
    }
  }

  /** The displayed view: the whole collection, same order, while no search
      is active or the query is blank; otherwise exactly the notes whose
      lowered title or content contains the lowered query. Always a
      subsequence of the collection. */
  lemma FilteredViewSpec(allNotes: seq<Note>, isSearch: bool, searchQuery: string)
    ensures !isSearch || Blank(searchQuery) ==> FilteredView(allNotes, isSearch, searchQuery) == allNotes
    ensures isSearch && !Blank(searchQuery) ==>
      forall n :: n in FilteredView(allNotes, isSearch, searchQuery) <==>
        n in allNotes && (Contains(Lower(n.title), Lower(searchQuery)) || Contains(Lower(n.content), Lower(searchQuery)))
    ensures IsSubsequence(FilteredView(allNotes, isSearch, searchQuery), allNotes)
  {
    TrimEmptyIffBlank(searchQuery);
    if !isSearch || Blank(searchQuery) {
      SubsequenceReflexive(allNotes);
    } else {
      forall n {
        SelectMatchingMember(allNotes, Lower(searchQuery), n);
      }
      SelectMatchingSubsequence(allNotes, Lower(searchQuery));
    }
  }

  /** Lowering the query before storing it (as `onSearchNote` does) leaves
      the displayed view unchanged. */
  lemma SearchViewIgnoresLowering(allNotes: seq<Note>, query: string)
    ensures FilteredView(allNotes, true, Lower(query)) == FilteredView(allNotes, true, query)
  {
    LowerKeepsBlank(query);
    LowerIdempotent(query);
  }

  /** A worked example: searching "milk" over a groceries note and a work
      note shows only the groceries note; with no search both are shown. */
  lemma GroceriesScenario(groceries: Note, work: Note)
    requires groceries == Note("1", "Groceries", "milk, eggs", [], false, "")
    requires work == Note("2", "Work", "finish report", [], false, "")
    ensures FilteredView([groceries, work], true, "milk") == [groceries]
    ensures FilteredView([groceries, work], false, "") == [groceries, work]
  {
    MilkQuery();
    GroceriesMatch(groceries);
    WorkMisses(work);
    assert SelectMatching([work], "milk") == [] by {
      assert [work][1..] == [];
    }
    assert [groceries, work][1..] == [work];
    assert SelectMatching([groceries, work], "milk") == [groceries] + SelectMatching([work], "milk");
  }

  lemma GroceriesMatch(groceries: Note)
    requires groceries.content == "milk, eggs"
    ensures Matches(groceries, "milk")
  {
  }

  lemma WorkMisses(work: Note)
    requires work.title == "Work" && work.content == "finish report"
    ensures !Matches(work, "milk")
  {
    NotContainsMilk(Lower(work.title));
    NotContainsMilk(Lower(work.content));
  }

  lemma MilkQuery()
    ensures Lower("milk") == "milk"
    ensures Trim("milk") != ""
  {
  }

  lemma NotContainsMilk(s: string)
    requires forall i :: 0 <= i < |s| ==> s[i] != 'm'
    ensures !Contains(s, "milk")
  {
    ContainsIffOccurs(s, "milk");
    forall i ensures !OccursAt(s, "milk", i) {
      if 0 <= i && i + 4 <= |s| {
        assert s[i..i + 4][0] == s[i];
      }
    }
  }
}
