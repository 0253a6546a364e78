/**
 * The gallery's state container (vsskin-app/src/contexts/ThemeContext.tsx):
 * the reducer behind `useReducer`, and the filter and sort that turn the
 * stored themes into the list the gallery shows.
 */
module ThemeContext {
  import opened Wrappers
  import opened Builtins
  import opened Lists
  import opened Types
  import opened SampleData

  // ------------------------------------------------------------------- state

  /** The reducer's state; `error` and `selectedTheme` are `null` when `None`. */
  datatype ThemeState = ThemeState(
    themes: seq<Theme>,
    brands: seq<Brand>,
    loading: bool,
    error: Option<string>,
    selectedTheme: Option<Theme>,
    filters: ThemeFilters,
    sortOptions: ThemeSortOptions)

  const InitialFilters := ThemeFilters([], [], [], "")

  const InitialSortOptions := ThemeSortOptions(ByDownloads, Desc)

  /** `initialState`: the sample catalogue, nothing loading, most downloaded first. */
  const InitialState := ThemeState(SampleThemes, SampleBrands, false, None, None, InitialFilters, InitialSortOptions)

  /**
   * The actions the provider dispatches.  `Unrecognised` stands for an action
   * object whose `type` is none of the eight the reducer handles.
   */
  datatype ThemeAction =
    | SetLoading(isLoading: bool)
    | SetError(message: Option<string>)
    | SetThemes(newThemes: seq<Theme>)
    | SetBrands(newBrands: seq<Brand>)
    | SetSelectedTheme(selection: Option<Theme>)
    | SetFilters(newFilters: ThemeFilters)
    | SetSortOptions(newSortOptions: ThemeSortOptions)
    | RefreshThemes
    | Unrecognised(kind: string)

  /**
   * `themeReducer`: each `SET_*` action replaces its own field and no other,
   * `REFRESH_THEMES` puts the sample themes and brands back, and any other
   * action leaves the state as it was.
   */
  function ThemeReducer(state: ThemeState, action: ThemeAction): (next: ThemeState)
    ensures next.loading == if action.SetLoading? then action.isLoading else state.loading
    ensures next.error == if action.SetError? then action.message else state.error
    ensures next.themes == if action.SetThemes? then action.newThemes
                           else if action.RefreshThemes? then SampleThemes
                           else state.themes
    ensures next.brands == if action.SetBrands? then action.newBrands
                           else if action.RefreshThemes? then SampleBrands
                           else state.brands
    ensures next.selectedTheme == if action.SetSelectedTheme? then action.selection else state.selectedTheme
    ensures next.filters == if action.SetFilters? then action.newFilters else state.filters
    ensures next.sortOptions == if action.SetSortOptions? then action.newSortOptions else state.sortOptions
    ensures action.Unrecognised? ==> next == state
  {
    match action
    case SetLoading(b) => state.(loading := b)
    case SetError(e) => state.(error := e)
    case SetThemes(ts) => state.(themes := ts)
    case SetBrands(bs) => state.(brands := bs)
    case SetSelectedTheme(t) => state.(selectedTheme := t)
    case SetFilters(f) => state.(filters := f)
    case SetSortOptions(o) => state.(sortOptions := o)
    case RefreshThemes => state.(themes := SampleThemes, brands := SampleBrands)
    case Unrecognised(_) => state
  }

  /** The state after dispatching `actions` one after the other. */
  function Dispatch(state: ThemeState, actions: seq<ThemeAction>): ThemeState
    decreases |actions|
  {
    if actions == [] then state
    else Dispatch(ThemeReducer(state, actions[0]), actions[1..])
  }

  /** The four dispatches of a successful `refreshThemes`. */
  const RefreshSequence: seq<ThemeAction> := [SetLoading(true), RefreshThemes, SetError(None), SetLoading(false)]

  /**
   * After a successful `refreshThemes` the catalogue is the sample data again,
   * nothing is loading and there is no error; the selection, filters and sort
   * options survive.
   */
  lemma RefreshRestoresCatalogue(state: ThemeState)
    ensures Dispatch(state, RefreshSequence)
      == state.(themes := SampleThemes, brands := SampleBrands, loading := false, error := None)
  {
    var s1 := ThemeReducer(state, SetLoading(true));
    var s2 := ThemeReducer(s1, RefreshThemes);
    var s3 := ThemeReducer(s2, SetError(None));
    var s4 := ThemeReducer(s3, SetLoading(false));
    assert RefreshSequence[1..] == [RefreshThemes, SetError(None), SetLoading(false)];
    assert RefreshSequence[1..][1..] == [SetError(None), SetLoading(false)];
    assert RefreshSequence[1..][1..][1..] == [SetLoading(false)];
    assert Dispatch(state, RefreshSequence) == s4;
  }

  // ------------------------------------------------------------------ filter

  /**
   * The text a search query is looked for in: name, display name,
   * description, brand display name and tags, joined with spaces and lowered.
   */
  function SearchText(t: Theme): string {
    ToLower(Join([t.name, t.displayName, t.description, t.brand.displayName] + t.metadata.tags, " "))
  }

  /** The test `filterThemes` applies to one theme; an empty list or query does not restrict. */
  predicate Passes(filters: ThemeFilters, t: Theme) {
    && (|filters.brands| == 0 || t.brand.id in filters.brands)
    && (|filters.types| == 0 || t.themeType in filters.types)
    && (|filters.tags| == 0 || exists i | 0 <= i < |filters.tags| :: filters.tags[i] in t.metadata.tags)
    && (filters.searchQuery == "" || Includes(SearchText(t), ToLower(filters.searchQuery)))
  }

  function PassesFilters(filters: ThemeFilters): Theme -> bool {
    (t: Theme) => Passes(filters, t)
  }

  /**
   * `filterThemes`: the themes passing every active filter, in their order.
   * A kept theme has one of the listed brands, one of the listed types and a
   * listed tag (each whenever that list is non-empty), and contains the query.
   */
  function FilterThemes(themes: seq<Theme>, filters: ThemeFilters): (r: seq<Theme>)
    ensures IsSubsequence(r, themes)
    ensures forall t | t in themes :: t in r <==> Passes(filters, t)
    ensures forall t :: multiset(r)[t] == if Passes(filters, t) then multiset(themes)[t] else 0
    ensures forall t | t in r ::
      && t in themes
      && (|filters.brands| > 0 ==> t.brand.id in filters.brands)
      && (|filters.types| > 0 ==> t.themeType in filters.types)
      && (|filters.tags| > 0 ==> exists tag :: tag in filters.tags && tag in t.metadata.tags)
      && (filters.searchQuery != "" ==> Includes(SearchText(t), ToLower(filters.searchQuery)))
  {
    FilterIsSubsequence(PassesFilters(filters), themes);
    FilterCounts(PassesFilters(filters), themes);
    Filter(PassesFilters(filters), themes)
  }

  /** With no brand, type or tag selected and no query, every theme is shown. */
  lemma EmptyFiltersKeepAll(themes: seq<Theme>)
    ensures FilterThemes(themes, InitialFilters) == themes
  {
    FilterAll(PassesFilters(InitialFilters), themes);
  }

  /**
   * The search runs over the joined text, so a query may span two fields:
   * a theme's name and display name, with the joining space, find it.
   */
  lemma SearchSpansFields(themes: seq<Theme>, t: Theme)
    requires t in themes
    ensures t in FilterThemes(themes, ThemeFilters([], [], [], t.name + " " + t.displayName))
  {
    var rest := [t.description, t.brand.displayName] + t.metadata.tags;
    var parts := [t.name, t.displayName, t.description, t.brand.displayName] + t.metadata.tags;
    assert parts == [t.name] + ([t.displayName] + rest);
    assert parts[1..] == [t.displayName] + rest;
    assert parts[1..][1..] == rest;
    var tail := Join(rest, " ");
    var joined := Join(parts, " ");
    assert Join(parts[1..], " ") == t.displayName + " " + tail;
    assert joined == t.name + " " + Join(parts[1..], " ");
    var q := t.name + " " + t.displayName;
    assert joined == q + (" " + tail);
    ToLowerConcat(q, " " + tail);
    IncludesMiddle("", ToLower(q), ToLower(" " + tail));
    assert "" + ToLower(q) + ToLower(" " + tail) == SearchText(t);
  }

  // -------------------------------------------------------------------- sort

  /** A sort key: lowered display name or date text, or a number. */
  datatype SortKey = TextKey(text: string) | NumberKey(value: real)

  /**
   * The key the comparator reads.  Dates are compared as their ISO text,
   * which orders `yyyy-mm-dd` dates as `new Date` would.
   */
  function KeyOf(field: SortField, t: Theme): (k: SortKey)
    ensures k.TextKey? <==> field == ByName || field == ByLastUpdated
  {
    match field
    case ByName => TextKey(ToLower(t.displayName))
    case ByRating => NumberKey(t.metadata.rating)
    case ByDownloads => NumberKey(t.metadata.downloads as real)
    case ByLastUpdated => TextKey(t.metadata.lastUpdated)
  }

  /** `aValue < bValue` for two keys of the same kind. */
  predicate KeyLess(a: SortKey, b: SortKey) {
    match (a, b)
    case (TextKey(x), TextKey(y)) => StrLess(x, y)
    case (NumberKey(x), NumberKey(y)) => x < y
    case _ => false
  }

  /** The comparator handed to `Array.prototype.sort`. */
  function Compare(options: ThemeSortOptions, a: Theme, b: Theme): (c: int)
    ensures c in {-1, 0, 1}
  {
    var x, y := KeyOf(options.field, a), KeyOf(options.field, b);
    if KeyLess(x, y) then (if options.direction == Asc then -1 else 1)
    else if KeyLess(y, x) then (if options.direction == Asc then 1 else -1)
    else 0
  }

  /** `a` belongs strictly before `b`: a smaller key when ascending, a larger one when descending. */
  predicate Precedes(options: ThemeSortOptions, a: Theme, b: Theme) {
    var x, y := KeyOf(options.field, a), KeyOf(options.field, b);
    if options.direction == Asc then KeyLess(x, y) else KeyLess(y, x)
  }

  /** The comparator is negative exactly when `a` belongs before `b`, positive exactly when after. */
  lemma CompareMeansPrecedes(options: ThemeSortOptions, a: Theme, b: Theme)
    ensures Compare(options, a, b) < 0 <==> Precedes(options, a, b)
    ensures Compare(options, a, b) > 0 <==> Precedes(options, b, a)
  {
    var x, y := KeyOf(options.field, a), KeyOf(options.field, b);
    if x.TextKey? {
      if StrLess(x.text, y.text) && StrLess(y.text, x.text) {
        StrLessTransitive(x.text, y.text, x.text);
        StrLessIrreflexive(x.text);
      }
    }
  }

  lemma PrecedesAsymmetric(options: ThemeSortOptions, a: Theme, b: Theme)
    requires Precedes(options, a, b)
    ensures !Precedes(options, b, a)
  {
    var x, y := KeyOf(options.field, a), KeyOf(options.field, b);
    if x.TextKey? && StrLess(x.text, y.text) && StrLess(y.text, x.text) {
      StrLessTransitive(x.text, y.text, x.text);
      StrLessIrreflexive(x.text);
    }
  }

  /** "Not before" is transitive: the keys are totally ordered. */
  lemma NotPrecedesTransitive(options: ThemeSortOptions, a: Theme, b: Theme, c: Theme)
    requires !Precedes(options, a, b) && !Precedes(options, b, c)
    ensures !Precedes(options, a, c)
  {
    var ka, kb, kc := KeyOf(options.field, a), KeyOf(options.field, b), KeyOf(options.field, c);
    if ka.TextKey? {
      var x, y, z := ka.text, kb.text, kc.text;
      if x != y { StrLessTotal(x, y); }
      if y != z { StrLessTotal(y, z); }
      if options.direction == Asc {
        if StrLess(x, z) {
          if x == y {
          } else if y == z {
          } else {
            StrLessTransitive(z, y, x);
            StrLessTransitive(x, z, x);
            StrLessIrreflexive(x);
          }
        }
      } else {
        if StrLess(z, x) {
          if x == y {
          } else if y == z {
          } else {
            StrLessTransitive(x, y, z);
            StrLessTransitive(z, x, z);
            StrLessIrreflexive(z);
          }
        }
      }
    }
  }

  /** No theme of `r` belongs before an earlier one. */
  ghost predicate Sorted(options: ThemeSortOptions, r: seq<Theme>) {
    forall i, j | 0 <= i < j < |r| :: !Precedes(options, r[j], r[i])
  }

  /** Places `x` before the first theme of `r` that does not belong before it. */
  function Insert(options: ThemeSortOptions, x: Theme, r: seq<Theme>): (q: seq<Theme>)
    ensures multiset(q) == multiset(r) + multiset{x}
    ensures |q| == |r| + 1
  {
    if r == [] || !Precedes(options, r[0], x) then [x] + r
    else
      assert r == [r[0]] + r[1..];
      [r[0]] + Insert(options, x, r[1..])
  }

  /** A theme that belongs before none of a sorted list may head it. */
  lemma ConsSorted(options: ThemeSortOptions, h: Theme, r: seq<Theme>)
    requires Sorted(options, r)
    requires forall k | 0 <= k < |r| :: !Precedes(options, r[k], h)
    ensures Sorted(options, [h] + r)
  {
    var q := [h] + r;
    forall i, j | 0 <= i < j < |q|
      ensures !Precedes(options, q[j], q[i])
    {
      if i == 0 {
        assert q[j] == r[j - 1];
      } else {
        assert q[i] == r[i - 1] && q[j] == r[j - 1];
      }
    }
  }

  lemma {:induction false} InsertSorted(options: ThemeSortOptions, x: Theme, r: seq<Theme>)
    requires Sorted(options, r)
    ensures Sorted(options, Insert(options, x, r))
  {
    if r == [] {
    } else if !Precedes(options, r[0], x) {
      forall k | 0 <= k < |r|
        ensures !Precedes(options, r[k], x)
      {
        if k > 0 {
          NotPrecedesTransitive(options, r[k], r[0], x);
        }
      }
      ConsSorted(options, x, r);
    } else {
      var rest := Insert(options, x, r[1..]);
      InsertSorted(options, x, r[1..]);
      forall k | 0 <= k < |rest|
        ensures !Precedes(options, rest[k], r[0])
      {
        var e := rest[k];
        assert e in multiset(rest);
        if e == x {
          PrecedesAsymmetric(options, r[0], x);
        } else {
          assert e in r[1..];
          var m :| 0 <= m < |r[1..]| && r[1..][m] == e;
          assert r[m + 1] == e;
        }
      }
      ConsSorted(options, r[0], rest);
    }
  }

  /**
   * `sortThemes`: a fresh list holding the same themes, ordered by the chosen
   * key, ascending or descending.  Each theme is inserted before every theme
   * with an equal key, so equal keys keep their input order as the built-in
   * stable sort keeps them.
   */
  function SortThemes(themes: seq<Theme>, options: ThemeSortOptions): (r: seq<Theme>)
    ensures multiset(r) == multiset(themes)
    ensures |r| == |themes|
    ensures Sorted(options, r)
  {
    if themes == [] then []
    else
      var rest := SortThemes(themes[1..], options);
      InsertSorted(options, themes[0], rest);
      assert themes == [themes[0]] + themes[1..];
      Insert(options, themes[0], rest)
  }

  /** The list the gallery shows: the stored themes filtered, then sorted. */
  function VisibleThemes(state: ThemeState): (r: seq<Theme>)
    ensures forall t | t in r :: t in state.themes && Passes(state.filters, t)
    ensures forall t | t in state.themes && Passes(state.filters, t) :: t in r
    ensures multiset(r) == multiset(FilterThemes(state.themes, state.filters))
    ensures Sorted(state.sortOptions, r)
  {
    var shown := FilterThemes(state.themes, state.filters);
    var r := SortThemes(shown, state.sortOptions);
    assert forall t | t in r :: t in multiset(shown);
    assert forall t | t in shown :: t in multiset(r);
    r
  }

  /**
   * With no filter set and the start-up sort, the gallery shows every stored
   * theme, most downloaded first.
   */
  lemma UnfilteredByDownloads(state: ThemeState)
    requires state.filters == InitialFilters && state.sortOptions == InitialSortOptions
    ensures multiset(VisibleThemes(state)) == multiset(state.themes)
    ensures forall i, j | 0 <= i < j < |VisibleThemes(state)| ::
      VisibleThemes(state)[i].metadata.downloads >= VisibleThemes(state)[j].metadata.downloads
  {
    EmptyFiltersKeepAll(state.themes);
    var r := VisibleThemes(state);
    forall i, j | 0 <= i < j < |r|
      ensures r[i].metadata.downloads >= r[j].metadata.downloads
    {
      assert !Precedes(InitialSortOptions, r[j], r[i]);
    }
  }

  /** At start-up the gallery shows the whole sample catalogue, most downloaded first. */
  lemma InitialViewIsCatalogue()
    ensures multiset(VisibleThemes(InitialState)) == multiset(SampleThemes)
    ensures forall i, j | 0 <= i < j < |VisibleThemes(InitialState)| ::
      VisibleThemes(InitialState)[i].metadata.downloads >= VisibleThemes(InitialState)[j].metadata.downloads
  {
    UnfilteredByDownloads(InitialState);
  }
}
