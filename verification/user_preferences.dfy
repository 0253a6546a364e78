/**
 * The user's saved preferences (vsskin-app/src/hooks/useUserPreferences.ts):
 * favourite theme ids, the ten most recently viewed theme ids, and display
 * settings.  The hook's state is the `Preferences` object below; every
 * operation replaces parts of it through `SavePreferences`, as the hook does
 * through `savePreferences`.  Persisting to local storage is not modelled.
 */
module UserPreferences {
  import opened Wrappers
  import opened Lists

  /** The `theme` setting: light, dark or following the system. */
  datatype Appearance = LightMode | DarkMode | Auto

  datatype Settings = Settings(defaultSort: string, showPreview: bool, enableAI: bool, theme: Appearance)

  /** The settings of `defaultPreferences`. */
  const DefaultSettings := Settings("downloads-desc", true, true, Auto)

  /** How many recently viewed themes are remembered. */
  const MaxRecent := 10

  /** `Partial<UserPreferences>`: `None` is a key the object does not carry. */
  datatype PreferencesPatch = PreferencesPatch(
    favorites: Option<seq<string>>,
    recentThemes: Option<seq<string>>,
    settings: Option<Settings>)

  /** `Partial<UserPreferences['settings']>`. */
  datatype SettingsPatch = SettingsPatch(
    defaultSort: Option<string>,
    showPreview: Option<bool>,
    enableAI: Option<bool>,
    theme: Option<Appearance>)

  predicate NoDuplicates(ids: seq<string>) {
    forall i, j | 0 <= i < j < |ids| :: ids[i] != ids[j]
  }

  // ------------------------------------------------------ pure list updates

  /** The favourites after `addFavorite(id)`: `id` is pushed onto the end unless already there. */
  function WithFavorite(favorites: seq<string>, id: string): (r: seq<string>)
    ensures id in r
    ensures id in favorites ==> r == favorites
    ensures |r| == if id in favorites then |favorites| else |favorites| + 1
    ensures id !in favorites ==> r[..|favorites|] == favorites && r[|favorites|..] == [id]
  {
    if id in favorites then favorites else favorites + [id]
  }

  /** Adding a favourite never creates a duplicate. */
  lemma WithFavoriteNoDuplicates(favorites: seq<string>, id: string)
    requires NoDuplicates(favorites)
    ensures NoDuplicates(WithFavorite(favorites, id))
  {
    var r := WithFavorite(favorites, id);
    if id !in favorites {
      forall i, j | 0 <= i < j < |r|
        ensures r[i] != r[j]
      {
        if j == |favorites| {
          assert r[i] == favorites[i];
        }
      }
    }
  }

  function IsNot(id: string): string -> bool {
    (x: string) => x != id
  }

  /** `ids.filter(x => x !== id)`: every other id, in order. */
  function Without(ids: seq<string>, id: string): (r: seq<string>)
    ensures id !in r
    ensures forall x :: x in r <==> x in ids && x != id
    ensures forall x :: multiset(r)[x] == if x == id then 0 else multiset(ids)[x]
    ensures IsSubsequence(r, ids)
  {
    FilterIsSubsequence(IsNot(id), ids);
    FilterCounts(IsNot(id), ids);
    Filter(IsNot(id), ids)
  }

  /** A list without `id` is left as it is. */
  lemma WithoutAbsent(ids: seq<string>, id: string)
    requires id !in ids
    ensures Without(ids, id) == ids
  {
    FilterAll(IsNot(id), ids);
  }

  lemma {:induction false} WithoutNoDuplicates(ids: seq<string>, id: string)
    requires NoDuplicates(ids)
    ensures NoDuplicates(Without(ids, id))
  {
    if ids != [] {
      WithoutNoDuplicates(ids[1..], id);
      var rest := Without(ids[1..], id);
      if ids[0] != id {
        assert Without(ids, id) == [ids[0]] + rest;
        assert ids[0] !in ids[1..];
        assert ids[0] !in rest;
      } else {
        assert Without(ids, id) == rest;
      }
    }
  }

  /**
   * The recent list after `addRecentTheme(id)`: `id` moved (or added) to the
   * front, the other ids after it in their old order, at most ten in all.
   */
  function MoveToFront(recent: seq<string>, id: string): (r: seq<string>)
    ensures 1 <= |r| <= MaxRecent && r[0] == id
    ensures id !in r[1..]
    ensures multiset(r)[id] == 1
    ensures |r| == if |Without(recent, id)| < MaxRecent then |Without(recent, id)| + 1 else MaxRecent
    ensures r[1..] == Without(recent, id)[..|r| - 1]
  {
    var rest := Without(recent, id);
    var front := [id] + rest;
    var r := if |front| > MaxRecent then front[..MaxRecent] else front;
    assert r[1..] == rest[..|r| - 1];
    assert r == [id] + r[1..];
    assert multiset(r)[id] == multiset([id])[id] + multiset(r[1..])[id];
    r
  }

  /** Viewing the most recent theme again changes nothing. */
  lemma MoveToFrontIdempotent(recent: seq<string>, id: string)
    ensures MoveToFront(MoveToFront(recent, id), id) == MoveToFront(recent, id)
  {
    var r := MoveToFront(recent, id);
    var tail := r[1..];
    assert r == [id] + tail;
    assert Without(r, id) == Without(tail, id);
    WithoutAbsent(tail, id);
    assert tail[..|tail|] == tail;
  }

  /** A recent list without duplicates keeps none. */
  lemma MoveToFrontNoDuplicates(recent: seq<string>, id: string)
    requires NoDuplicates(recent)
    ensures NoDuplicates(MoveToFront(recent, id))
  {
    var r := MoveToFront(recent, id);
    var rest := Without(recent, id);
    WithoutNoDuplicates(recent, id);
    forall i, j | 0 <= i < j < |r|
      ensures r[i] != r[j]
    {
      if i == 0 {
        assert r[j] in r[1..];
      } else {
        assert r[i] == rest[i - 1] && r[j] == rest[j - 1];
      }
    }
  }

  /** `{ ...settings, ...patch }`: each supplied field replaces its own, the others stay. */
  function MergeSettings(settings: Settings, patch: SettingsPatch): (r: Settings)
    ensures patch.defaultSort.Some? ==> r.defaultSort == patch.defaultSort.value
    ensures patch.defaultSort.None? ==> r.defaultSort == settings.defaultSort
    ensures patch.showPreview.Some? ==> r.showPreview == patch.showPreview.value
    ensures patch.showPreview.None? ==> r.showPreview == settings.showPreview
    ensures patch.enableAI.Some? ==> r.enableAI == patch.enableAI.value
    ensures patch.enableAI.None? ==> r.enableAI == settings.enableAI
    ensures patch.theme.Some? ==> r.theme == patch.theme.value
    ensures patch.theme.None? ==> r.theme == settings.theme
  {
    Settings(
      if patch.defaultSort.Some? then patch.defaultSort.value else settings.defaultSort,
      if patch.showPreview.Some? then patch.showPreview.value else settings.showPreview,
      if patch.enableAI.Some? then patch.enableAI.value else settings.enableAI,
      if patch.theme.Some? then patch.theme.value else settings.theme)
  }

  /** The later of two patches wins field by field. */
  function ThenSettings(first: SettingsPatch, second: SettingsPatch): SettingsPatch {
    SettingsPatch(
      if second.defaultSort.Some? then second.defaultSort else first.defaultSort,
      if second.showPreview.Some? then second.showPreview else first.showPreview,
      if second.enableAI.Some? then second.enableAI else first.enableAI,
      if second.theme.Some? then second.theme else first.theme)
  }

  /** Two settings updates in a row are one update with the later values winning. */
  lemma MergeSettingsTwice(settings: Settings, first: SettingsPatch, second: SettingsPatch)
    ensures MergeSettings(MergeSettings(settings, first), second)
         == MergeSettings(settings, ThenSettings(first, second))
  {
  }

  // ----------------------------------------------------------- the hook state

  class Preferences {
    var favorites: seq<string>
    var recentThemes: seq<string>
    var settings: Settings

    /** The hook starts from `defaultPreferences`. */
    constructor()
      ensures favorites == [] && recentThemes == [] && settings == DefaultSettings
    {
      favorites := [];
      recentThemes := [];
      settings := DefaultSettings;
    }

    /** `savePreferences`: the supplied fields replace the stored ones, the rest stay. */
    method SavePreferences(patch: PreferencesPatch)
      modifies this
      ensures favorites == if patch.favorites.Some? then patch.favorites.value else old(favorites)
      ensures recentThemes == if patch.recentThemes.Some? then patch.recentThemes.value else old(recentThemes)
      ensures settings == if patch.settings.Some? then patch.settings.value else old(settings)
    {
      if patch.favorites.Some? {
        favorites := patch.favorites.value;
      }
      if patch.recentThemes.Some? {
        recentThemes := patch.recentThemes.value;
      }
      if patch.settings.Some? {
        settings := patch.settings.value;
      }
    }

    /** `isFavorite`. */
    predicate IsFavorite(id: string)
      reads this
    {
      id in favorites
    }

    /** `addFavorite`: saves the favourites with `id` pushed on, unless it is already there. */
    method AddFavorite(id: string)
      modifies this
      ensures favorites == WithFavorite(old(favorites), id)
      ensures recentThemes == old(recentThemes) && settings == old(settings)
      ensures IsFavorite(id)
    {
      var updatedFavorites := favorites;
      if id !in updatedFavorites {
        updatedFavorites := updatedFavorites + [id];
        SavePreferences(PreferencesPatch(Some(updatedFavorites), None, None));
      }
    }

    /** `removeFavorite`: saves the favourites with every copy of `id` taken out. */
    method RemoveFavorite(id: string)
      modifies this
      ensures favorites == Without(old(favorites), id)
      ensures recentThemes == old(recentThemes) && settings == old(settings)
      ensures !IsFavorite(id)
    {
      var updatedFavorites := Without(favorites, id);
      SavePreferences(PreferencesPatch(Some(updatedFavorites), None, None));
    }

    /** `addRecentTheme`: filter out `id`, put it in front, keep the first ten, save. */
    method AddRecentTheme(id: string)
      modifies this
      ensures recentThemes == MoveToFront(old(recentThemes), id)
      ensures favorites == old(favorites) && settings == old(settings)
    {
      var updatedRecent := recentThemes;
      updatedRecent := Without(updatedRecent, id);
      updatedRecent := [id] + updatedRecent;
      if |updatedRecent| > MaxRecent {
        updatedRecent := updatedRecent[..MaxRecent];
      }
      SavePreferences(PreferencesPatch(None, Some(updatedRecent), None));
    }

    /** `updateSettings`: merges the supplied settings into the stored ones and saves them. */
    method UpdateSettings(patch: SettingsPatch)
      modifies this
      ensures settings == MergeSettings(old(settings), patch)
      ensures favorites == old(favorites) && recentThemes == old(recentThemes)
    {
      var updatedSettings := MergeSettings(settings, patch);
      SavePreferences(PreferencesPatch(None, None, Some(updatedSettings)));
    }

    /** `clearAllData`: back to `defaultPreferences`. */
    method ClearAllData()
      modifies this
      ensures favorites == [] && recentThemes == [] && settings == DefaultSettings
    {
      favorites := [];
      recentThemes := [];
      settings := DefaultSettings;
    }
  }
}
