/** The application root (App.tsx): which screen is shown, the setup being
    worked on, and the list of saved sets with its copy in local storage. */
module AppComponent {
  import opened Wrappers
  import opened Types
  import opened Seqs

  /** What the root renders. `Blank` is a workspace view without setup data. */
  datatype Screen = GalleryScreen | SetupScreen | WorkspaceScreen(setup: SetupData) | Blank

  /** The workspace is rendered only when there is setup data to give it. */
  function Rendered(view: AppView, currentSetup: Option<SetupData>): (r: Screen)
    ensures r.WorkspaceScreen? <==> view == Workspace && currentSetup.Some?
    ensures r.WorkspaceScreen? ==> r.setup == currentSetup.value
    ensures r == Blank <==> view == Workspace && currentSetup.None?
  {
    match view
    case Gallery => GalleryScreen
    case Setup => SetupScreen
    case Workspace => if currentSetup.Some? then WorkspaceScreen(currentSetup.value) else Blank
  }

  /** `sets.filter(s => s.id !== id)`: exactly the sets with another id, in order. */
  function RemoveSet(sets: seq<EmojiSet>, id: string): (r: seq<EmojiSet>)
    ensures forall s :: s in r <==> s in sets && s.id != id
    ensures forall s :: multiset(r)[s] == if s.id != id then multiset(sets)[s] else 0
    ensures IsSubsequence(r, sets)
  {
    Filter(sets, (s: EmojiSet) => s.id != id)
  }

  /** Deleting an id no set has leaves the list as it is. */
  lemma RemoveAbsentSet(sets: seq<EmojiSet>, id: string)
    requires forall i :: 0 <= i < |sets| ==> sets[i].id != id
    ensures RemoveSet(sets, id) == sets
  {
    FilterKeepsAll(sets, (s: EmojiSet) => s.id != id);
  }

  /** The effect that runs whenever the list changes: it writes the list only
      when it is not empty. */
  function PersistEffect(storage: Option<seq<EmojiSet>>, sets: seq<EmojiSet>): (r: Option<seq<EmojiSet>>)
    ensures |sets| > 0 ==> r == Some(sets)
    ensures |sets| == 0 ==> r == storage
  {
    if |sets| > 0 then Some(sets) else storage
  }

  /** The effect alone would not make the deletion of the last set durable:
      the stored list would still hold it. */
  lemma EffectAloneKeepsLastSet(s: EmojiSet)
    ensures PersistEffect(Some([s]), RemoveSet([s], s.id)) == Some([s])
  {
    assert !(s in RemoveSet([s], s.id));
    assert RemoveSet([s], s.id) == [];
  }

  class App {
    var view: AppView
    var sets: seq<EmojiSet>
    var currentSetup: Option<SetupData>
    /** The list stored under the application's key; `None` when the key is
        absent or its contents cannot be parsed. */
    var storage: Option<seq<EmojiSet>>

    /** The workspace view always has setup data to show. */
    ghost predicate Valid()
      reads this
    {
      view == Workspace ==> currentSetup.Some?
    }

    /** Storage holds the current list, or nothing was stored and the list is empty. */
    ghost predicate Persisted()
      reads this
    {
      storage == Some(sets) || (sets == [] && storage.None?)
    }

    /** The initial state: the gallery, no sets, no setup; `saved` is what
        storage held before the application started. */
    constructor (saved: Option<seq<EmojiSet>>)
      ensures Valid()
      ensures view == Gallery && sets == [] && currentSetup.None? && storage == saved
    {
      view := Gallery;
      sets := [];
      currentSetup := None;
      storage := saved;
    }

    /** The mount effects: load the stored list, then the change effect. */
    method Mount()
      requires sets == []
      modifies this`sets, this`storage
      ensures Persisted()
      ensures sets == (if old(storage).Some? then old(storage).value else [])
      ensures storage == old(storage)
    {
      if storage.Some? {
        sets := storage.value;
        storage := PersistEffect(storage, sets);
      }
    }

    /** What the root renders; never blank. */
    function Shown(): (r: Screen)
      reads this
      requires Valid()
      ensures r != Blank
      ensures r == Rendered(view, currentSetup)
    {
      Rendered(view, currentSetup)
    }

    /** `handleStartSetup`: the gallery's "create" button. */
    method StartSetup()
      requires Valid()
      modifies this`view
      ensures Valid() && view == Setup
    {
      view := Setup;
    }

    /** The setup screen's back button. */
    method SetupBack()
      requires Valid()
      modifies this`view
      ensures Valid() && view == Gallery
    {
      view := Gallery;
    }

    /** `handleSetupComplete`. */
    method SetupComplete(data: SetupData)
      requires Valid()
      modifies this`view, this`currentSetup
      ensures Valid() && view == Workspace && currentSetup == Some(data)
    {
      currentSetup := Some(data);
      view := Workspace;
    }

    /** The workspace's back button: the setup data stays. */
    method WorkspaceBack()
      requires Valid()
      modifies this`view
      ensures Valid() && view == Setup
    {
      view := Setup;
    }

    /** `handleSaveSet`: the new set goes first; back to the gallery with the
        setup cleared, and the list is written to storage. */
    method SaveSet(newSet: EmojiSet)
      requires Valid()
      modifies this`sets, this`view, this`currentSetup, this`storage
      ensures Valid() && Persisted()
      ensures sets == [newSet] + old(sets)
      ensures view == Gallery && currentSetup.None? && storage == Some(sets)
    {
      sets := [newSet] + sets;
      storage := PersistEffect(storage, sets);
      view := Gallery;
      currentSetup := None;
    }

    /** `handleDeleteSet`: `confirmed` is the answer to the confirmation
        dialog. On confirmation the list is filtered and written at once, so
        that deleting the last set is durable too; otherwise nothing changes. */
    method DeleteSet(id: string, confirmed: bool)
      modifies this`sets, this`storage
      ensures confirmed ==> sets == RemoveSet(old(sets), id) && storage == Some(sets) && Persisted()
      ensures !confirmed ==> sets == old(sets) && storage == old(storage)
    {
      if confirmed {
        var newSets := RemoveSet(sets, id);
        sets := newSets;
        storage := Some(newSets);
        storage := PersistEffect(storage, sets);
      }
    }
  }
}
