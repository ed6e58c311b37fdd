/** Clients of the model walking through the application's end-to-end
    scenarios; they rely on the contracts of the members they call and on
    the function definitions. */
module Scenarios {
  import opened Wrappers
  import opened Types
  import opened Seqs
  import opened GeminiService
  import opened WorkspaceComponent
  import SetupComponent
  import AppComponent

  /** A service that always answers with one inline image. */
  function AlwaysImage(parts: seq<Part>): SdkReply {
    Replied(Response(Some([Candidate(Some(Content(Some([ResponsePart(Some(InlineData(Some("QUJD"))))]))))])))
  }

  lemma AlwaysImageResult(concept: string, referenceImages: seq<string>, description: string,
                          itemText: Option<string>)
    ensures GenerationResult(concept, referenceImages, description, itemText, AlwaysImage)
      == Ok(PngDataUriPrefix + "QUJD")
  {
    var parts := [ResponsePart(Some(InlineData(Some("QUJD"))))];
    assert CarriesImage(parts[0]);
    assert FirstIndex(parts, CarriesImage) == 0;
  }

  lemma OnlyFirstWorking(a: EmojiItem, b: EmojiItem, c: EmojiItem)
    requires IsWorking(a) && !IsWorking(b) && !IsWorking(c)
    ensures WorkingItems([a, b, c]) == [a]
  {
    assert [a, b, c][1..] == [b, c] && [b, c][1..] == [c] && [c][1..] == [];
    assert Filter([c], IsWorking) == [];
    assert Filter([b, c], IsWorking) == [];
    assert Filter([a, b, c], IsWorking) == [a] + Filter([b, c], IsWorking);
  }

  /** A service that always throws. */
  function AlwaysThrows(parts: seq<Part>): SdkReply {
    Threw("quota exceeded")
  }

  /** Three slots; the first generated successfully; saving gives one item. */
  method OneSuccessSaved(id0: string, id1: string, id2: string, setId: string, now: int)
    requires id0 != id1 && id0 != id2 && id1 != id2
  {
    var setup := SetupData(3, "robot mascot", []);
    var ws := new Workspace(setup, [id0, id1, id2]);
    assert |ws.items| == 3 && ws.items[0].status == Idle && ws.items[2].status == Idle;
    ws.UpdateItem(id0, DescriptionField, "waving hello");
    ghost var edited := ws.items;
    assert IndexOf(edited, id0) == 0;
    AlwaysImageResult(setup.concept, setup.referenceImages, edited[0].description, Some(edited[0].text));
    ws.Generate(id0, AlwaysImage);
    assert ws.items == FinishSuccess(StartGenerating(edited, id0), id0, PngDataUriPrefix + "QUJD");
    assert ws.items[0].status == Success && ws.items[0].imageUrl == Some(PngDataUriPrefix + "QUJD");
    assert ws.items[1] == EmptySlot(id1) && ws.items[2] == EmptySlot(id2);
    SaveTheFirstOfThree(ws, setId, now);
  }

  method SaveTheFirstOfThree(ws: Workspace, setId: string, now: int)
    requires |ws.items| == 3 && IsWorking(ws.items[0]) && !IsWorking(ws.items[1]) && !IsWorking(ws.items[2])
    modifies ws
  {
    ghost var generated := ws.items;
    OnlyFirstWorking(generated[0], generated[1], generated[2]);
    assert generated == [generated[0], generated[1], generated[2]];
    var saved := ws.SaveSet(setId, now);
    assert saved.Some? && saved.value.items == [generated[0]];
  }

  /** A throwing service marks the slot `error`, the other slots keep their
      state, and there is nothing to save. */
  method FailureNotSaved(id0: string, id1: string, setId: string, now: int)
    requires id0 != id1
  {
    var setup := SetupData(2, "robot mascot", []);
    var ws := new Workspace(setup, [id0, id1]);
    ws.UpdateItem(id0, DescriptionField, "waving hello");
    ws.Generate(id0, AlwaysThrows);
    assert ws.items[0].status == Error && ws.items[1] == EmptySlot(id1);
    SaveNothingOfTwo(ws, setId, now);
  }

  lemma NoneWorking(a: EmojiItem, b: EmojiItem)
    requires !IsWorking(a) && !IsWorking(b)
    ensures WorkingItems([a, b]) == []
  {
    assert [a, b][1..] == [b] && [b][1..] == [];
    assert Filter([b], IsWorking) == [];
  }

  method SaveNothingOfTwo(ws: Workspace, setId: string, now: int)
    requires |ws.items| == 2 && !IsWorking(ws.items[0]) && !IsWorking(ws.items[1])
    modifies ws
  {
    ghost var failed := ws.items;
    NoneWorking(failed[0], failed[1]);
    assert failed == [failed[0], failed[1]];
    var saved := ws.SaveSet(setId, now);
    assert saved.None? && !ws.isGlobalSaving;
  }

  /** A blank concept keeps the setup screen from handing anything on. */
  method BlankConceptRejected() {
    var setup := new SetupComponent.Setup();
    setup.SetConcept("   ");
    SetupComponent.IsValidInputIff(setup.count, setup.concept);
    var data := setup.Next();
    assert data.None?;
  }

  /** Navigation from the gallery through setup and workspace back to the
      gallery with the saved set first in the list and in storage. */
  method CreateAndSave(saved: Option<seq<EmojiSet>>, newSet: EmojiSet)
  {
    var app := new AppComponent.App(saved);
    app.Mount();
    ghost var before := app.sets;
    app.StartSetup();
    app.SetupComplete(SetupData(3, "robot mascot", []));
    assert app.Shown() == AppComponent.WorkspaceScreen(SetupData(3, "robot mascot", []));
    app.WorkspaceBack();
    assert app.currentSetup.Some?;
    app.SetupComplete(SetupData(4, "robot mascot", []));
    app.SaveSet(newSet);
    assert app.view == Gallery && app.sets == [newSet] + before && app.storage == Some(app.sets);
    app.DeleteSet(newSet.id, false);
    assert app.sets[0] == newSet;
  }
}
