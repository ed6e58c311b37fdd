/** The generation workspace (components/Workspace.tsx): one slot per
    requested emoji, each edited and generated independently by id, and the
    successful ones collected into a set on save. */
module WorkspaceComponent {
  import opened Wrappers
  import opened Types
  import opened Seqs
  import opened JsStrings
  import GeminiService

  /** The two text fields of a slot the user edits. */
  datatype Field = TextField | DescriptionField

  function FieldValue(item: EmojiItem, field: Field): string {
    match field
    case TextField => item.text
    case DescriptionField => item.description
  }

  function OtherField(field: Field): Field {
    match field
    case TextField => DescriptionField
    case DescriptionField => TextField
  }

  // ---- the slot list ----

  /** `Array.from({ length: count })` makes no slots for a negative count. */
  function SlotCount(count: int): nat {
    if count < 0 then 0 else count
  }

  predicate Distinct(ids: seq<string>) {
    forall i, j :: 0 <= i < j < |ids| ==> ids[i] != ids[j]
  }

  predicate DistinctIds(items: seq<EmojiItem>) {
    forall i, j :: 0 <= i < j < |items| ==> items[i].id != items[j].id
  }

  predicate HasId(items: seq<EmojiItem>, id: string) {
    exists i :: 0 <= i < |items| && items[i].id == id
  }

  /** `i.status === 'success' && i.imageUrl`: a generated image is present. */
  predicate IsWorking(item: EmojiItem) {
    item.status == Success && item.imageUrl.Some? && item.imageUrl.value != ""
  }

  /** What the workspace keeps true of its slots: ids are distinct and every
      successful slot holds an image. */
  predicate WellFormed(items: seq<EmojiItem>) {
    DistinctIds(items) && forall i :: 0 <= i < |items| && items[i].status == Success ==> IsWorking(items[i])
  }

  /** A fresh slot. */
  function EmptySlot(id: string): EmojiItem {
    EmojiItem(id, "", "", None, Idle)
  }

  /** The slots a workspace opens with, one per generated id. */
  function InitialSlots(ids: seq<string>): (r: seq<EmojiItem>)
    ensures |r| == |ids|
    ensures forall i :: 0 <= i < |r| ==>
      r[i].id == ids[i] && r[i].status == Idle && r[i].text == "" && r[i].description == ""
      && r[i].imageUrl.None?
  {
    if ids == [] then [] else [EmptySlot(ids[0])] + InitialSlots(ids[1..])
  }

  /** A new workspace is well formed, and nothing in it can be saved yet. */
  lemma InitialSlotsFresh(ids: seq<string>)
    requires Distinct(ids)
    ensures WellFormed(InitialSlots(ids))
    ensures WorkingItems(InitialSlots(ids)) == []
    ensures !AnySucceeded(InitialSlots(ids))
  {
  }

  /** `prev.map(i => i.id === id ? f(i) : i)`. */
  function MapById(items: seq<EmojiItem>, id: string, f: EmojiItem -> EmojiItem): (r: seq<EmojiItem>)
    ensures |r| == |items|
    ensures forall i :: 0 <= i < |r| ==> r[i] == if items[i].id == id then f(items[i]) else items[i]
  {
    if items == [] then []
    else [if items[0].id == id then f(items[0]) else items[0]] + MapById(items[1..], id, f)
  }

  /** When no slot has the id, the map changes nothing. */
  lemma MapAbsentId(items: seq<EmojiItem>, id: string, f: EmojiItem -> EmojiItem)
    requires !HasId(items, id)
    ensures MapById(items, id, f) == items
  {
    var r := MapById(items, id, f);
    assert forall i :: 0 <= i < |r| ==> r[i] == items[i];
  }

  /** `items` and `r` hold the same ids in the same order and differ at most in
      the slots whose id is `id`. */
  predicate OnlyMatchingChanged(items: seq<EmojiItem>, r: seq<EmojiItem>, id: string) {
    |r| == |items|
    && (forall i :: 0 <= i < |r| ==> r[i].id == items[i].id)
    && (forall i :: 0 <= i < |r| && items[i].id != id ==> r[i] == items[i])
  }

  function WithField(item: EmojiItem, field: Field, value: string): EmojiItem {
    match field
    case TextField => item.(text := value)
    case DescriptionField => item.(description := value)
  }

  /** `handleUpdateItem`: the slot with the id gets `value` in `field`; its
      other field, status and image, and every other slot, are kept. */
  function UpdateField(items: seq<EmojiItem>, id: string, field: Field, value: string): (r: seq<EmojiItem>)
    ensures OnlyMatchingChanged(items, r, id)
    ensures forall i :: 0 <= i < |r| ==> r[i].status == items[i].status && r[i].imageUrl == items[i].imageUrl
    ensures forall i :: 0 <= i < |r| && items[i].id == id ==>
      FieldValue(r[i], field) == value && FieldValue(r[i], OtherField(field)) == FieldValue(items[i], OtherField(field))
  {
    MapById(items, id, (item: EmojiItem) => WithField(item, field, value))
  }

  /** The first step of `handleGenerate`: the slot goes to `generating`. */
  function StartGenerating(items: seq<EmojiItem>, id: string): (r: seq<EmojiItem>)
    ensures OnlyMatchingChanged(items, r, id)
    ensures forall i :: 0 <= i < |r| && items[i].id == id ==>
      r[i].status == Generating && r[i].imageUrl == items[i].imageUrl
      && r[i].text == items[i].text && r[i].description == items[i].description
  {
    MapById(items, id, (item: EmojiItem) => item.(status := Generating))
  }

  /** A successful completion: the slot goes to `success` with the new image. */
  function FinishSuccess(items: seq<EmojiItem>, id: string, imageUrl: string): (r: seq<EmojiItem>)
    ensures OnlyMatchingChanged(items, r, id)
    ensures forall i :: 0 <= i < |r| && items[i].id == id ==>
      r[i].status == Success && r[i].imageUrl == Some(imageUrl)
      && r[i].text == items[i].text && r[i].description == items[i].description
  {
    MapById(items, id, (item: EmojiItem) => item.(status := Success, imageUrl := Some(imageUrl)))
  }

  /** A failed completion: the slot goes to `error` and keeps whatever image it had. */
  function FinishError(items: seq<EmojiItem>, id: string): (r: seq<EmojiItem>)
    ensures OnlyMatchingChanged(items, r, id)
    ensures forall i :: 0 <= i < |r| && items[i].id == id ==>
      r[i].status == Error && r[i].imageUrl == items[i].imageUrl
      && r[i].text == items[i].text && r[i].description == items[i].description
  {
    MapById(items, id, (item: EmojiItem) => item.(status := Error))
  }

  /** Editing a field of an id no slot has changes nothing. */
  lemma UpdateAbsentId(items: seq<EmojiItem>, id: string, field: Field, value: string)
    requires !HasId(items, id)
    ensures UpdateField(items, id, field, value) == items
  {
    MapAbsentId(items, id, (item: EmojiItem) => WithField(item, field, value));
  }

  /** Every step of the slot state machine keeps the slots well formed. */
  lemma StepsKeepWellFormed(items: seq<EmojiItem>, id: string, field: Field, value: string, imageUrl: string)
    requires WellFormed(items)
    requires imageUrl != ""
    ensures WellFormed(UpdateField(items, id, field, value))
    ensures WellFormed(StartGenerating(items, id))
    ensures WellFormed(FinishSuccess(items, id, imageUrl))
    ensures WellFormed(FinishError(items, id))
  {
  }

  /** The position of the slot `items.find` returns. */
  function IndexOf(items: seq<EmojiItem>, id: string): (k: nat)
    ensures k <= |items|
    ensures k < |items| <==> HasId(items, id)
    ensures k < |items| ==> items[k].id == id
  {
    FirstIndex(items, (item: EmojiItem) => item.id == id)
  }

  /** With distinct ids, the slot found for an id is the only one with it. */
  lemma IndexOfUnique(items: seq<EmojiItem>, id: string, i: int)
    requires DistinctIds(items)
    requires 0 <= i < |items| && items[i].id == id
    ensures IndexOf(items, id) == i
  {
  }

  // ---- the guards ----

  /** The generate button is enabled: the description is not blank and the
      slot is not already generating. */
  predicate CanGenerate(item: EmojiItem) {
    !(|Trim(item.description)| == 0 || item.status == Generating)
  }

  lemma CanGenerateIff(item: EmojiItem)
    ensures CanGenerate(item) <==> !IsBlank(item.description) && item.status != Generating
  {
    TrimEmptyIffBlank(item.description);
  }

  /** Once a generation has started, the slot's button is disabled until it completes. */
  lemma NoReentry(items: seq<EmojiItem>, id: string, i: int)
    requires 0 <= i < |items| && items[i].id == id
    ensures !CanGenerate(StartGenerating(items, id)[i])
  {
  }

  /** `hasGeneratedItems`: some slot has status `success`. */
  predicate AnySucceeded(items: seq<EmojiItem>) {
    exists i :: 0 <= i < |items| && items[i].status == Success
  }

  // ---- saving ----

  /** The slots that go into a saved set: successful ones with an image, in order. */
  function WorkingItems(items: seq<EmojiItem>): (r: seq<EmojiItem>)
    ensures forall x :: x in r <==> x in items && IsWorking(x)
    ensures forall x :: multiset(r)[x] == if IsWorking(x) then multiset(items)[x] else 0
    ensures IsSubsequence(r, items)
  {
    Filter(items, IsWorking)
  }

  /** The save button is enabled exactly when saving would produce a set. */
  lemma SaveEnabledIffSavable(items: seq<EmojiItem>)
    requires WellFormed(items)
    ensures AnySucceeded(items) <==> WorkingItems(items) != []
  {
    if AnySucceeded(items) {
      var i :| 0 <= i < |items| && items[i].status == Success;
      assert items[i] in WorkingItems(items);
    }
    if WorkingItems(items) != [] {
      var x := WorkingItems(items)[0];
      assert x in items && x.status == Success;
    }
  }

  /** A failed attempt takes the slot out of the next save, even when it had
      an image from an earlier success; the other slots are saved as before. */
  lemma FailedSlotNotSaved(items: seq<EmojiItem>, id: string)
    ensures forall x :: x in WorkingItems(FinishError(StartGenerating(items, id), id)) ==> x.id != id
    ensures forall x :: x in items && x.id != id ==>
      (x in WorkingItems(FinishError(StartGenerating(items, id), id)) <==> x in WorkingItems(items))
  {
    var r := FinishError(StartGenerating(items, id), id);
    forall x | x in r
      ensures x.id == id ==> !IsWorking(x)
      ensures x.id != id ==> x in items
    {
      var i :| 0 <= i < |r| && r[i] == x;
    }
    forall x | x in items && x.id != id
      ensures x in r
    {
      var i :| 0 <= i < |items| && items[i] == x;
      assert r[i] == x;
    }
  }

  /** `handleSaveSet`: no set when nothing was generated; otherwise a set with
      the setup's concept and reference images and exactly the working slots. */
  function BuildSet(setup: SetupData, items: seq<EmojiItem>, id: string, now: int): (r: Option<EmojiSet>)
    ensures r.None? <==> WorkingItems(items) == []
    ensures r.Some? ==>
      r.value.id == id && r.value.createdAt == now
      && r.value.concept == setup.concept && r.value.referenceImages == setup.referenceImages
      && r.value.items == WorkingItems(items) && |r.value.items| > 0
      && forall x :: x in r.value.items ==> IsWorking(x)
  {
    var workingItems := WorkingItems(items);
    if |workingItems| == 0 then None
    else Some(EmojiSet(id, now, setup.concept, setup.referenceImages, workingItems))
  }

  /** The slots after one whole generation attempt for `id`, given the
      generator `sdk`. */
  function AfterGenerate(setup: SetupData, items: seq<EmojiItem>, id: string,
                         sdk: seq<GeminiService.Part> -> GeminiService.SdkReply): seq<EmojiItem>
  {
    var k := IndexOf(items, id);
    if k == |items| then items
    else
      var outcome := GeminiService.GenerationResult(
        setup.concept, setup.referenceImages, items[k].description, Some(items[k].text), sdk);
      var started := StartGenerating(items, id);
      match outcome
      case Ok(imageUrl) => FinishSuccess(started, id, imageUrl)
      case Err(_) => FinishError(started, id)
  }

  /** A generation attempt ends with the slot in a terminal state that reflects
      only this attempt: the new image on success, `error` on failure. */
  lemma GenerateEndsTerminal(setup: SetupData, items: seq<EmojiItem>, id: string,
                             sdk: seq<GeminiService.Part> -> GeminiService.SdkReply, i: int)
    requires 0 <= i < |items| && items[i].id == id
    ensures var r := AfterGenerate(setup, items, id, sdk);
      var k := IndexOf(items, id);
      var outcome := GeminiService.GenerationResult(
        setup.concept, setup.referenceImages, items[k].description, Some(items[k].text), sdk);
      && |r| == |items|
      && OnlyMatchingChanged(items, r, id)
      && (outcome.Ok? ==> r[i].status == Success && r[i].imageUrl == Some(outcome.value))
      && (outcome.Err? ==> r[i].status == Error && !IsWorking(r[i]))
  {
  }

  /** The workspace screen's state. */
  class Workspace {
    const setupData: SetupData
    var items: seq<EmojiItem>
    var isGlobalSaving: bool

    ghost predicate Valid()
      reads this
    {
      WellFormed(items)
    }

    /** Opens the workspace with one empty slot per requested emoji; `ids`
        are the freshly generated slot ids. */
    constructor (setupData: SetupData, ids: seq<string>)
      requires |ids| == SlotCount(setupData.count)
      requires Distinct(ids)
      ensures Valid()
      ensures this.setupData == setupData && items == InitialSlots(ids) && !isGlobalSaving
    {
      this.setupData := setupData;
      items := InitialSlots(ids);
      isGlobalSaving := false;
      InitialSlotsFresh(ids);
    }

    /** `hasGeneratedItems`. */
    function HasGeneratedItems(): bool
      reads this
    {
      AnySucceeded(items)
    }

    /** The save button is enabled. */
    function SaveEnabled(): (b: bool)
      reads this
      requires Valid()
      ensures b <==> WorkingItems(items) != [] && !isGlobalSaving
    {
      SaveEnabledIffSavable(items);
      HasGeneratedItems() && !isGlobalSaving
    }

    method UpdateItem(id: string, field: Field, value: string)
      requires Valid()
      modifies this`items
      ensures Valid()
      ensures items == UpdateField(old(items), id, field, value)
    {
      items := UpdateField(items, id, field, value);
    }

    /** The synchronous part of `handleGenerate`: finds the slot and marks it
        `generating`; returns the slot as found, whose description and text
        go to the generator. An unknown id changes nothing. */
    method BeginGenerate(id: string) returns (found: Option<EmojiItem>)
      requires Valid()
      modifies this`items
      ensures Valid()
      ensures found.None? <==> !HasId(old(items), id)
      ensures found.None? ==> items == old(items)
      ensures found.Some? ==>
        found.value == old(items)[IndexOf(old(items), id)] && items == StartGenerating(old(items), id)
    {
      var k := IndexOf(items, id);
      if k == |items| {
        return None;
      }
      found := Some(items[k]);
      items := StartGenerating(items, id);
    }

    /** The generator returned an image. */
    method CompleteSuccess(id: string, imageUrl: string)
      requires Valid()
      requires imageUrl != ""  // the generator's result always carries the data-URI prefix
      modifies this`items
      ensures Valid()
      ensures items == FinishSuccess(old(items), id, imageUrl)
    {
      items := FinishSuccess(items, id, imageUrl);
    }

    /** The generator threw. */
    method CompleteError(id: string)
      requires Valid()
      modifies this`items
      ensures Valid()
      ensures items == FinishError(old(items), id)
    {
      items := FinishError(items, id);
    }

    /** `handleGenerate` run to completion against the generator `sdk`. */
    method Generate(id: string, sdk: seq<GeminiService.Part> -> GeminiService.SdkReply)
      requires Valid()
      modifies this`items
      ensures Valid()
      ensures items == AfterGenerate(setupData, old(items), id, sdk)
    {
      var found := BeginGenerate(id);
      if found.None? {
        return;
      }
      var item := found.value;
      var outcome := GeminiService.GenerateEmoji(
        setupData.concept, setupData.referenceImages, item.description, Some(item.text), sdk);
      match outcome
      case Ok(imageUrl) =>
        CompleteSuccess(id, imageUrl);
      case Err(_) =>
        CompleteError(id);
    }

    /** `handleSaveSet`: returns the set handed to `onSave`, or nothing when no
        slot has been generated (the alert). The saving flag stays raised
        only when a set was handed on. */
    method SaveSet(newId: string, now: int) returns (saved: Option<EmojiSet>)
      modifies this`isGlobalSaving
      ensures saved == BuildSet(setupData, items, newId, now)
      ensures isGlobalSaving <==> saved.Some?
    {
      isGlobalSaving := true;
      var workingItems := WorkingItems(items);
      if |workingItems| == 0 {
        isGlobalSaving := false;
        return None;
      }
      saved := Some(EmojiSet(newId, now, setupData.concept, setupData.referenceImages, workingItems));
    }
  }
}
