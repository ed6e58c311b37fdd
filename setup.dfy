/** The setup screen (components/Setup.tsx): collects the concept, the number
    of emojis and the reference images, and hands them on when valid. */
module SetupComponent {
  import opened Wrappers
  import opened Types
  import opened JsStrings

  const InitialCount: int := 32
  /** The bounds of the count slider. */
  const MinCount: int := 1
  const MaxCount: int := 50

  /** `isValid`: a positive count and a concept that is not blank once trimmed. */
  predicate IsValidInput(count: int, concept: string) {
    count > 0 && |Trim(concept)| > 0
  }

  lemma IsValidInputIff(count: int, concept: string)
    ensures IsValidInput(count, concept) <==> count > 0 && !IsBlank(concept)
  {
    TrimEmptyIffBlank(concept);
  }

  /** The setup data a workspace can rely on: a count within the slider's
      bounds and a concept that is not blank. */
  predicate IsSound(data: SetupData) {
    MinCount <= data.count <= MaxCount && !IsBlank(data.concept)
  }

  /** `prev.filter((_, i) => i !== index)`: removes the element at `index`;
      any other index leaves the list as it is. */
  function RemoveAt(images: seq<string>, index: int): (r: seq<string>)
    ensures 0 <= index < |images| ==> r == images[..index] + images[index + 1..]
    ensures !(0 <= index < |images|) ==> r == images
    decreases |images|
  {
    if images == [] then []
    else (if index == 0 then [] else [images[0]]) + RemoveAt(images[1..], index - 1)
  }

  /** The upload loop: converts the files one after the other and stops at
      the first failure. `files[i]` is what converting the i-th file gives,
      `None` when it throws. The result is every converted image, in file
      order, or nothing at all. */
  method ConvertBatch(files: seq<Option<string>>) returns (converted: Option<seq<string>>)
    ensures converted.Some? <==> forall i :: 0 <= i < |files| ==> files[i].Some?
    ensures converted.Some? ==>
      |converted.value| == |files| && forall i :: 0 <= i < |files| ==> converted.value[i] == files[i].value
  {
    var newImages: seq<string> := [];
    for i := 0 to |files|
      invariant |newImages| == i
      invariant forall j :: 0 <= j < i ==> files[j].Some? && newImages[j] == files[j].value
    {
      var base64 := files[i];
      if base64.None? {
        return None;
      }
      newImages := newImages + [base64.value];
    }
    return Some(newImages);
  }

  /** The setup screen's state. */
  class Setup {
    var count: int
    var concept: string
    var images: seq<string>

    ghost predicate Valid()
      reads this
    {
      MinCount <= count <= MaxCount
    }

    constructor ()
      ensures Valid()
      ensures count == InitialCount && concept == "" && images == []
    {
      count := InitialCount;
      concept := "";
      images := [];
    }

    /** The concept text area changed. */
    method SetConcept(value: string)
      modifies this`concept
      ensures concept == value
    {
      concept := value;
    }

    /** The count slider moved; it only produces values within its bounds. */
    method SetCount(value: int)
      requires MinCount <= value <= MaxCount
      modifies this`count
      ensures Valid() && count == value
    {
      count := value;
    }

    /** `handleImageUpload`: `files` is `None` when the input has no file list.
        Either every converted image is appended after the existing ones, in
        file order, or, when any conversion fails, the list is left alone. */
    method UploadImages(files: Option<seq<Option<string>>>)
      modifies this`images
      ensures files.Some? && (forall i :: 0 <= i < |files.value| ==> files.value[i].Some?) ==>
        |images| == |old(images)| + |files.value| && images[..|old(images)|] == old(images)
        && forall i :: 0 <= i < |files.value| ==> images[|old(images)| + i] == files.value[i].value
      ensures !(files.Some? && (forall i :: 0 <= i < |files.value| ==> files.value[i].Some?)) ==>
        images == old(images)
    {
      if files.Some? {
        var newImages := ConvertBatch(files.value);
        if newImages.Some? {
          images := images + newImages.value;
        }
      }
    }

    /** `removeImage`. */
    method RemoveImage(index: int)
      modifies this`images
      ensures images == RemoveAt(old(images), index)
    {
      images := RemoveAt(images, index);
    }

    /** `isValid`: the "Start Building" button is enabled. */
    function IsValid(): bool
      reads this
    {
      IsValidInput(count, concept)
    }

    /** The "Start Building" button: when enabled it hands on the count, the
        concept as typed (not trimmed) and the image list. */
    method Next() returns (data: Option<SetupData>)
      requires Valid()
      ensures data.Some? <==> IsValid()
      ensures data.Some? ==> data.value == SetupData(count, concept, images) && IsSound(data.value)
    {
      if !IsValid() {
        return None;
      }
      IsValidInputIff(count, concept);
      data := Some(SetupData(count, concept, images));
    }
  }
}
