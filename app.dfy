/**
 * The state of the `App` component and the handlers that change it: the
 * image upload and removal, the generation (its guard, the in-progress flag,
 * the stored batch), and the rating and bookmark handlers.  The form fields
 * are plain fields that the form's setters assign directly.
 *
 * `generateCaptions` is asynchronous: it checks its guard and raises the
 * in-progress flag, waits, and then stores the captions computed from the
 * inputs its closure captured when it was called.  It is modelled as two
 * steps, `BeginGenerate` (which returns that snapshot) and `FinishGenerate`
 * (which stores the batch built from it); the clock readings of the second
 * step are a parameter.
 */
module AppState {
  import opened Text
  import opened Catalog
  import opened CaptionEngine
  import opened CaptionList

  datatype Option<T> = None | Some(value: T)

  /** The inputs `generateCaptions` reads when it is called. */
  datatype Request = Request(description: string, platform: Platform, tone: Tone, mood: Mood,
                             includeHashtags: bool, includeEmojis: bool, includeCTA: bool)

  /** The four caption texts a request yields. */
  function RequestCaptions(req: Request): (texts: seq<string>)
    ensures |texts| == 4
  {
    GenerateMockCaptions(req.description, req.platform, req.tone, req.mood,
                         req.includeHashtags, req.includeEmojis, req.includeCTA)
  }

  /** `!uploadedImage` is false: JavaScript counts both `null` and the empty
      string as no image. */
  function HasImage(image: Option<string>): (held: bool)
    ensures image == None ==> !held
    ensures image == Some("") ==> !held
    ensures image.Some? && image.value != "" ==> held
  {
    image.Some? && image.value != ""
  }

  /** The guard of `generateCaptions`, `!(!description.trim() && !uploadedImage)`:
      the description holds something other than whitespace, or an image is held. */
  function Admits(description: string, image: Option<string>): (ok: bool)
    ensures ok <==> !AllSpace(description) || HasImage(image)
  {
    !(Trim(description) == [] && !HasImage(image))
  }

  /** The records a completed generation stores. */
  lemma {:induction false} CompletedBatch(req: Request, stamps: seq<nat>)
    requires |stamps| == 4
    ensures var batch := NewBatch(RequestCaptions(req), stamps);
            && |batch| == 4
            && DistinctIds(batch)
            && forall i :: 0 <= i < 4 ==> && batch[i].rating == 0 && !batch[i].saved
                                           && batch[i].text != [] && IsTrimmed(batch[i].text)
  {
    var texts := RequestCaptions(req);
    var batch := NewBatch(texts, stamps);
    forall i | 0 <= i < 4 ensures batch[i].text != [] && IsTrimmed(batch[i].text) {
      assert batch[i].text == texts[i];
    }
  }

  class App {
    var description: string
    var platform: Platform
    var tone: Tone
    var mood: Mood
    var includeHashtags: bool
    var includeEmojis: bool
    var includeCTA: bool
    var isGenerating: bool
    var generatedCaptions: seq<Caption>
    var uploadedImage: Option<string>

    /** The list is empty until the first generation completes, and then holds
        the four records of the latest one, whose identifiers differ. */
    ghost predicate Valid()
      reads this
    {
      && (|generatedCaptions| == 0 || |generatedCaptions| == 4)
      && DistinctIds(generatedCaptions)
    }

    /** The initial state: an empty description, Instagram, a casual tone, an
        excited mood, hashtags and emojis on, no call to action, nothing in
        progress, no captions and no image. */
    constructor ()
      ensures Valid()
      ensures description == "" && platform == Instagram && tone == Casual && mood == Excited
      ensures includeHashtags && includeEmojis && !includeCTA
      ensures !isGenerating && generatedCaptions == [] && uploadedImage == None
    {
      description := "";
      platform := Instagram;
      tone := Casual;
      mood := Excited;
      includeHashtags := true;
      includeEmojis := true;
      includeCTA := false;
      isGenerating := false;
      generatedCaptions := [];
      uploadedImage := None;
    }

    /** The inputs as the generation handler reads them now. */
    function Snapshot(): (req: Request)
      reads this
      ensures req.description == description && req.platform == platform
      ensures req.tone == tone && req.mood == mood
      ensures req.includeHashtags == includeHashtags && req.includeEmojis == includeEmojis
      ensures req.includeCTA == includeCTA
    {
      Request(description, platform, tone, mood, includeHashtags, includeEmojis, includeCTA)
    }

    /** The generate button's `disabled` attribute: nothing to caption, or a
        generation in progress. */
    function ButtonDisabled(): (disabled: bool)
      reads this
      ensures disabled <==> (AllSpace(description) && !HasImage(uploadedImage)) || isGenerating
    {
      !Admits(description, uploadedImage) || isGenerating
    }

    /** `handleImageUpload` once the file has been read: a file whose media
        type starts with "image/" replaces the held image by its data URL; any
        other file is ignored. */
    method HandleImageUpload(mediaType: string, dataUrl: string)
      modifies this`uploadedImage
      ensures StartsWith(mediaType, "image/") ==> uploadedImage == Some(dataUrl)
      ensures !StartsWith(mediaType, "image/") ==> uploadedImage == old(uploadedImage)
    {
      if StartsWith(mediaType, "image/") {
        uploadedImage := Some(dataUrl);
      }
    }

    /** `removeImage`. */
    method RemoveImage()
      modifies this`uploadedImage
      ensures uploadedImage == None && !HasImage(uploadedImage)
    {
      uploadedImage := None;
    }

    /** The synchronous part of `generateCaptions`.  When the guard admits the
        inputs, the in-progress flag goes up and the snapshot of the inputs is
        returned; otherwise nothing changes.  The in-progress flag is not
        consulted: only the disabled button keeps a second generation from
        starting. */
    method BeginGenerate() returns (pending: Option<Request>)
      modifies this`isGenerating
      ensures Admits(description, uploadedImage) ==> pending == Some(Snapshot()) && isGenerating
      ensures !Admits(description, uploadedImage) ==> pending == None && isGenerating == old(isGenerating)
    {
      if !Admits(description, uploadedImage) {
        return None;
      }
      isGenerating := true;
      pending := Some(Snapshot());
    }

    /** The part of `generateCaptions` after the delay: the four captions of
        the request replace the list, as fresh records stamped with the clock
        readings taken for them, and the in-progress flag goes down. */
    method FinishGenerate(req: Request, stamps: seq<nat>)
      requires |stamps| == 4
      modifies this`generatedCaptions, this`isGenerating
      ensures generatedCaptions == NewBatch(RequestCaptions(req), stamps)
      ensures !isGenerating && Valid()
    {
      generatedCaptions := NewBatch(RequestCaptions(req), stamps);
      isGenerating := false;
    }

    /** `generateCaptions` when no other handler runs during its delay: with
        inputs the guard admits, the list ends up holding the four fresh records
        computed from the inputs and the flag is down; with a blank description
        and no image nothing changes. */
    method GenerateCaptions(stamps: seq<nat>)
      requires |stamps| == 4
      modifies this`generatedCaptions, this`isGenerating
      ensures old(Admits(description, uploadedImage)) ==>
                && generatedCaptions == NewBatch(RequestCaptions(old(Snapshot())), stamps)
                && !isGenerating && Valid()
      ensures !old(Admits(description, uploadedImage)) ==>
                generatedCaptions == old(generatedCaptions) && isGenerating == old(isGenerating)
    {
      var pending := BeginGenerate();
      if pending.Some? {
        FinishGenerate(pending.value, stamps);
      }
    }

    /** `rateCaption`. */
    method RateCaption(id: string, rating: int)
      requires Valid()
      modifies this`generatedCaptions
      ensures generatedCaptions == Rate(old(generatedCaptions), id, rating)
      ensures Valid()
    {
      generatedCaptions := Rate(generatedCaptions, id, rating);
    }

    /** `toggleSaved`. */
    method ToggleSaved(id: string)
      requires Valid()
      modifies this`generatedCaptions
      ensures generatedCaptions == CaptionList.ToggleSaved(old(generatedCaptions), id)
      ensures Valid()
    {
      generatedCaptions := CaptionList.ToggleSaved(generatedCaptions, id);
    }
  }
}
