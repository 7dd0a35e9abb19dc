# AI Caption Generator — verified model

The application is a single React component (`src/App.tsx`). The user describes a photo and may upload it. They then choose a platform, a tone and a mood, and switch hashtags, emojis and a call to action on or off. Generating produces four caption texts from fixed templates and lookup tables. Each caption is stored as a record with an identifier, a rating and a bookmark flag. The star buttons rate a record and the bookmark button toggles its flag.

The model has five modules:

- `Text` (`text.dfy`): the JavaScript string operations the engine relies on.
  - `trim`, with the exact ECMAScript whitespace set.
  - `toLowerCase`.
  - The decimal text of a non-negative integer inside a template literal.
- `Catalog` (`catalog.dfy`): the platforms, tones and moods as enumerations, and the tables keyed by them.
  - Mood labels and mood emoji.
  - Emojis by tone.
  - Hashtags and call to action by platform.
- `CaptionEngine` (`engine.dfy`): `generateMockCaptions` as a pure function.
  - It builds the five templates, trims each and returns the first four.
  - The lemmas cover each caption's shape after trimming, how each caption begins and ends, and what each option flag adds to every caption.
- `CaptionList` (`caption_list.dfy`): the caption record and the identifiers a generation gives.
  - The rating and bookmark updates are functions over the list, since the source performs each as one `map` over it.
- `AppState` (`app.dfy`): the component's state as a class, with methods for the handlers that change it.
  - The asynchronous `generateCaptions` is split at its `await`:
    - `BeginGenerate` applies the guard, raises the in-progress flag and returns the inputs the handler's closure captured.
    - `FinishGenerate` stores the batch built from those inputs.
  - `GenerateCaptions` runs both steps with nothing in between.
  - The clock readings (`Date.now()` is read once per caption) are a parameter.

Three behaviours of the code are worth stating plainly, and the model keeps each:

- The default tone is casual (src/App.tsx:39).
- `generateCaptions` does not test `isGenerating` (src/App.tsx:85-88); only the generate button's `disabled` attribute does (src/App.tsx:405). So `BeginGenerate` has no such test, and `ButtonDisabled` models the attribute.
- `rateCaption` stores whatever number it is given (src/App.tsx:162); only the star buttons limit it to 1 to 5 (src/App.tsx:554-557).

## Model

| member | source | states |
|---|---|---|
| `Text.Trim` | src/App.tsx:106 | the result has no whitespace at either end, is empty exactly when the input is all whitespace, and is the part of the input after its leading whitespace with only whitespace after it |
| `Text.TrimIdempotent` | src/App.tsx:139-143 | trimming twice gives what trimming once gives |
| `Text.Lower` | src/App.tsx:140 | same length, no upper-case ASCII letter left, each upper-case ASCII letter becomes its own lower-case letter and every other character is kept |
| `Text.Decimal` | src/App.tsx:96 | the decimal text of a number is non-empty, all digits, has no leading zero unless the number is 0, and is one digit exactly for numbers below 10 |
| `Text.DecimalRoundTrip` | src/App.tsx:96 | reading the decimal text of a number back gives the number |
| `Text.DecimalInjective` | src/App.tsx:96 | different numbers have different decimal texts |
| `Catalog.MoodLabel` | src/App.tsx:28-35 | every mood label is a non-empty string with no surrounding whitespace |
| `Catalog.MoodEmoji` | src/App.tsx:28-35 | every mood emoji is a non-empty string with no surrounding whitespace |
| `Catalog.ToneEmojis` | src/App.tsx:109-115 | every tone's emojis are a non-empty string with no surrounding whitespace |
| `Catalog.PlatformHashtags` | src/App.tsx:117-123 | every platform's hashtags are non-empty, have no surrounding whitespace, and start with '#' |
| `Catalog.PlatformCallToAction` | src/App.tsx:125-131 | every platform's call to action is non-empty with no surrounding whitespace |
| `CaptionEngine.BaseCaption` | src/App.tsx:106 | the base phrase is never empty or padded; it is the description stripped of surrounding whitespace when anything else is left, and "Sharing this amazing moment" when the description is blank |
| `CaptionEngine.SelectedEmojis` | src/App.tsx:133 | the emojis slot is empty exactly when emojis are off, and otherwise holds the tone's emojis, with no surrounding whitespace |
| `CaptionEngine.SelectedHashtags` | src/App.tsx:134 | the hashtags slot is empty exactly when hashtags are off, and otherwise holds the platform's hashtags, with no surrounding whitespace |
| `CaptionEngine.SelectedCallToAction` | src/App.tsx:135 | the call-to-action slot is empty exactly when the call to action is off, and otherwise holds the platform's call to action, with no surrounding whitespace |
| `CaptionEngine.Opening` | src/App.tsx:139-143 | the words each template puts before the mood emoji begin with non-whitespace whenever the base phrase does, so `trim` never removes any of them |
| `CaptionEngine.Templates` | src/App.tsx:138-144 | five templates are built, each with no surrounding whitespace |
| `CaptionEngine.GenerateMockCaptions` | src/App.tsx:105-147 | exactly four captions come back, although five templates are built, and none is empty or has surrounding whitespace |
| `CaptionEngine.SlotsTrimEnd` | src/App.tsx:139-143 | `trim` removes exactly the separators that the empty slots leave at the end of a template |
| `CaptionEngine.TemplateShape` | src/App.tsx:138-144 | each trimmed template is its opening words followed by the mood emoji and the filled slots, the opening and the mood emoji untouched by `trim` |
| `CaptionEngine.CaptionShape` | src/App.tsx:138-146 | the same for each of the four captions returned |
| `CaptionEngine.OpeningPrefixes` | src/App.tsx:140-142 | the second opening starts with "Feeling ", the third with the base phrase, the fourth with "When life gives you moments like this: " |
| `CaptionEngine.FirstCaptionOpening` | src/App.tsx:139 | caption 1 starts with the base phrase, a space and the mood emoji |
| `CaptionEngine.SecondCaptionOpening` | src/App.tsx:140 | caption 2 starts with "Feeling " |
| `CaptionEngine.ThirdCaptionOpening` | src/App.tsx:141 | caption 3 starts with the base phrase |
| `CaptionEngine.FourthCaptionOpening` | src/App.tsx:142 | caption 4 starts with "When life gives you moments like this: " |
| `CaptionEngine.CaptionEnds` | src/App.tsx:133-143 | a caption ends with the platform's hashtags when they are on; otherwise with its call to action when that is on; otherwise with the tone's emojis when they are on; otherwise with the mood emoji |
| `CaptionEngine.HashtagsToggle` | src/App.tsx:134-143 | switching hashtags on appends a whitespace gap and the platform's hashtags to every caption and changes nothing before them |
| `CaptionEngine.CallToActionToggle` | src/App.tsx:135-143 | with hashtags off, switching the call to action on appends a whitespace gap and the platform's call to action to every caption |
| `CaptionEngine.CallToActionBeforeHashtags` | src/App.tsx:135-143 | with hashtags on, the call to action goes between the two line breaks in front of the hashtags, and nothing else changes |
| `CaptionEngine.EmojisToggle` | src/App.tsx:133-143 | switching emojis on puts the tone's emojis right after the mood emoji and a space, and moves nothing else |
| `CaptionEngine.FirstCaptionWithHashtagsAndEmojis` | src/App.tsx:139 | for a description with no surrounding whitespace with hashtags and emojis on and no call to action, caption 1 is the description, the mood emoji, the tone's emojis, four line breaks (three blank lines) and the hashtags |
| `CaptionEngine.SunsetAtTheBeach` | src/App.tsx:139 | "Sunset at the beach" for Twitter, casual, excited, with hashtags and emojis, gives the first caption "Sunset at the beach 🎉 😊🌟👋", four line breaks (three blank lines), "#TwitterUpdate #SocialMedia #Content #Trending" |
| `CaptionList.CaptionId` | src/App.tsx:96 | a caption identifier starts with "caption-" |
| `CaptionList.CaptionIdInjective` | src/App.tsx:96 | an identifier determines the time stamp and the index it was built from |
| `CaptionList.NewBatch` | src/App.tsx:95-100 | one record per text, in order, each identified by its time stamp and index, unrated, not saved, and no two with the same identifier |
| `CaptionList.Rate` | src/App.tsx:159-165 | the list keeps its length, order and identifiers; every record with the given identifier gets the rating; all other fields and records are unchanged |
| `CaptionList.ToggleSaved` | src/App.tsx:167-173 | the list keeps its length, order and identifiers; every record with the given identifier has its flag flipped; all other fields and records are unchanged |
| `CaptionList.RateUnknownId` | src/App.tsx:159-165 | rating an identifier not in the list leaves the list unchanged |
| `CaptionList.ToggleUnknownId` | src/App.tsx:167-173 | bookmarking an identifier not in the list leaves the list unchanged |
| `CaptionList.RateOne` | src/App.tsx:159-165 | with distinct identifiers, rating one record changes that record's rating and no other record |
| `CaptionList.ToggleOne` | src/App.tsx:167-173 | with distinct identifiers, bookmarking one record flips its flag and changes no other record |
| `CaptionList.RateLastWins` | src/App.tsx:159-165 | rating the same identifier twice keeps only the second rating |
| `CaptionList.ToggleTwice` | src/App.tsx:167-173 | bookmarking the same identifier twice restores the list |
| `CaptionList.RateToggleCommute` | src/App.tsx:159-173 | rating and bookmarking can be applied in either order |
| `CaptionList.UpdatesKeepDistinctIds` | src/App.tsx:159-173 | neither update makes two records share an identifier |
| `AppState.RequestCaptions` | src/App.tsx:93 | a request yields four caption texts |
| `AppState.HasImage` | src/App.tsx:86 | `!uploadedImage` counts both no image and the empty string as no image; any other string is an image |
| `AppState.Admits` | src/App.tsx:86 | the generation goes ahead exactly when the description holds something other than whitespace or a non-empty image is held |
| `AppState.CompletedBatch` | src/App.tsx:93-100 | a completed generation stores four records with distinct identifiers, rating 0, not saved, with non-empty trimmed texts |
| `AppState.App.constructor` | src/App.tsx:37-47 | the initial state: empty description, Instagram, casual, excited, hashtags and emojis on, no call to action, nothing in progress, no captions, no image |
| `AppState.App.ButtonDisabled` | src/App.tsx:405 | the generate button is disabled exactly when there is nothing to caption or a generation is in progress |
| `AppState.App.HandleImageUpload` | src/App.tsx:51-59 | a file whose media type starts with "image/" replaces the held image with its data URL; any other file leaves it as it was |
| `AppState.App.RemoveImage` | src/App.tsx:81-83 | no image is held afterwards |
| `AppState.App.BeginGenerate` | src/App.tsx:85-88 | with admitted inputs, the flag goes up and the inputs are captured, whether or not a generation is already in progress; otherwise nothing changes |
| `AppState.App.FinishGenerate` | src/App.tsx:93-102 | the list becomes the fresh batch built from the captured inputs and clock readings, the flag goes down, and the state invariant holds |
| `AppState.App.GenerateCaptions` | src/App.tsx:85-103 | a whole generation with no interleaving: admitted inputs replace the list with the batch of the inputs as they were at the call; otherwise list and flag are unchanged |
| `AppState.App.RateCaption` | src/App.tsx:159-165 | the list becomes its rated version and the invariant (0 or 4 records, distinct identifiers) is kept |
| `AppState.App.ToggleSaved` | src/App.tsx:167-173 | the list becomes its toggled version and the invariant is kept |

## Left out

- Rendering, styling, icons and the platform and tone display labels. The `maxLength` of each platform is only displayed, never enforced.
- `FileReader`: `HandleImageUpload` receives the data URL the reader produced. The input's check that a file was chosen is not modelled.
- Drag and drop (`handleDrag`, `handleDrop`). `dragActive` only changes the look, and a drop forwards its first file to the upload handler.
- `copyToClipboard`, the `copiedId` field and its 2-second reset timer. They call the browser's clipboard and timers.
- The 2.5-second delay. Other handlers running during it are captured only in that the batch is built from the inputs captured by `BeginGenerate`. The model does not schedule interleavings.
- `Date.now()`: a parameter, one reading per caption, assumed to be a non-negative safe integer, so its decimal text has no exponent.
- The form setters (`setDescription`, `setPlatform`, ...): they are plain assignments to the class's fields.
- Strings that name no known platform, tone or mood cannot occur, since the selections are enumerations. The source's fallbacks for them (`selectedMood?.emoji || ''`, an `undefined` table entry) are therefore not modelled.
- `Text.Lower`: only ASCII letters are lower-cased, whereas JavaScript's `toLowerCase` also maps non-ASCII letters. The contract is weaker than the source's for descriptions that hold such letters.
- `Text.Trim`: `IsSpace` is the ECMAScript whitespace and line-terminator set as of current Unicode. Code-point classes added to Unicode later are not tracked.
- Emoji are modelled as the code points the source means. The text of the source file holds them in a mis-decoded form.
