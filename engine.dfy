/**
 * The caption template engine (`generateMockCaptions`): a pure function from
 * the description, the three selections and the three option flags to the
 * caption texts.  It builds five templates, trims each, and returns the first
 * four.
 */
module CaptionEngine {
  import opened Text
  import opened Catalog

  /** What the captions are about when the description is blank. */
  const Fallback: string := "Sharing this amazing moment"

  /** `desc.trim() || "Sharing this amazing moment"`: the description without
      its surrounding whitespace, or the fallback phrase when nothing is left. */
  function BaseCaption(desc: string): (base: string)
    ensures base != [] && IsTrimmed(base)
    ensures !AllSpace(desc) ==> StripsTo(desc, LeadingSpaces(desc), base)
    ensures AllSpace(desc) ==> base == Fallback
  {
    var t := Trim(desc);
    if t != [] then t else Fallback
  }

  /** The part every template shares after its opening words, with the three
      selected table strings (each empty when its flag is off) in their slots. */
  function Slots(moodEmoji: string, emojis: string, cta: string, hashtags: string): string {
    " " + moodEmoji + " " + emojis + "\n\n" + cta + "\n\n" + hashtags
  }

  /** The opening words of template `k`. */
  const LovingIt: string := "... and I'm " + "absolutely loving " + "every second of it!"

  const WhenLife: string := "When life gives you " + "moments like this: "

  /** The words template `k` puts in front of the mood emoji.  They begin
      with non-whitespace whenever the base phrase does, so `trim` never eats
      into them. */
  function Opening(k: nat, base: string, md: Mood): (words: string)
    requires k < 5
    ensures base != [] && !IsSpace(base[0]) ==> words != [] && !IsSpace(words[0])
  {
    if k == 0 then base
    else if k == 1 then "Feeling " + Lower(MoodLabel(md)) + " about this: " + Lower(base)
    else if k == 2 then base + LovingIt
    else if k == 3 then WhenLife + Lower(base)
    else "Just had to share this " + Lower(MoodLabel(md)) + " moment: " + Lower(base)
  }

  /** `emojis ? emojiMap[tn] : ''`: empty exactly when the flag is off, and
      then the tone's emojis, which need no trimming. */
  function SelectedEmojis(tn: Tone, emojis: bool): (selected: string)
    ensures (selected != []) == emojis && IsTrimmed(selected)
    ensures emojis ==> selected == ToneEmojis(tn)
  {
    if emojis then ToneEmojis(tn) else ""
  }

  /** `hashtags ? hashtagMap[plat] : ''`: empty exactly when the flag is off,
      and then the platform's hashtags, which need no trimming. */
  function SelectedHashtags(plat: Platform, hashtags: bool): (selected: string)
    ensures (selected != []) == hashtags && IsTrimmed(selected)
    ensures hashtags ==> selected == PlatformHashtags(plat)
  {
    if hashtags then PlatformHashtags(plat) else ""
  }

  /** `cta ? ctaMap[plat] : ''`: empty exactly when the flag is off, and then
      the platform's call to action, which needs no trimming. */
  function SelectedCallToAction(plat: Platform, cta: bool): (selected: string)
    ensures (selected != []) == cta && IsTrimmed(selected)
    ensures cta ==> selected == PlatformCallToAction(plat)
  {
    if cta then PlatformCallToAction(plat) else ""
  }

  /** All five templates, each trimmed. */
  function Templates(desc: string, plat: Platform, tn: Tone, md: Mood,
                     hashtags: bool, emojis: bool, cta: bool): (templates: seq<string>)
    ensures |templates| == 5
    ensures forall k :: 0 <= k < 5 ==> IsTrimmed(templates[k])
  {
    var base := BaseCaption(desc);
    var slots := Slots(MoodEmoji(md), SelectedEmojis(tn, emojis),
                       SelectedCallToAction(plat, cta), SelectedHashtags(plat, hashtags));
    seq(5, k requires 0 <= k < 5 => Trim(Opening(k, base, md) + slots))
  }

  /** `generateMockCaptions`: the first four of the five trimmed templates. */
  function GenerateMockCaptions(desc: string, plat: Platform, tn: Tone, md: Mood,
                                hashtags: bool, emojis: bool, cta: bool): (captions: seq<string>)
    ensures |captions| == 4
    ensures forall k :: 0 <= k < 4 ==> captions[k] != [] && IsTrimmed(captions[k])
  {
    var t := Templates(desc, plat, tn, md, hashtags, emojis, cta);
    CaptionsNotBlank(desc, plat, tn, md, hashtags, emojis, cta);
    t[..4]
  }

  lemma SlotsNotBlank(m: string, e: string, c: string, h: string)
    requires IsEntry(m)
    ensures !AllSpace(Slots(m, e, c, h))
  {
    assert Slots(m, e, c, h)[1] == m[0];
  }

  lemma CaptionsNotBlank(desc: string, plat: Platform, tn: Tone, md: Mood,
                         hashtags: bool, emojis: bool, cta: bool)
    ensures forall k :: 0 <= k < 5 ==> Templates(desc, plat, tn, md, hashtags, emojis, cta)[k] != []
  {
    var base := BaseCaption(desc);
    var slots := Slots(MoodEmoji(md), SelectedEmojis(tn, emojis),
                       SelectedCallToAction(plat, cta), SelectedHashtags(plat, hashtags));
    SlotsNotBlank(MoodEmoji(md), SelectedEmojis(tn, emojis),
                  SelectedCallToAction(plat, cta), SelectedHashtags(plat, hashtags));
    forall k | 0 <= k < 5 ensures !AllSpace(Opening(k, base, md) + slots) {
      var o := Opening(k, base, md);
      var j :| 0 <= j < |slots| && !IsSpace(slots[j]);
      assert (o + slots)[|o| + j] == slots[j];
    }
  }

  /** What is left of the shared part once `trim` has removed the separators
      that the empty slots leave at the end. */
  function Ending(moodEmoji: string, emojis: string, cta: string, hashtags: string): string {
    if hashtags != [] then " " + moodEmoji + " " + emojis + "\n\n" + cta + "\n\n" + hashtags
    else if cta != [] then " " + moodEmoji + " " + emojis + "\n\n" + cta
    else if emojis != [] then " " + moodEmoji + " " + emojis
    else " " + moodEmoji
  }

  lemma {:induction false} SlotsTrimEnd(m: string, e: string, c: string, h: string)
    requires IsEntry(m) && IsTrimmed(e) && IsTrimmed(c) && IsTrimmed(h)
    ensures TrimEnd(Slots(m, e, c, h)) == Ending(m, e, c, h)
  {
    var x := " " + m + " " + e;
    var s := Slots(m, e, c, h);
    assert AllSpace("\n\n") && AllSpace(" ");
    if h != [] {
      assert s[|s| - 1] == h[|h| - 1];
      TrimEndOfTrimmed(s);
    } else {
      var y := x + "\n\n" + c;
      assert s == y + "\n\n";
      TrimEndDropsSpaces(y, "\n\n");
      if c != [] {
        assert y[|y| - 1] == c[|c| - 1];
        TrimEndOfTrimmed(y);
      } else {
        assert y == x + "\n\n";
        TrimEndDropsSpaces(x, "\n\n");
        if e != [] {
          assert x[|x| - 1] == e[|e| - 1];
          TrimEndOfTrimmed(x);
        } else {
          assert x == (" " + m) + " ";
          TrimEndDropsSpaces(" " + m, " ");
          assert (" " + m)[|m|] == m[|m| - 1];
          TrimEndOfTrimmed(" " + m);
        }
      }
    }
  }

  /** Every template keeps its opening words and the mood emoji untouched by
      `trim`, which removes only the separators of the trailing empty slots. */
  lemma TemplateShape(desc: string, plat: Platform, tn: Tone, md: Mood,
                      hashtags: bool, emojis: bool, cta: bool, k: nat)
    requires k < 5
    ensures Templates(desc, plat, tn, md, hashtags, emojis, cta)[k]
         == Opening(k, BaseCaption(desc), md)
            + Ending(MoodEmoji(md), SelectedEmojis(tn, emojis),
                     SelectedCallToAction(plat, cta), SelectedHashtags(plat, hashtags))
  {
    var m, e := MoodEmoji(md), SelectedEmojis(tn, emojis);
    var c, h := SelectedCallToAction(plat, cta), SelectedHashtags(plat, hashtags);
    var base := BaseCaption(desc);
    SlotsNotBlank(m, e, c, h);
    TrimOfHeadAndTail(Opening(k, base, md), Slots(m, e, c, h));
    SlotsTrimEnd(m, e, c, h);
  }

  /** The same for the four captions returned. */
  lemma CaptionShape(desc: string, plat: Platform, tn: Tone, md: Mood,
                     hashtags: bool, emojis: bool, cta: bool, k: nat)
    requires k < 4
    ensures GenerateMockCaptions(desc, plat, tn, md, hashtags, emojis, cta)[k]
         == Opening(k, BaseCaption(desc), md)
            + Ending(MoodEmoji(md), SelectedEmojis(tn, emojis),
                     SelectedCallToAction(plat, cta), SelectedHashtags(plat, hashtags))
  {
    TemplateShape(desc, plat, tn, md, hashtags, emojis, cta, k);
  }

  lemma EndingStartsWithMood(m: string, e: string, c: string, h: string)
    ensures StartsWith(Ending(m, e, c, h), " " + m)
  {
    var x := Ending(m, e, c, h);
    if h != [] {
      assert x == (" " + m) + (" " + e + "\n\n" + c + "\n\n" + h);
    } else if c != [] {
      assert x == (" " + m) + (" " + e + "\n\n" + c);
    } else if e != [] {
      assert x == (" " + m) + (" " + e);
    }
    StartsWithAppend(" " + m, x[|" " + m|..], " " + m);
    assert x == (" " + m) + x[|" " + m|..];
  }

  lemma OpeningPrefixes(base: string, md: Mood)
    ensures StartsWith(Opening(1, base, md), "Feeling ")
    ensures StartsWith(Opening(2, base, md), base)
    ensures StartsWith(Opening(3, base, md), WhenLife)
  {
    var o1 := Opening(1, base, md);
    assert o1 == "Feeling " + (Lower(MoodLabel(md)) + " about this: " + Lower(base));
    StartsWithAppend("Feeling ", Lower(MoodLabel(md)) + " about this: " + Lower(base), "Feeling ");
    StartsWithAppend(base, LovingIt, base);
    StartsWithAppend(WhenLife, Lower(base), WhenLife);
  }

  /** The first caption begins with the base phrase followed by the mood emoji. */
  lemma FirstCaptionOpening(desc: string, plat: Platform, tn: Tone, md: Mood,
                            hashtags: bool, emojis: bool, cta: bool)
    ensures StartsWith(GenerateMockCaptions(desc, plat, tn, md, hashtags, emojis, cta)[0],
                       BaseCaption(desc) + " " + MoodEmoji(md))
  {
    var base := BaseCaption(desc);
    var m := MoodEmoji(md);
    var e, c, h := SelectedEmojis(tn, emojis), SelectedCallToAction(plat, cta), SelectedHashtags(plat, hashtags);
    var x := Ending(m, e, c, h);
    CaptionShape(desc, plat, tn, md, hashtags, emojis, cta, 0);
    EndingStartsWithMood(m, e, c, h);
    StartsWithExtend(base, x, " " + m);
    assert base + (" " + m) == base + " " + m;
  }

  /** The second caption begins with "Feeling ", whatever the description. */
  lemma SecondCaptionOpening(desc: string, plat: Platform, tn: Tone, md: Mood,
                             hashtags: bool, emojis: bool, cta: bool)
    ensures StartsWith(GenerateMockCaptions(desc, plat, tn, md, hashtags, emojis, cta)[1], "Feeling ")
  {
    var base := BaseCaption(desc);
    var x := Ending(MoodEmoji(md), SelectedEmojis(tn, emojis),
                    SelectedCallToAction(plat, cta), SelectedHashtags(plat, hashtags));
    OpeningPrefixes(base, md);
    CaptionShape(desc, plat, tn, md, hashtags, emojis, cta, 1);
    StartsWithAppend(Opening(1, base, md), x, "Feeling ");
  }

  /** The third caption begins with the base phrase. */
  lemma ThirdCaptionOpening(desc: string, plat: Platform, tn: Tone, md: Mood,
                            hashtags: bool, emojis: bool, cta: bool)
    ensures StartsWith(GenerateMockCaptions(desc, plat, tn, md, hashtags, emojis, cta)[2], BaseCaption(desc))
  {
    var base := BaseCaption(desc);
    var x := Ending(MoodEmoji(md), SelectedEmojis(tn, emojis),
                    SelectedCallToAction(plat, cta), SelectedHashtags(plat, hashtags));
    OpeningPrefixes(base, md);
    CaptionShape(desc, plat, tn, md, hashtags, emojis, cta, 2);
    StartsWithAppend(Opening(2, base, md), x, base);
  }

  /** The fourth caption begins with "When life gives you moments like this: ",
      whatever the description. */
  lemma FourthCaptionOpening(desc: string, plat: Platform, tn: Tone, md: Mood,
                             hashtags: bool, emojis: bool, cta: bool)
    ensures StartsWith(GenerateMockCaptions(desc, plat, tn, md, hashtags, emojis, cta)[3], WhenLife)
  {
    var base := BaseCaption(desc);
    var x := Ending(MoodEmoji(md), SelectedEmojis(tn, emojis),
                    SelectedCallToAction(plat, cta), SelectedHashtags(plat, hashtags));
    OpeningPrefixes(base, md);
    CaptionShape(desc, plat, tn, md, hashtags, emojis, cta, 3);
    StartsWithAppend(Opening(3, base, md), x, WhenLife);
  }

  /** Which table string an ending finishes with. */
  lemma EndingEnds(m: string, e: string, c: string, h: string)
    ensures var x := Ending(m, e, c, h);
            && (h != [] ==> EndsWith(x, "\n\n" + h))
            && (h == [] && c != [] ==> EndsWith(x, "\n\n" + c))
            && (h == [] && c == [] && e != [] ==> EndsWith(x, " " + e))
            && (h == [] && c == [] && e == [] ==> x == " " + m)
  {
    var x := Ending(m, e, c, h);
    if h != [] {
      assert x == (" " + m + " " + e + "\n\n" + c) + ("\n\n" + h);
    } else if c != [] {
      assert x == (" " + m + " " + e) + ("\n\n" + c);
    } else if e != [] {
      assert x == (" " + m) + (" " + e);
    }
  }

  /** Which table string a caption ends with: the platform's hashtags when they
      are on; otherwise its call to action when that is on; otherwise the tone's
      emojis when they are on; otherwise the mood emoji, which no flag removes. */
  lemma CaptionEnds(desc: string, plat: Platform, tn: Tone, md: Mood,
                    hashtags: bool, emojis: bool, cta: bool, k: nat)
    requires k < 4
    ensures var c := GenerateMockCaptions(desc, plat, tn, md, hashtags, emojis, cta)[k];
            && (hashtags ==> EndsWith(c, "\n\n" + PlatformHashtags(plat)))
            && (!hashtags && cta ==> EndsWith(c, "\n\n" + PlatformCallToAction(plat)))
            && (!hashtags && !cta && emojis ==> EndsWith(c, " " + ToneEmojis(tn)))
            && (!hashtags && !cta && !emojis ==> EndsWith(c, " " + MoodEmoji(md)))
  {
    var m, e := MoodEmoji(md), SelectedEmojis(tn, emojis);
    var c, h := SelectedCallToAction(plat, cta), SelectedHashtags(plat, hashtags);
    var o := Opening(k, BaseCaption(desc), md);
    CaptionShape(desc, plat, tn, md, hashtags, emojis, cta, k);
    EndingEnds(m, e, c, h);
    var x := Ending(m, e, c, h);
    if hashtags {
      EndsWithPrepend(o, x, "\n\n" + h);
    } else if cta {
      EndsWithPrepend(o, x, "\n\n" + c);
    } else if emojis {
      EndsWithPrepend(o, x, " " + e);
    } else {
      assert EndsWith(x, " " + m);
      EndsWithPrepend(o, x, " " + m);
    }
  }

  /** The whitespace `trim` leaves between the last non-empty slot and the
      hashtags: the line breaks of the slots in between, plus the space before
      the emojis when those are off too. */
  function HashtagsGap(emojis: string, cta: string): (gap: string)
    ensures gap != [] && AllSpace(gap)
  {
    if cta != [] then "\n\n" else if emojis != [] then "\n\n\n\n" else " \n\n\n\n"
  }

  lemma EndingHashtagsToggle(m: string, e: string, c: string, h: string)
    requires h != []
    ensures Ending(m, e, c, h) == Ending(m, e, c, []) + (HashtagsGap(e, c) + h)
  {
  }

  /** Turning hashtags on appends a whitespace gap and the platform's hashtags,
      verbatim, to every caption, and changes nothing before them. */
  lemma HashtagsToggle(desc: string, plat: Platform, tn: Tone, md: Mood,
                       emojis: bool, cta: bool, k: nat)
    requires k < 4
    ensures GenerateMockCaptions(desc, plat, tn, md, true, emojis, cta)[k]
         == GenerateMockCaptions(desc, plat, tn, md, false, emojis, cta)[k]
            + HashtagsGap(SelectedEmojis(tn, emojis), SelectedCallToAction(plat, cta))
            + PlatformHashtags(plat)
  {
    var o := Opening(k, BaseCaption(desc), md);
    var m, e, c := MoodEmoji(md), SelectedEmojis(tn, emojis), SelectedCallToAction(plat, cta);
    var h := PlatformHashtags(plat);
    CaptionShape(desc, plat, tn, md, true, emojis, cta, k);
    CaptionShape(desc, plat, tn, md, false, emojis, cta, k);
    EndingHashtagsToggle(m, e, c, h);
    ConcatAssoc(o, Ending(m, e, c, []), HashtagsGap(e, c) + h);
    ConcatAssoc(o + Ending(m, e, c, []), HashtagsGap(e, c), h);
  }

  /** The whitespace `trim` leaves before a call to action that ends the
      caption: its line breaks, plus the space before the emojis when those
      are off. */
  function CallToActionGap(emojis: string): (gap: string)
    ensures gap != [] && AllSpace(gap)
  {
    if emojis != [] then "\n\n" else " \n\n"
  }

  lemma EndingCallToActionAlone(m: string, e: string, c: string)
    requires c != []
    ensures Ending(m, e, c, []) == Ending(m, e, [], []) + (CallToActionGap(e) + c)
  {
  }

  lemma EndingCallToActionWithHashtags(m: string, e: string, c: string, h: string)
    requires c != [] && h != []
    ensures Ending(m, e, [], h) == (" " + m + " " + e) + ("\n\n" + ("\n\n" + h))
    ensures Ending(m, e, c, h) == (" " + m + " " + e) + ("\n\n" + (c + ("\n\n" + h)))
  {
  }

  /** With hashtags off, turning the call to action on appends a whitespace gap
      and the platform's call to action, verbatim, to every caption. */
  lemma CallToActionToggle(desc: string, plat: Platform, tn: Tone, md: Mood, emojis: bool, k: nat)
    requires k < 4
    ensures GenerateMockCaptions(desc, plat, tn, md, false, emojis, true)[k]
         == GenerateMockCaptions(desc, plat, tn, md, false, emojis, false)[k]
            + CallToActionGap(SelectedEmojis(tn, emojis)) + PlatformCallToAction(plat)
  {
    var o := Opening(k, BaseCaption(desc), md);
    var m, e, c := MoodEmoji(md), SelectedEmojis(tn, emojis), PlatformCallToAction(plat);
    CaptionShape(desc, plat, tn, md, false, emojis, true, k);
    CaptionShape(desc, plat, tn, md, false, emojis, false, k);
    EndingCallToActionAlone(m, e, c);
    ConcatAssoc(o, Ending(m, e, [], []), CallToActionGap(e) + c);
    ConcatAssoc(o + Ending(m, e, [], []), CallToActionGap(e), c);
  }

  /** With hashtags on, the call to action goes, verbatim, between the two
      line breaks that separate the emojis from the hashtags. */
  lemma CallToActionBeforeHashtags(desc: string, plat: Platform, tn: Tone, md: Mood, emojis: bool, k: nat)
    requires k < 4
    ensures var x := Opening(k, BaseCaption(desc), md) + (" " + MoodEmoji(md) + " " + SelectedEmojis(tn, emojis));
            && GenerateMockCaptions(desc, plat, tn, md, true, emojis, false)[k]
               == x + ("\n\n" + ("\n\n" + PlatformHashtags(plat)))
            && GenerateMockCaptions(desc, plat, tn, md, true, emojis, true)[k]
               == x + ("\n\n" + (PlatformCallToAction(plat) + ("\n\n" + PlatformHashtags(plat))))
  {
    var o := Opening(k, BaseCaption(desc), md);
    var m, e, c := MoodEmoji(md), SelectedEmojis(tn, emojis), PlatformCallToAction(plat);
    var h := PlatformHashtags(plat);
    CaptionShape(desc, plat, tn, md, true, emojis, true, k);
    CaptionShape(desc, plat, tn, md, true, emojis, false, k);
    EndingCallToActionWithHashtags(m, e, c, h);
    var x := " " + m + " " + e;
    ConcatAssoc(o, x, "\n\n" + ("\n\n" + h));
    ConcatAssoc(o, x, "\n\n" + (c + ("\n\n" + h)));
  }

  /** What follows the emojis' slot once trimmed: the call to action and the
      hashtags with their line breaks, or nothing when both are off. */
  function AfterEmojis(cta: string, hashtags: string): string {
    if hashtags != [] then "\n\n" + cta + "\n\n" + hashtags
    else if cta != [] then "\n\n" + cta
    else ""
  }

  lemma EndingEmojisToggle(m: string, e: string, c: string, h: string)
    requires e != []
    ensures Ending(m, e, c, h) == (" " + m) + (" " + e + AfterEmojis(c, h))
    ensures Ending(m, [], c, h) == (" " + m) + (if c == [] && h == [] then "" else " " + AfterEmojis(c, h))
  {
  }

  /** Turning emojis on puts the tone's emojis, verbatim, right after the mood
      emoji and a space, and moves nothing else. */
  lemma EmojisToggle(desc: string, plat: Platform, tn: Tone, md: Mood,
                     hashtags: bool, cta: bool, k: nat)
    requires k < 4
    ensures var x := Opening(k, BaseCaption(desc), md) + (" " + MoodEmoji(md));
            var y := AfterEmojis(SelectedCallToAction(plat, cta), SelectedHashtags(plat, hashtags));
            && GenerateMockCaptions(desc, plat, tn, md, hashtags, true, cta)[k]
               == x + (" " + ToneEmojis(tn) + y)
            && GenerateMockCaptions(desc, plat, tn, md, hashtags, false, cta)[k]
               == x + (if !hashtags && !cta then "" else " " + y)
  {
    var o := Opening(k, BaseCaption(desc), md);
    var m, e := MoodEmoji(md), ToneEmojis(tn);
    var c, h := SelectedCallToAction(plat, cta), SelectedHashtags(plat, hashtags);
    CaptionShape(desc, plat, tn, md, hashtags, true, cta, k);
    CaptionShape(desc, plat, tn, md, hashtags, false, cta, k);
    EndingEmojisToggle(m, e, c, h);
    ConcatAssoc(o, " " + m, " " + e + AfterEmojis(c, h));
    ConcatAssoc(o, " " + m, if c == [] && h == [] then "" else " " + AfterEmojis(c, h));
  }

  lemma EndingWithoutCallToAction(m: string, e: string, h: string)
    requires e != [] && h != []
    ensures Ending(m, e, [], h) == " " + m + " " + e + "\n\n\n\n" + h
  {
  }

  /** The first caption for a description that needs no trimming, with
      hashtags and emojis on and no call to action: the description, the mood
      emoji, the tone's emojis, four line breaks, the hashtags. */
  lemma FirstCaptionWithHashtagsAndEmojis(desc: string, plat: Platform, tn: Tone, md: Mood)
    requires desc != [] && IsTrimmed(desc)
    ensures GenerateMockCaptions(desc, plat, tn, md, true, true, false)[0]
         == desc + (" " + MoodEmoji(md) + " " + ToneEmojis(tn) + "\n\n\n\n" + PlatformHashtags(plat))
  {
    TrimOfTrimmed(desc);
    CaptionShape(desc, plat, tn, md, true, true, false, 0);
    EndingWithoutCallToAction(MoodEmoji(md), ToneEmojis(tn), PlatformHashtags(plat));
  }

  /** "Sunset at the beach" for Twitter, in a casual tone and an excited mood,
      with hashtags and emojis and no call to action. */
  lemma SunsetAtTheBeach()
    ensures GenerateMockCaptions("Sunset at the beach", Twitter, Casual, Excited, true, true, false)[0]
         == "Sunset at the beach" + (" " + "\U{1F389}" + " " + "\U{1F60A}\U{1F31F}\U{1F44B}" + "\n\n\n\n"
                                     + ("#TwitterUpdate " + "#SocialMedia " + "#Content " + "#Trending"))
  {
    var d := "Sunset at the beach";
    assert d[0] == 'S' && d[|d| - 1] == 'h';
    assert IsTrimmed(d);
    assert MoodEmoji(Excited) == "\U{1F389}";
    assert ToneEmojis(Casual) == "\U{1F60A}\U{1F31F}\U{1F44B}";
    assert PlatformHashtags(Twitter) == "#TwitterUpdate " + "#SocialMedia " + "#Content " + "#Trending";
    FirstCaptionWithHashtagsAndEmojis(d, Twitter, Casual, Excited);
  }
}
