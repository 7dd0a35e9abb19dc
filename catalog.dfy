/**
 * The static selection tables of the caption form: the five platforms, five
 * tones and six moods, and the three lookup tables the caption engine reads
 * (emojis by tone, hashtags and call-to-action by platform).  Every entry is a
 * non-empty constant with no whitespace at either end.  (The longer constants
 * are written as short literals joined with `+`, so that the verifier looks
 * at their characters cheaply.)
 */
module Catalog {
  import opened Text

  datatype Platform = Instagram | Twitter | LinkedIn | Facebook | TikTok

  datatype Tone = Professional | Funny | Motivational | Romantic | Casual

  datatype Mood = Excited | Grateful | Adventurous | Peaceful | Confident | Nostalgic

  /** A table entry as the engine needs it: something to show, no padding. */
  predicate IsEntry(s: string) {
    s != [] && IsTrimmed(s)
  }

  /** The `label` column of the `moods` table. */
  function MoodLabel(m: Mood): (name: string)
    ensures IsEntry(name)
  {
    match m
    case Excited => "Excited"
    case Grateful => "Grateful"
    case Adventurous => "Adventurous"
    case Peaceful => "Peaceful"
    case Confident => "Confident"
    case Nostalgic => "Nostalgic"
  }

  /** The `emoji` column of the `moods` table. */
  function MoodEmoji(m: Mood): (emoji: string)
    ensures IsEntry(emoji)
  {
    match m
    case Excited => "\U{1F389}"
    case Grateful => "\U{1F64F}"
    case Adventurous => "\U{1F31F}"
    case Peaceful => "\U{1F9D8}"
    case Confident => "\U{1F4AA}"
    case Nostalgic => "\U{1F4AD}"
  }

  /** `emojiMap`, keyed by tone. */
  function ToneEmojis(t: Tone): (emojis: string)
    ensures IsEntry(emojis)
  {
    match t
    case Professional => "\U{1F4BC}\U{2728}\U{1F4C8}"
    case Funny => "\U{1F602}\U{1F923}\U{1F604}"
    case Motivational => "\U{1F4AA}\U{1F525}\U{26A1}"
    case Romantic => "\U{1F495}\U{2764}\U{FE0F}\U{1F339}"
    case Casual => "\U{1F60A}\U{1F31F}\U{1F44B}"
  }

  /** `hashtagMap`, keyed by platform. */
  function PlatformHashtags(p: Platform): (tags: string)
    ensures IsEntry(tags)
    ensures tags[0] == '#'
  {
    match p
    case Instagram =>
      "#photooftheday " + "#instagood " + "#love " + "#beautiful " + "#happy " + "#lifestyle " + "#memories"
    case Twitter => "#TwitterUpdate " + "#SocialMedia " + "#Content " + "#Trending"
    case LinkedIn => "#Professional " + "#Career " + "#Business " + "#Growth " + "#Success " + "#Leadership"
    case Facebook => "#Friends " + "#Family " + "#Memories " + "#Life " + "#Grateful " + "#Community"
    case TikTok => "#viral " + "#fyp " + "#trending " + "#content " + "#creative " + "#fun"
  }

  /** `ctaMap`, keyed by platform. */
  function PlatformCallToAction(p: Platform): (cta: string)
    ensures IsEntry(cta)
  {
    match p
    case Instagram => "Double tap " + "if you agree! \U{1F496}"
    case Twitter => "What do you think? " + "Let me know! \U{1F447}"
    case LinkedIn => "What are your thoughts " + "on this? " + "Share in the comments."
    case Facebook => "Tag someone who " + "needs to see this! \U{1F447}"
    case TikTok => "Follow for more " + "content like this! \U{2728}"
  }
}
