/** `processSegment` of the command pipeline: only the browser intent is routed. */
module Router {
  import opened Text
  import opened Lexicon
  import opened Commands
  import opened Effects
  import opened Browser

  const CanYouRepeat := "I'm sorry, can you repeat that?"

  /** Routes a segment on its intent; every intent but "browser" throws. */
  function ProcessSegment(verbOf: VerbResolver, segment: Segment): (r: Result<seq<Effect>>)
    ensures segment.intent != IntentBrowser ==> r == Err(CanYouRepeat)
    ensures segment.intent == IntentBrowser ==> r == HandleBrowserIntent(verbOf, segment)
  {
    if segment.intent == IntentBrowser then HandleBrowserIntent(verbOf, segment)
    else Err(CanYouRepeat)
  }

  /** Page and ava intents are not routed here: they throw like any unknown intent. */
  lemma OnlyBrowserIsRouted(verbOf: VerbResolver, entities: seq<Entity>)
    ensures ProcessSegment(verbOf, Segment(IntentPage, entities)) == Err(CanYouRepeat)
    ensures ProcessSegment(verbOf, Segment(IntentAva, entities)) == Err(CanYouRepeat)
    ensures ProcessSegment(verbOf, Segment(IntentTab, entities)) == Err(CanYouRepeat)
  {
    IntentsDistinct();
  }
}
