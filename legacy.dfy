/**
 * The earlier intent processor: "open_website" navigates to the lower-cased first
 * entity with ".com" appended, and "scroll" moves the window by fixed increments or
 * to the top or bottom, dispatching on the first entity's type alone.
 */
module Legacy {
  import opened Text
  import opened Lexicon
  import opened Commands
  import opened Effects
  import Page

  const VerticalIncrement := 500
  const HorizontalIncrement := 250

  /** The `window.scrollTo` call of `handlePositionScroll`; an unknown position carries no top. */
  function PositionScroll(position: string, doc: Document): Effect {
    if position == "top" then ScrollTo(Some(0.0))
    else if position == "bottom" then ScrollTo(Some(Page.MaxHeight(doc) as real))
    else ScrollTo(None)
  }

  /** `handlePositionScroll`, reassigning its `maxHeight` and `scrollOptions` locals. */
  method HandlePositionScroll(position: string, doc: Document) returns (r: Effect)
    ensures r == PositionScroll(position, doc)
  {
    var maxHeight := doc.bodyScrollHeight;
    if maxHeight == 0 {
      maxHeight := doc.maxChildScrollHeight;
    }
    var top: Option<real> := None;
    if position == "top" {
      top := Some(0.0);
    } else if position == "bottom" {
      top := Some(maxHeight as real);
    }
    r := ScrollTo(top);
  }

  /** The `window.scrollBy` call of `handleDirectionScroll`; an unknown direction scrolls by nothing. */
  function DirectionScroll(direction: string): Effect {
    if direction == "up" then ScrollBy(-VerticalIncrement as real, 0.0)
    else if direction == "down" then ScrollBy(VerticalIncrement as real, 0.0)
    else if direction == "left" then ScrollBy(0.0, -HorizontalIncrement as real)
    else if direction == "right" then ScrollBy(0.0, HorizontalIncrement as real)
    else ScrollBy(0.0, 0.0)
  }

  /** `handleDirectionScroll`, starting from top 0 and left 0 and overriding one of them. */
  method HandleDirectionScroll(direction: string) returns (r: Effect)
    ensures r == DirectionScroll(direction)
  {
    var top: int := 0;
    var left: int := 0;
    if direction == "up" {
      top := -VerticalIncrement;
    } else if direction == "down" {
      top := VerticalIncrement;
    } else if direction == "left" {
      left := -HorizontalIncrement;
    } else if direction == "right" {
      left := HorizontalIncrement;
    }
    r := ScrollBy(top as real, left as real);
  }

  /**
   * `handleScrollIntent`: the first entity's type picks the scroll; reading the first
   * entity of an empty list throws.
   */
  function HandleScrollIntent(entities: seq<Entity>, doc: Document): (r: Result<seq<Effect>>)
    ensures r.Err? <==> entities == []
    ensures r.Ok? ==> |r.value| <= 1
    ensures r.Ok? && r.value != [] ==>
      (entities[0].kind == NounPosition && r.value == [PositionScroll(Lower(entities[0].value), doc)]) ||
      (entities[0].kind == NounDirection && r.value == [DirectionScroll(Lower(entities[0].value))])
    ensures entities != [] && entities[0].kind == NounPosition ==>
      r == Ok([PositionScroll(Lower(entities[0].value), doc)])
    ensures entities != [] && entities[0].kind == NounDirection ==>
      r == Ok([DirectionScroll(Lower(entities[0].value))])
  {
    if entities == [] then Err(TypeError)
    else if entities[0].kind == NounPosition then Ok([PositionScroll(Lower(entities[0].value), doc)])
    else if entities[0].kind == NounDirection then Ok([DirectionScroll(Lower(entities[0].value))])
    else Ok([])
  }

  /** `processSegment` of the earlier processor. */
  function ProcessSegment(segment: Segment, doc: Document): (r: Result<seq<Effect>>)
    ensures r.Err? <==> segment.intent in [IntentOpenWebsite, IntentScroll] && segment.entities == []
    ensures segment.intent !in [IntentOpenWebsite, IntentScroll] ==> r == Ok([])
    ensures segment.intent == IntentScroll ==> r == HandleScrollIntent(segment.entities, doc)
    ensures segment.intent == IntentOpenWebsite && r.Ok? ==>
      |r.value| == 1 && r.value[0].SetLocation? &&
      var url := r.value[0].url;
      && |url| == 8 + |segment.entities[0].value| + 4
      && url[..8] == "https://"
      && url[8..|url| - 4] == Lower(segment.entities[0].value)
      && url[|url| - 4..] == ".com"
  {
    if segment.intent == IntentOpenWebsite then
      if segment.entities == [] then Err(TypeError)
      else Ok([SetLocation("https://" + Lower(segment.entities[0].value) + ".com")])
    else if segment.intent == IntentScroll then HandleScrollIntent(segment.entities, doc)
    else Ok([])
  }

  /** Only the first entity matters to a scroll: whatever follows it is ignored. */
  lemma ScrollReadsFirstEntityOnly(e: Entity, rest: seq<Entity>, doc: Document)
    ensures ProcessSegment(Segment(IntentScroll, [e] + rest), doc) == ProcessSegment(Segment(IntentScroll, [e]), doc)
  {
    IntentsDistinct();
    assert ([e] + rest)[0] == e;
  }

  /** A scroll whose first entity is neither a position nor a direction does nothing. */
  lemma OtherFirstEntityDoesNothing(es: seq<Entity>, doc: Document)
    requires es != [] && es[0].kind != NounPosition && es[0].kind != NounDirection
    ensures ProcessSegment(Segment(IntentScroll, es), doc) == Ok([])
  {
    IntentsDistinct();
  }

  /** The sign of a scroll offset. */
  function Sign(x: real): int {
    if x < 0.0 then -1 else if x > 0.0 then 1 else 0
  }

  /**
   * For the four known directions the earlier processor scrolls along the same axis
   * and in the same direction as the page executor (which scrolls half the viewport);
   * an unknown direction is a zero scroll here and an error there.
   */
  lemma DirectionAgreesWithPage(direction: string, doc: Document)
    requires doc.viewportHeight > 0.0 && doc.viewportWidth > 0.0
    ensures Page.DirectionScroll(direction, doc).Ok? ==>
      var now := Page.DirectionScroll(direction, doc).value;
      var before := DirectionScroll(direction);
      Sign(before.dy) == Sign(now.dy) && Sign(before.dx) == Sign(now.dx)
    ensures Page.DirectionScroll(direction, doc).Err? ==> DirectionScroll(direction) == ScrollBy(0.0, 0.0)
  {
    Page.DirectionScrollAxes(direction, doc);
  }

  /**
   * For top and bottom both processors scroll to the same place; an unknown position
   * is a scroll without a target here and an error there.
   */
  lemma PositionAgreesWithPage(position: string, doc: Document)
    ensures Page.PositionScroll(position, doc).Ok? ==> PositionScroll(position, doc) == Page.PositionScroll(position, doc).value
    ensures Page.PositionScroll(position, doc).Err? ==> PositionScroll(position, doc) == ScrollTo(None)
  {
    Page.PositionScrollTargets(position, doc);
  }

  /** "Up" scrolls 500 up and "RIGHT" 250 right, once lower-cased. */
  lemma CaseInsensitiveScroll(rest: seq<Entity>, doc: Document)
    ensures ProcessSegment(Segment(IntentScroll, [Entity(NounDirection, "Up")] + rest), doc) ==
      Ok([ScrollBy(-500.0, 0.0)])
    ensures ProcessSegment(Segment(IntentScroll, [Entity(NounDirection, "RIGHT")] + rest), doc) ==
      Ok([ScrollBy(0.0, 250.0)])
  {
    ScrollReadsFirstEntityOnly(Entity(NounDirection, "Up"), rest, doc);
    ScrollReadsFirstEntityOnly(Entity(NounDirection, "RIGHT"), rest, doc);
    assert Lower("Up") == "up";
    assert Lower("RIGHT") == "right";
  }
}
