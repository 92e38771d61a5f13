/**
 * The page-intent executor chain: navigation requests go to the relay, "move" scrolls
 * the window by a direction or to a position, and an index noun sets the context
 * index. The chain is tried in the order navigation, scroll, index; when nothing
 * claims, the intent returns normally.
 */
module Page {
  import opened Text
  import opened Lexicon
  import opened Commands
  import opened Effects
  import opened Options

  const PositionError := "I'm sorry could you repeat that"
  const DirectionError := "I could not understand, can you repeat that?"

  /** The height "bottom" scrolls to: the body's, or the tallest child's when the body reports 0. */
  function MaxHeight(doc: Document): int {
    if doc.bodyScrollHeight == 0 then doc.maxChildScrollHeight else doc.bodyScrollHeight
  }

  /** The `window.scrollTo` call of `handlePositionScroll`, or its error. */
  function PositionScroll(position: string, doc: Document): Result<Effect> {
    if position == "top" then Ok(ScrollTo(Some(0.0)))
    else if position == "bottom" then Ok(ScrollTo(Some(MaxHeight(doc) as real)))
    else Err(PositionError)
  }

  /** The `window.scrollBy` call of `handleDirectionScroll`, or its error. */
  function DirectionScroll(direction: string, doc: Document): Result<Effect> {
    var vertical := doc.viewportHeight / 2.0;
    var horizontal := doc.viewportWidth / 2.0;
    if direction == "up" then Ok(ScrollBy(-vertical, 0.0))
    else if direction == "down" then Ok(ScrollBy(vertical, 0.0))
    else if direction == "left" then Ok(ScrollBy(0.0, -horizontal))
    else if direction == "right" then Ok(ScrollBy(0.0, horizontal))
    else Err(DirectionError)
  }

  /** `handlePositionScroll`: hides the tags first, then builds the scroll options. */
  method HandlePositionScroll(position: string, ui: UiState, doc: Document) returns (r: Result<Effect>)
    modifies ui
    ensures r == PositionScroll(position, doc)
    ensures ui.View() == old(ui.View()).(showTag := false)
  {
    ui.SetShowTag(false);
    var maxHeight := doc.bodyScrollHeight;
    if maxHeight == 0 {
      maxHeight := doc.maxChildScrollHeight;
    }
    var top: Option<real> := None;
    if position == "top" {
      top := Some(0.0);
    } else if position == "bottom" {
      top := Some(maxHeight as real);
    } else {
      return Err(PositionError);
    }
    return Ok(ScrollTo(top));
  }

  /** `handleDirectionScroll`: hides the tags first, then builds the scroll options. */
  method HandleDirectionScroll(direction: string, ui: UiState, doc: Document) returns (r: Result<Effect>)
    modifies ui
    ensures r == DirectionScroll(direction, doc)
    ensures ui.View() == old(ui.View()).(showTag := false)
  {
    ui.SetShowTag(false);
    var verticalIncrement := doc.viewportHeight / 2.0;
    var horizontalIncrement := doc.viewportWidth / 2.0;
    var top, left := 0.0, 0.0;
    if direction == "up" {
      top := -verticalIncrement;
    } else if direction == "down" {
      top := verticalIncrement;
    } else if direction == "left" {
      left := -horizontalIncrement;
    } else if direction == "right" {
      left := horizontalIncrement;
    } else {
      return Err(DirectionError);
    }
    return Ok(ScrollBy(top, left));
  }

  predicate HasPageNoun(ns: seq<Noun>) {
    exists i :: 0 <= i < |ns| && ns[i].noun.kind == NounPage
  }

  /** Some page noun carries an adjective of type previous. */
  predicate HasPreviousPage(ns: seq<Noun>) {
    exists i :: 0 <= i < |ns| && ns[i].noun.kind == NounPage &&
      ns[i].adjective.Some? && ns[i].adjective.value.kind == "previous"
  }

  /**
   * `executeNavigation`: forwards the command to the relay when the verb is open and
   * there are no nouns or a page noun, or, whatever the verb, when a page noun is
   * "previous".
   */
  function ExecuteNavigation(c: Command): (r: Claim)
    ensures r.Handled? <==>
      (c.verb == Some(VerbOpen) && (c.nouns.None? || HasPageNoun(c.nouns.value))) ||
      (c.nouns.Some? && HasPreviousPage(c.nouns.value))
    ensures r.Handled? ==> r.effects == [SendMessage(CommandMessage(IntentNavigation, c))]
    ensures !r.Threw?
  {
    if c.verb == Some(VerbOpen) && (c.nouns.None? || HasPageNoun(c.nouns.value)) then
      Handled([SendMessage(CommandMessage(IntentNavigation, c))])
    else if c.nouns.Some? && HasPreviousPage(c.nouns.value) then
      Handled([SendMessage(CommandMessage(IntentNavigation, c))])
    else NotApplicable
  }

  /** A handler's result as an executor outcome: its one effect, or its throw. */
  function AsClaim(r: Result<Effect>): Claim {
    match r
    case Ok(e) => Handled([e])
    case Err(m) => Threw(m)
  }

  /** What `executeScroll` does: the first direction noun wins, else the first position noun. */
  function ScrollClaim(c: Command, doc: Document): Claim {
    if c.verb == Some(VerbMove) && c.nouns.Some? && |c.nouns.value| > 0 then
      match FirstOfKind(c.nouns.value, NounDirection)
      case Some(d) => AsClaim(DirectionScroll(d.noun.value, doc))
      case None =>
        match FirstOfKind(c.nouns.value, NounPosition)
        case Some(p) => AsClaim(PositionScroll(p.noun.value, doc))
        case None => NotApplicable
    else NotApplicable
  }

  /** `executeScroll`; a handler that throws has already hidden the tags. */
  method ExecuteScroll(c: Command, ui: UiState, doc: Document) returns (claim: Claim)
    modifies ui
    ensures claim == ScrollClaim(c, doc)
    ensures ui.View() == if claim.NotApplicable? then old(ui.View()) else old(ui.View()).(showTag := false)
  {
    if c.verb == Some(VerbMove) && c.nouns.Some? && |c.nouns.value| > 0 {
      var ns := c.nouns.value;
      var directionWord := FirstOfKind(ns, NounDirection);
      if directionWord.Some? {
        var r := HandleDirectionScroll(directionWord.value.noun.value, ui, doc);
        return AsClaim(r);
      }
      var positionWord := FirstOfKind(ns, NounPosition);
      if positionWord.Some? {
        var r := HandlePositionScroll(positionWord.value.noun.value, ui, doc);
        return AsClaim(r);
      }
    }
    return NotApplicable;
  }

  /** What `executeIndex` does: claims on an index-typed first noun; an empty list throws. */
  function IndexClaim(c: Command): Claim {
    match c.nouns
    case None => NotApplicable
    case Some(ns) =>
      if |ns| == 0 then Threw(TypeError)
      else if ns[0].noun.kind == NounIndex then Handled([])
      else NotApplicable
  }

  /** `executeIndex`: sets the context index to `Number` of the first noun's value. */
  method ExecuteIndex(c: Command, ui: UiState) returns (claim: Claim)
    modifies ui
    ensures claim == IndexClaim(c)
    ensures ui.View() ==
      if claim.Handled? then old(ui.View()).(contextIndex := ToNumber(c.nouns.value[0].noun.value))
      else old(ui.View())
  {
    if c.nouns.Some? {
      var ns := c.nouns.value;
      if |ns| == 0 {
        return Threw(TypeError);
      }
      if ns[0].noun.kind == NounIndex {
        ui.SetContextIndex(ToNumber(ns[0].noun.value));
        return Handled([]);
      }
    }
    return NotApplicable;
  }

  /** `commandExecutions`, each applied to the command. */
  function PageClaims(c: Command, doc: Document): seq<Claim> {
    [ExecuteNavigation(c), ScrollClaim(c, doc), IndexClaim(c)]
  }

  /** The UI state after one run of the chain from `v`. */
  function PageView(c: Command, doc: Document, v: UiView): UiView {
    if !ExecuteNavigation(c).NotApplicable? then v
    else if !ScrollClaim(c, doc).NotApplicable? then v.(showTag := false)
    else if IndexClaim(c).Handled? then v.(contextIndex := ToNumber(c.nouns.value[0].noun.value))
    else v
  }

  /** One `commandExecutions.find(...)`: the executors run in order until one claims or throws. */
  method RunPageChain(c: Command, ui: UiState, doc: Document) returns (claim: Claim)
    modifies ui
    ensures claim == FirstClaim(PageClaims(c, doc))
    ensures ui.View() == PageView(c, doc, old(ui.View()))
  {
    var claims := PageClaims(c, doc);
    claim := ExecuteNavigation(c);
    if !claim.NotApplicable? {
      assert FirstClaim(claims) == claims[0];
      return;
    }
    assert FirstClaim(claims) == FirstClaim(claims[1..]);
    assert claims[1..] == [ScrollClaim(c, doc), IndexClaim(c)];
    claim := ExecuteScroll(c, ui, doc);
    if !claim.NotApplicable? {
      return;
    }
    assert FirstClaim(claims[1..]) == FirstClaim(claims[1..][1..]);
    assert claims[1..][1..] == [IndexClaim(c)];
    assert claims[1..][1..][1..] == [];
    claim := ExecuteIndex(c, ui);
  }

  /** What `handlePageIntent` returns or throws, with the window effects of the claim. */
  function PageOutcome(verbOf: VerbResolver, segment: Segment, doc: Document): Result<seq<Effect>> {
    if |segment.entities| <= 0 then Err(RepeatThat)
    else
      var c :- Construct(verbOf, segment.entities);
      match FirstClaim(PageClaims(c, doc))
      case Handled(effects) => Ok(effects)
      case NotApplicable => Ok([])
      case Threw(m) => Err(m)
  }

  /** `handlePageIntent`: when the first run finds no claim, the chain runs once more. */
  method HandlePageIntent(verbOf: VerbResolver, segment: Segment, ui: UiState, doc: Document)
    returns (r: Result<seq<Effect>>)
    modifies ui
    ensures r == PageOutcome(verbOf, segment, doc)
    ensures ui.View() ==
      if segment.entities != [] && Construct(verbOf, segment.entities).Ok? then
        PageView(Construct(verbOf, segment.entities).value, doc, old(ui.View()))
      else old(ui.View())
  {
    if |segment.entities| <= 0 {
      return Err(RepeatThat);
    }
    var built := ConstructCommand(verbOf, segment);
    if built.Err? {
      return Err(built.message);
    }
    var c := built.value;
    var claim := RunPageChain(c, ui, doc);
    if !claim.NotApplicable? {
      return if claim.Handled? then Ok(claim.effects) else Err(claim.message);
    }
    claim := RunPageChain(c, ui, doc);
    return Ok([]);
  }

  // ---- Properties --------------------------------------------------------------

  /** up/down move vertically by half the viewport height, left/right horizontally by half its width. */
  lemma DirectionScrollAxes(direction: string, doc: Document)
    ensures DirectionScroll(direction, doc).Ok? <==> direction in ["up", "down", "left", "right"]
    ensures DirectionScroll(direction, doc).Err? ==> DirectionScroll(direction, doc).message == DirectionError
    ensures direction == "up" ==> DirectionScroll(direction, doc) == Ok(ScrollBy(-(doc.viewportHeight / 2.0), 0.0))
    ensures direction == "down" ==> DirectionScroll(direction, doc) == Ok(ScrollBy(doc.viewportHeight / 2.0, 0.0))
    ensures direction == "left" ==> DirectionScroll(direction, doc) == Ok(ScrollBy(0.0, -(doc.viewportWidth / 2.0)))
    ensures direction == "right" ==> DirectionScroll(direction, doc) == Ok(ScrollBy(0.0, doc.viewportWidth / 2.0))
  {
  }

  /** top goes to 0; bottom to the body's height, or the tallest child's when the body reports 0. */
  lemma PositionScrollTargets(position: string, doc: Document)
    ensures PositionScroll(position, doc).Ok? <==> position == "top" || position == "bottom"
    ensures PositionScroll(position, doc).Err? ==> PositionScroll(position, doc).message == PositionError
    ensures position == "top" ==> PositionScroll(position, doc) == Ok(ScrollTo(Some(0.0)))
    ensures position == "bottom" && doc.bodyScrollHeight != 0 ==>
      PositionScroll(position, doc) == Ok(ScrollTo(Some(doc.bodyScrollHeight as real)))
    ensures position == "bottom" && doc.bodyScrollHeight == 0 ==>
      PositionScroll(position, doc) == Ok(ScrollTo(Some(doc.maxChildScrollHeight as real)))
  {
  }

  /** A direction noun takes precedence over a position noun, whichever comes first. */
  lemma DirectionBeatsPosition(c: Command, doc: Document, i: nat, j: nat)
    requires c.verb == Some(VerbMove) && c.nouns.Some?
    requires i < |c.nouns.value| && c.nouns.value[i].noun.kind == NounDirection
    requires j < |c.nouns.value| && c.nouns.value[j].noun.kind == NounPosition
    ensures FirstOfKind(c.nouns.value, NounDirection).Some?
    ensures ScrollClaim(c, doc) == AsClaim(DirectionScroll(FirstOfKind(c.nouns.value, NounDirection).value.noun.value, doc))
  {
  }

  /** Scroll claims only for verb move with at least one direction or position noun. */
  lemma ScrollClaimsOnlyOnMove(c: Command, doc: Document)
    ensures !ScrollClaim(c, doc).NotApplicable? <==>
      c.verb == Some(VerbMove) && c.nouns.Some? &&
      (FirstOfKind(c.nouns.value, NounDirection).Some? || FirstOfKind(c.nouns.value, NounPosition).Some?)
  {
  }

  /** A page noun with the adjective previous navigates back whatever the verb. */
  lemma PreviousPageNavigates(c: Command, doc: Document, v: UiView)
    requires c.nouns.Some? && HasPreviousPage(c.nouns.value)
    ensures PageView(c, doc, v) == v
    ensures FirstClaim(PageClaims(c, doc)) == Handled([SendMessage(CommandMessage(IntentNavigation, c))])
  {
  }

  /** Executors are pure in the UI state, so a chain that claimed nothing changed nothing. */
  lemma UnclaimedChainLeavesStateAlone(c: Command, doc: Document, v: UiView)
    requires FirstClaim(PageClaims(c, doc)).NotApplicable?
    ensures PageView(c, doc, v) == v
  {
    assert PageClaims(c, doc)[0] == ExecuteNavigation(c);
    assert PageClaims(c, doc)[1] == ScrollClaim(c, doc);
    assert PageClaims(c, doc)[2] == IndexClaim(c);
  }

  /** When nothing claims, the page intent returns normally with no effect. */
  lemma UnclaimedPageIntentReturns(verbOf: VerbResolver, segment: Segment, doc: Document)
    requires segment.entities != [] && Construct(verbOf, segment.entities).Ok?
    requires var c := Construct(verbOf, segment.entities).value;
      ExecuteNavigation(c).NotApplicable? && ScrollClaim(c, doc).NotApplicable? && IndexClaim(c).NotApplicable?
    ensures PageOutcome(verbOf, segment, doc) == Ok([])
  {
    var c := Construct(verbOf, segment.entities).value;
    assert PageClaims(c, doc)[1..] == [ScrollClaim(c, doc), IndexClaim(c)];
    assert PageClaims(c, doc)[1..][1..] == [IndexClaim(c)];
  }

  /**
   * For a constructed command the index executor claims exactly on an index-typed
   * first noun, never throws, and sets the index to that noun's number.
   */
  lemma IndexOnConstructedCommand(verbOf: VerbResolver, es: seq<Entity>)
    requires Construct(verbOf, es).Ok?
    ensures var c := Construct(verbOf, es).value;
      && !IndexClaim(c).Threw?
      && (IndexClaim(c).Handled? <==> c.nouns.Some? && c.nouns.value[0].noun.kind == NounIndex)
  {
    NounsFollowNounEntities(verbOf, es);
  }
}
