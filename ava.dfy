/**
 * The ava-intent executor chain: show or hide the page tags, move the overlay to a
 * corner, and open or close a modal. The chain is tried in the order tags, move,
 * modal; when nothing claims, the intent throws.
 */
module Ava {
  import opened Text
  import opened Lexicon
  import opened Commands
  import opened Effects
  import opened Options

  /** Some noun's type is a substring of the tag alias string. */
  predicate HasTagNoun(ns: seq<Noun>) {
    exists i :: 0 <= i < |ns| && Contains(NounTag, ns[i].noun.kind)
  }

  /** `executeTags` claims. */
  predicate TagsClaims(c: Command) {
    c.nouns.Some? && HasTagNoun(c.nouns.value)
  }

  /** The tags are shown and rendered unless the verb is close. */
  function TagsView(c: Command, v: UiView): UiView {
    var visible := c.verb != Some(VerbClose);
    v.(showTag := visible, renderTag := visible)
  }

  /** `executeTags`: open shows, close hides, and any other verb shows. */
  method ExecuteTags(c: Command, ui: UiState) returns (claimed: bool)
    modifies ui
    ensures claimed == TagsClaims(c)
    ensures ui.View() == if claimed then TagsView(c, old(ui.View())) else old(ui.View())
  {
    if c.nouns.Some? && HasTagNoun(c.nouns.value) {
      if c.verb == Some(VerbOpen) {
        ui.SetShowTag(true);
        ui.SetRenderTag(true);
        return true;
      }
      if c.verb == Some(VerbClose) {
        ui.SetShowTag(false);
        ui.SetRenderTag(false);
        return true;
      }
      ui.SetShowTag(true);
      ui.SetRenderTag(true);
      return true;
    }
    return false;
  }

  /** The first corner noun, if any. */
  function CornerOf(c: Command): Option<Noun> {
    if c.nouns.Some? then FirstOfKind(c.nouns.value, NounCorner) else None
  }

  /** `executeAvaMove` claims: verb move, unless the first corner noun names no known corner. */
  predicate MoveClaims(c: Command) {
    c.verb == Some(VerbMove) && !(CornerOf(c).Some? && CornerOf(c).value.noun.value !in AvaPositions)
  }

  /**
   * `executeAvaMove`: a named corner moves the overlay there; without a corner noun a
   * corner is picked at random (any of the four); an unknown corner declines.
   */
  method ExecuteAvaMove(c: Command, ui: UiState) returns (claimed: bool)
    modifies ui
    ensures claimed == MoveClaims(c)
    ensures claimed && CornerOf(c).Some? ==> ui.View() == old(ui.View()).(avaPosition := CornerOf(c).value.noun.value)
    ensures claimed && CornerOf(c).None? ==>
      ui.avaPosition in AvaPositions && ui.View() == old(ui.View()).(avaPosition := ui.avaPosition)
    ensures !claimed ==> ui.View() == old(ui.View())
  {
    if c.verb == Some(VerbMove) {
      if c.nouns.Some? {
        var corner := FirstOfKind(c.nouns.value, NounCorner);
        if corner.Some? {
          var value := corner.value.noun.value;
          if value == TopLeft {
            ui.SetAvaPosition(TopLeft);
          } else if value == TopRight {
            ui.SetAvaPosition(TopRight);
          } else if value == BottomRight {
            ui.SetAvaPosition(BottomRight);
          } else if value == BottomLeft {
            ui.SetAvaPosition(BottomLeft);
          } else {
            return false;
          }
          return true;
        }
      }
      var index: nat :| index < |AvaPositions|;
      ui.SetAvaPosition(AvaPositions[index]);
      return true;
    }
    return false;
  }

  /** A modal setter call. */
  datatype ModalChange = SetReminder(open: bool) | SetTagModal(open: bool)

  /** The value names the reminder modal: the `modals` alias key of REMINDER contains it. */
  predicate IsReminderAlias(value: string) {
    Contains(Modals[0].0, value)
  }

  /** The value names the tag modal: the `modals` alias key of TAGS contains it. */
  predicate IsTagsAlias(value: string) {
    Contains(Modals[1].0, value)
  }

  /**
   * What `executeModal` is meant to do: with a modal noun and verb open or close, set
   * the reminder when the value names it, else the tag modal when the value names it.
   */
  function ModalChangeOf(c: Command): (r: Option<ModalChange>)
    ensures r.Some? ==> c.nouns.Some? && FirstOfKind(c.nouns.value, NounModal).Some?
    ensures r.Some? ==> (c.verb == Some(VerbOpen) || c.verb == Some(VerbClose)) && r.value.open == (c.verb == Some(VerbOpen))
  {
    if c.nouns.None? then None
    else
      match FirstOfKind(c.nouns.value, NounModal)
      case None => None
      case Some(modal) =>
        var value := modal.noun.value;
        if c.verb == Some(VerbOpen) && IsReminderAlias(value) then Some(SetReminder(true))
        else if c.verb == Some(VerbOpen) && IsTagsAlias(value) then Some(SetTagModal(true))
        else if c.verb == Some(VerbClose) && IsReminderAlias(value) then Some(SetReminder(false))
        else if c.verb == Some(VerbClose) && IsTagsAlias(value) then Some(SetTagModal(false))
        else None
  }

  function ApplyModal(v: UiView, change: Option<ModalChange>): UiView {
    match change
    case None => v
    case Some(SetReminder(open)) => v.(reminderOpen := open)
    case Some(SetTagModal(open)) => v.(tagModalOpen := open)
  }

  /** `executeModal`, with "is a reminder/tags alias" read through the `modals` table. */
  method ExecuteModal(c: Command, ui: UiState) returns (claimed: bool)
    modifies ui
    ensures claimed == ModalChangeOf(c).Some?
    ensures ui.View() == ApplyModal(old(ui.View()), ModalChangeOf(c))
  {
    if c.nouns.Some? {
      var modal := FirstOfKind(c.nouns.value, NounModal);
      if c.verb == Some(VerbOpen) && modal.Some? {
        if IsReminderAlias(modal.value.noun.value) {
          ui.SetIsReminderOpen(true);
          return true;
        }
        if IsTagsAlias(modal.value.noun.value) {
          ui.OpenTagModal();
          return true;
        }
      }
      if c.verb == Some(VerbClose) && modal.Some? {
        if IsReminderAlias(modal.value.noun.value) {
          ui.SetIsReminderOpen(false);
          return true;
        }
        if IsTagsAlias(modal.value.noun.value) {
          ui.CloseTagModal();
          return true;
        }
      }
    }
    return false;
  }

  /**
   * `executeModal` as written: `MODAL_TYPES.REMINDER` is the number 0, which has no
   * `includes`, so reaching that test throws.
   */
  function ExecuteModalAsWritten(c: Command): (r: Claim)
    ensures r.Threw? <==>
      c.nouns.Some? && FirstOfKind(c.nouns.value, NounModal).Some? &&
      (c.verb == Some(VerbOpen) || c.verb == Some(VerbClose))
    ensures !r.Handled?
  {
    if c.nouns.Some? && FirstOfKind(c.nouns.value, NounModal).Some? &&
       (c.verb == Some(VerbOpen) || c.verb == Some(VerbClose)) then
      Threw(TypeError)
    else NotApplicable
  }

  /** The UI change of one run of the chain; a random corner may be any of the four. */
  ghost predicate AvaTransition(c: Command, before: UiView, after: UiView) {
    if TagsClaims(c) then after == TagsView(c, before)
    else if MoveClaims(c) then
      after.avaPosition in AvaPositions && after == before.(avaPosition := after.avaPosition) &&
      (CornerOf(c).Some? ==> after.avaPosition == CornerOf(c).value.noun.value)
    else after == ApplyModal(before, ModalChangeOf(c))
  }

  /** `handleAvaIntent`: runs tags, move, modal until one claims; throws when none does. */
  method HandleAvaIntent(verbOf: VerbResolver, segment: Segment, ui: UiState) returns (r: Result<()>)
    modifies ui
    ensures segment.entities == [] ==> r == Err(RepeatThat) && ui.View() == old(ui.View())
    ensures segment.entities != [] && Construct(verbOf, segment.entities).Err? ==>
      r == Err(RepeatThat) && ui.View() == old(ui.View())
    ensures segment.entities != [] && Construct(verbOf, segment.entities).Ok? ==>
      var c := Construct(verbOf, segment.entities).value;
      && (r.Ok? <==> TagsClaims(c) || MoveClaims(c) || ModalChangeOf(c).Some?)
      && (r.Err? ==> r.message == RepeatThat)
      && AvaTransition(c, old(ui.View()), ui.View())
  {
    if |segment.entities| <= 0 {
      return Err(RepeatThat);
    }
    var built := ConstructCommand(verbOf, segment);
    if built.Err? {
      ConstructFailsIff(verbOf, segment.entities);
      return Err(built.message);
    }
    var c := built.value;
    var claimed := ExecuteTags(c, ui);
    if claimed {
      return Ok(());
    }
    claimed := ExecuteAvaMove(c, ui);
    if claimed {
      AvaPositionsAreTheFourCorners();
      return Ok(());
    }
    claimed := ExecuteModal(c, ui);
    if claimed {
      return Ok(());
    }
    return Err(RepeatThat);
  }

  /**
   * `handleAvaIntent` as the code stands: the chain runs the modal executor as written,
   * so where tags and move decline, a modal noun with open or close throws a TypeError
   * and leaves the UI as it was, even where the corrected chain opens or closes a modal.
   */
  method HandleAvaIntentAsWritten(verbOf: VerbResolver, segment: Segment, ui: UiState) returns (r: Result<()>)
    modifies ui
    ensures segment.entities == [] ==> r == Err(RepeatThat) && ui.View() == old(ui.View())
    ensures segment.entities != [] && Construct(verbOf, segment.entities).Err? ==>
      r == Err(RepeatThat) && ui.View() == old(ui.View())
    ensures segment.entities != [] && Construct(verbOf, segment.entities).Ok? ==>
      var c := Construct(verbOf, segment.entities).value;
      && (r.Ok? <==> TagsClaims(c) || MoveClaims(c))
      && (r.Ok? ==> AvaTransition(c, old(ui.View()), ui.View()))
      && (r.Err? ==> ui.View() == old(ui.View()))
      && (r.Err? ==> r.message == if ExecuteModalAsWritten(c).Threw? then TypeError else RepeatThat)
      && (!TagsClaims(c) && !MoveClaims(c) && ModalChangeOf(c).Some? ==> r == Err(TypeError))
  {
    if |segment.entities| <= 0 {
      return Err(RepeatThat);
    }
    var built := ConstructCommand(verbOf, segment);
    if built.Err? {
      ConstructFailsIff(verbOf, segment.entities);
      return Err(built.message);
    }
    var c := built.value;
    var claimed := ExecuteTags(c, ui);
    if claimed {
      return Ok(());
    }
    claimed := ExecuteAvaMove(c, ui);
    if claimed {
      AvaPositionsAreTheFourCorners();
      return Ok(());
    }
    var modal := ExecuteModalAsWritten(c);
    if modal.Threw? {
      return Err(modal.message);
    }
    return Err(RepeatThat);
  }

  // ---- Properties --------------------------------------------------------------

  /**
   * For a constructed command, the tags executor fires exactly when some noun has the
   * whole tag alias string as its type: noun types are exact category values, and no
   * other category value is a substring of the tag aliases.
   */
  lemma TagsFireOnlyForTheTagCategory(verbOf: VerbResolver, es: seq<Entity>)
    requires Construct(verbOf, es).Ok?
    ensures var c := Construct(verbOf, es).value;
      TagsClaims(c) <==> c.nouns.Some? && exists k :: 0 <= k < |c.nouns.value| && c.nouns.value[k].noun.kind == NounTag
  {
    var c := Construct(verbOf, es).value;
    ConstructedNounKinds(verbOf, es);
    if c.nouns.Some? {
      var ns := c.nouns.value;
      assert NounList(c.nouns) == ns;
      forall k | 0 <= k < |ns|
        ensures Contains(NounTag, ns[k].noun.kind) <==> ns[k].noun.kind == NounTag
      {
        OnlyTagAliasInsideTagAlias(ns[k].noun.kind);
      }
    }
  }

  /** "modal" is an alias of both modals; the reminder is checked first, so it wins. */
  lemma SharedModalAliasOpensReminder(c: Command)
    requires c.verb == Some(VerbOpen) && c.nouns.Some?
    requires FirstOfKind(c.nouns.value, NounModal).Some? && FirstOfKind(c.nouns.value, NounModal).value.noun.value == "modal"
    ensures IsReminderAlias("modal") && IsTagsAlias("modal")
    ensures ModalChangeOf(c) == Some(SetReminder(true))
  {
    assert OccursAt(Modals[0].0, "modal", 19);
    assert OccursAt(Modals[1].0, "modal", 13);
  }

  /** The reminder-first order is the `modals` table's order: the change follows `ModalTypeOf`. */
  lemma ModalChangeFollowsModalsTable(c: Command)
    requires ModalChangeOf(c).Some?
    ensures var value := FirstOfKind(c.nouns.value, NounModal).value.noun.value;
      match ModalChangeOf(c).value
      case SetReminder(_) => ModalTypeOf(value) == Some(Reminder)
      case SetTagModal(_) => ModalTypeOf(value) == Some(Tags)
  {
    var value := FirstOfKind(c.nouns.value, NounModal).value.noun.value;
    if ModalChangeOf(c).value.SetReminder? {
      ModalTypeAt(value, 0);
    } else {
      ModalTypeAt(value, 1);
    }
  }

  /** Wherever the intended modal executor acts, the code as written throws instead. */
  lemma ModalAsWrittenThrows(c: Command)
    requires ModalChangeOf(c).Some?
    ensures ExecuteModalAsWritten(c) == Threw(TypeError)
  {
  }

  /** "open reminder": intended to open the reminder, as written a TypeError. */
  lemma OpenReminderWitness()
    ensures var c := Command(Some(VerbOpen), Some([Noun(Word(NounModal, "reminder"), None)]));
      && ModalChangeOf(c) == Some(SetReminder(true))
      && ExecuteModalAsWritten(c) == Threw(TypeError)
  {
    var c := Command(Some(VerbOpen), Some([Noun(Word(NounModal, "reminder"), None)]));
    assert OccursAt(Modals[0].0, "reminder", 10);
    assert FirstOfKind(c.nouns.value, NounModal) == Some(Noun(Word(NounModal, "reminder"), None));
  }
}
