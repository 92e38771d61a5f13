/**
 * The assistant's constant tables: intent labels, entity types, the noun, adjective,
 * verb and modal alias tables, the four overlay corners and the search dispositions.
 * Tables whose declaration order matters (`Object.keys`/`Object.values` walk it) are
 * sequences in that order.
 */
module Lexicon {
  import opened Text

  // INTENTS
  const IntentOpenWebsite := "open_website"
  const IntentScroll := "scroll"
  const IntentTags := "tags"
  const IntentRefresh := "refresh"
  const IntentTab := "tabs"
  const IntentIndex := "index"
  const IntentNavigation := "navigation"
  const IntentSearch := "search"
  const IntentDictation := "dictation"
  const IntentSubmit := "submit"
  const IntentAvaMove := "ava_move"
  const IntentModal := "modal"
  const IntentBrowser := "browser"
  const IntentPage := "page"
  const IntentAva := "ava"

  const Intents: seq<string> := [
    IntentOpenWebsite, IntentScroll, IntentTags, IntentRefresh, IntentTab,
    IntentIndex, IntentNavigation, IntentSearch, IntentDictation, IntentSubmit,
    IntentAvaMove, IntentModal, IntentBrowser, IntentPage, IntentAva
  ]

  // ENTITY_TYPES that are not also noun categories
  const EntityAction := "action"
  const EntityVerb := "verb"
  const EntityAdjective := "adjective"
  const EntityTag := "tag"

  // nouns: category -> the entity type that fills it
  const NounModal := "modal"
  const NounIndex := "index"
  const NounWebsite := "website"
  const NounAva := "ava"
  const NounDate := "date"
  const NounTime := "time"
  const NounBrowser := "browser"
  const NounPage := "page"
  const NounCorner := "corner"
  const NounTag := "tag link tags links"
  const NounForm := "form"
  const NounDirection := "direction"
  const NounPosition := "position"

  /** `Object.values(nouns)`, in declaration order. */
  const NounValues: seq<string> := [
    NounModal, NounIndex, NounWebsite, NounAva, NounDate, NounTime, NounBrowser,
    NounPage, NounCorner, NounTag, NounForm, NounDirection, NounPosition
  ]

  /** `adjectives`: (key, aliases), in declaration order. */
  const Adjectives: seq<(string, string)> := [
    ("new", "new another"),
    ("current", "current this"),
    ("previous", "previous")
  ]

  /** `verbs`: each family's alias string; commands carry these strings as their verb. */
  const VerbMove := "move out scroll"
  const VerbOpen := "open show me go back to navigate"
  const VerbClose := "close hide remove"
  const VerbRefresh := "refresh reload"

  const Verbs: seq<string> := [VerbMove, VerbOpen, VerbClose, VerbRefresh]

  /** MODAL_TYPES */
  datatype ModalType = Reminder | Tags

  /** `modals`: (aliases, modal type), in declaration order. */
  const Modals: seq<(string, ModalType)> := [
    ("reminders reminder modal", Reminder),
    ("tag list tag modal links tags", Tags)
  ]

  // AVA_POSITION
  const TopLeft := "top left"
  const TopRight := "top right"
  const BottomLeft := "bottom left"
  const BottomRight := "bottom right"

  const AvaPositions: seq<string> := [TopLeft, TopRight, BottomLeft, BottomRight]

  datatype Disposition = NewWindow | NewTab | CurrentTab

  /** The first adjective key, in declaration order, whose aliases contain `v`. */
  function AdjectiveKeyOf(v: string): (r: Option<string>)
    ensures r.None? <==> forall i :: 0 <= i < |Adjectives| ==> !Contains(Adjectives[i].1, v)
    ensures r.Some? ==> exists i :: (0 <= i < |Adjectives| && r.value == Adjectives[i].0 &&
      Contains(Adjectives[i].1, v) && forall j :: 0 <= j < i ==> !Contains(Adjectives[j].1, v))
  {
    var aliases := [Adjectives[0].1, Adjectives[1].1, Adjectives[2].1];
    assert forall i :: 0 <= i < |Adjectives| ==> aliases[i] == Adjectives[i].1;
    match FindAlias(aliases, v)
    case None => None
    case Some(i) => Some(Adjectives[i].0)
  }

  /** The modal a value names: that of the first alias key of `modals` containing it. */
  function ModalTypeOf(v: string): (r: Option<ModalType>)
    ensures r.None? <==> forall i :: 0 <= i < |Modals| ==> !Contains(Modals[i].0, v)
    ensures r.Some? ==> exists i :: (0 <= i < |Modals| && r.value == Modals[i].1 &&
      Contains(Modals[i].0, v) && forall j :: 0 <= j < i ==> !Contains(Modals[j].0, v))
  {
    var aliases := [Modals[0].0, Modals[1].0];
    assert forall i :: 0 <= i < |Modals| ==> aliases[i] == Modals[i].0;
    match FindAlias(aliases, v)
    case None => None
    case Some(i) => Some(Modals[i].1)
  }

  /** Lookup by the first matching alias: fixing which alias matches first fixes the key. */
  lemma AdjectiveKeyAt(v: string, i: nat)
    requires i < |Adjectives| && Contains(Adjectives[i].1, v)
    requires forall j :: 0 <= j < i ==> !Contains(Adjectives[j].1, v)
    ensures AdjectiveKeyOf(v) == Some(Adjectives[i].0)
  {
  }

  lemma ModalTypeAt(v: string, i: nat)
    requires i < |Modals| && Contains(Modals[i].0, v)
    requires forall j :: 0 <= j < i ==> !Contains(Modals[j].0, v)
    ensures ModalTypeOf(v) == Some(Modals[i].1)
  {
  }

  /** Noun category values are pairwise distinct. */
  lemma NounValuesDistinct()
    ensures forall i, j :: 0 <= i < j < |NounValues| ==> NounValues[i] != NounValues[j]
  {
  }

  /** No noun category value is the type of a verb, adjective, action or bare tag entity. */
  lemma NounValuesExcludeOtherTypes()
    ensures EntityVerb !in NounValues && EntityAdjective !in NounValues
    ensures EntityAction !in NounValues && EntityTag !in NounValues
  {
  }

  /** The four verb families have pairwise distinct alias strings. */
  lemma VerbFamiliesDistinct()
    ensures forall i, j :: 0 <= i < j < |Verbs| ==> Verbs[i] != Verbs[j]
  {
  }

  /** Intent labels are pairwise distinct. */
  lemma IntentsDistinct()
    ensures forall i, j :: 0 <= i < j < |Intents| ==> Intents[i] != Intents[j]
  {
  }

  /** The overlay corners: four distinct entries in the order of AVA_POSITION. */
  lemma AvaPositionsAreTheFourCorners()
    ensures AvaPositions == [TopLeft, TopRight, BottomLeft, BottomRight]
    ensures forall i, j :: 0 <= i < j < |AvaPositions| ==> AvaPositions[i] != AvaPositions[j]
  {
  }

  /** Adjective keys are new, current, previous in that order. */
  lemma AdjectiveKeysInOrder()
    ensures |Adjectives| == 3
    ensures Adjectives[0].0 == "new" && Adjectives[1].0 == "current" && Adjectives[2].0 == "previous"
  {
  }

  /** "another" is an alias only of new. */
  lemma AnotherOnlyUnderNew()
    ensures Contains(Adjectives[0].1, "another")
    ensures !Contains(Adjectives[1].1, "another") && !Contains(Adjectives[2].1, "another")
    ensures AdjectiveKeyOf("another") == Some("new")
  {
    assert OccursAt(Adjectives[0].1, "another", 4);
    MissingCharNotContained(Adjectives[1].1, "another", 'a');
    MissingCharNotContained(Adjectives[2].1, "another", 'a');
    AdjectiveKeyAt("another", 0);
  }

  /** "this" is an alias only of current. */
  lemma ThisOnlyUnderCurrent()
    ensures Contains(Adjectives[1].1, "this")
    ensures !Contains(Adjectives[0].1, "this") && !Contains(Adjectives[2].1, "this")
    ensures AdjectiveKeyOf("this") == Some("current")
  {
    assert OccursAt(Adjectives[1].1, "this", 8);
    MissingCharNotContained(Adjectives[0].1, "this", 'i');
    MissingCharNotContained(Adjectives[2].1, "this", 't');
    AdjectiveKeyAt("this", 1);
  }

  /** Adjective lookup is by substring: "the" (inside "another") resolves to new. */
  lemma SubstringAdjectiveLookup()
    ensures AdjectiveKeyOf("the") == Some("new")
    ensures AdjectiveKeyOf("previous") == Some("previous")
    ensures AdjectiveKeyOf("old") == None
  {
    InfixOfAnotherResolvesToNew();
    PreviousResolvesToPrevious();
    OldHasNoKey();
  }

  lemma InfixOfAnotherResolvesToNew()
    ensures AdjectiveKeyOf("the") == Some("new")
  {
    assert Adjectives[0].1 == "new ano" + "the" + "r";
    ContainsInfix("new ano", "the", "r");
    AdjectiveKeyAt("the", 0);
  }

  lemma PreviousResolvesToPrevious()
    ensures AdjectiveKeyOf("previous") == Some("previous")
  {
    MissingCharNotContained(Adjectives[0].1, "previous", 'p');
    MissingCharNotContained(Adjectives[1].1, "previous", 'p');
    ContainsSelf("previous");
    AdjectiveKeyAt("previous", 2);
  }

  lemma OldHasNoKey()
    ensures AdjectiveKeyOf("old") == None
  {
    MissingCharNotContained(Adjectives[0].1, "old", 'l');
    MissingCharNotContained(Adjectives[1].1, "old", 'o');
    MissingCharNotContained(Adjectives[2].1, "old", 'l');
  }

  /** Of the noun values, only the whole tag alias string is a substring of it. */
  lemma OnlyTagAliasInsideTagAlias(v: string)
    requires v in NounValues
    ensures Contains(NounTag, v) <==> v == NounTag
  {
    if v == NounTag {
      ContainsSelf(NounTag);
    } else if v == NounModal || v == NounIndex || v == NounWebsite || v == NounAva || v == NounDate || v == NounTime {
      TagAliasExcludesEarlierNouns(v);
    } else {
      TagAliasExcludesLaterNouns(v);
    }
  }

  lemma TagAliasExcludesEarlierNouns(v: string)
    requires v == NounModal || v == NounIndex || v == NounWebsite || v == NounAva || v == NounDate || v == NounTime
    ensures !Contains(NounTag, v)
  {
    if v == NounModal || v == NounTime {
      MissingCharNotContained(NounTag, v, 'm');
    } else if v == NounIndex || v == NounDate {
      MissingCharNotContained(NounTag, v, 'd');
    } else if v == NounWebsite {
      MissingCharNotContained(NounTag, v, 'w');
    } else {
      MissingCharNotContained(NounTag, v, 'v');
    }
  }

  lemma TagAliasExcludesLaterNouns(v: string)
    requires v == NounBrowser || v == NounPage || v == NounCorner || v == NounForm || v == NounDirection || v == NounPosition
    ensures !Contains(NounTag, v)
  {
    if v == NounBrowser {
      MissingCharNotContained(NounTag, v, 'b');
    } else if v == NounPage || v == NounPosition {
      MissingCharNotContained(NounTag, v, 'p');
    } else if v == NounCorner {
      MissingCharNotContained(NounTag, v, 'c');
    } else if v == NounDirection {
      MissingCharNotContained(NounTag, v, 'd');
    } else {
      MissingCharNotContained(NounTag, v, 'f');
    }
  }
}
