# AVA command interpretation, modelled in Dafny

AVA is a voice assistant that runs as a browser extension. A speech recogniser turns an
utterance into a *segment*: a top-level intent ("browser", "page", "ava", …) and a list of
typed entities (verb, adjective, and noun categories such as website, index, browser,
page, corner, tag, modal, direction, position). This project models the pipeline that
turns a segment into actions:

- **Text** (`text.dfy`): the JavaScript built-ins the pipeline relies on, over strings.
  These are ASCII `toLowerCase`/`toUpperCase`, `String.prototype.includes` (substring),
  `Number(...)` on index words, the `find`-over-alias-tables lookup, and a `Result` type
  for thrown errors.
- **Lexicon** (`lexicon.dfy`): the constant tables. These are the intents, entity types,
  noun categories, adjective aliases, verb families, modal aliases, overlay corners and
  search dispositions.
- **Sentence** (`sentence.dfy`): `wordsToSentence`, the fold with a first-word flag, as a
  loop proved against a recursive specification.
- **Commands** (`commands.dfy`): `constructCommand`, the for-of loop that builds a
  `Command {verb, nouns}` from entities. It is proved against a step function and also
  against a declarative description:
  - the first verb wins;
  - one noun slot per noun entity, in order;
  - each noun carries the first adjective since the previous noun;
  - an unknown leading adjective throws.
- **Effects** (`effects.dfy`): the messages sent to the background relay, the window
  effects (scroll, navigate, send), and the executor chain `find(execution => execution(command))`.
  The first executor that claims or throws ends the chain.
- **Browser**, **Router**, **Page**, **Ava** (`browser.dfy`, `router.dfy`, `page.dfy`,
  `ava.dfy`): the three executor chains and `processSegment`.
  - The page and ava executors change the injected UI options.
  - These are modelled as the class `Options.UiState` (`options.dfy`). Each setter states
    exactly which field it changes.
- **Relay** (`relay.dfy`): the background script. Its handlers decide tab operations from
  the message, its sender and the window's tabs. The registry of connected pages is a
  class over a map, and on tab activation the relay tells each page whether it is the
  active one.
- **Legacy** (`legacy.dfy`): the earlier intent processor. It has fixed 500/250 scroll
  increments and the "open_website" shortcut. It is related to the page executor by
  lemmas on scroll axes and signs.

### Modelling conventions

- **Foreign calls become data.**
  - Chrome and DOM calls are returned as effect records (`Effects.Effect`, `Relay.TabOp`)
    rather than performed.
  - `getVerbTypeFromEntity` is not visible, so it is a function parameter (`VerbResolver`).
  - Page metrics are a `Document` record: body scroll height, tallest child, and viewport size.
- **Thrown errors** are `Err(message)`. A property read on `undefined` is `Err(TypeError)`.
  In an executor chain it is `Threw(TypeError)`.
- **JavaScript truthiness is explicit.** A tab id of 0 is falsy, an empty string is falsy,
  and an empty array is truthy.
- **Code over documentation.** Where the assistant's documentation and its code differ,
  the model follows the code:
  - `executeTab` claims on a "tab" noun whatever the verb;
  - a `Command` has only `verb` and `nouns`.

## Model

| member | source | states |
|---|---|---|
| Text.Lower | src/ava/commands/commands.ts:44-48 | `toLowerCase` keeps the length and lowercases each character |
| Text.Contains | src/ava/commands/commands.ts:37 | `includes`: the needle occurs at some offset; "" is included in every string, and an included needle is never longer than the haystack |
| Text.ContainsIffInfix | src/ava/commands/commands.ts:37 | `includes` holds exactly when the needle is a slice `hay[i..j]` of the haystack, both directions |
| Text.FindAlias | src/ava/commands/commands.ts:36-38 | the index of the first alias string containing the value, and none before it contains it; `None` exactly when no alias contains it |
| Text.ToNumber | src/ava/commands/page.ts:128 | `Number` of an index word: "" is 0 and a digit string is its decimal value |
| Text.ContainsSelf | src/ava/commands/ava.ts:14 | a string includes itself |
| Text.ContainsInfix | src/ava/commands/commands.ts:37 | a string includes anything placed inside it |
| Text.MissingCharNotContained | src/ava/commands/commands.ts:37 | a needle with a character the haystack lacks is not included |
| Lexicon.AdjectiveKeyOf | src/ava/types.ts:45-49 | the first adjective key, in declaration order, whose aliases include the value; none when no alias does |
| Lexicon.ModalTypeOf | src/ava/types.ts:77-80 | the modal type of the first `modals` key that includes the value; none when no key does |
| Lexicon.AdjectiveKeyAt | src/ava/types.ts:45-49 | fixing which alias matches first fixes the adjective key |
| Lexicon.ModalTypeAt | src/ava/types.ts:77-80 | fixing which modal key matches first fixes the modal type |
| Lexicon.NounValuesDistinct | src/ava/types.ts:56-70 | the noun category values are pairwise distinct |
| Lexicon.NounValuesExcludeOtherTypes | src/ava/types.ts:26-43 | the verb, adjective, action and tag entity types are not noun category values |
| Lexicon.VerbFamiliesDistinct | src/ava/types.ts:89-94 | the four verb alias strings are pairwise distinct |
| Lexicon.IntentsDistinct | src/ava/types.ts:8-24 | intent labels are pairwise distinct |
| Lexicon.AvaPositionsAreTheFourCorners | src/ava/types.ts:103-108 | `avaPositions` lists the four corners, distinct, in enum order |
| Lexicon.AdjectiveKeysInOrder | src/ava/types.ts:45-49 | the adjective keys are new, current, previous in that order |
| Lexicon.AnotherOnlyUnderNew | src/ava/types.ts:45-49 | "another" is an alias of new only, so it resolves to new |
| Lexicon.ThisOnlyUnderCurrent | src/ava/types.ts:45-49 | "this" is an alias of current only, so it resolves to current |
| Lexicon.SubstringAdjectiveLookup | src/ava/types.ts:45-49 | lookup is by substring: "the" resolves to new, "previous" to previous, "old" to nothing |
| Lexicon.OnlyTagAliasInsideTagAlias | src/ava/types.ts:56-70 | among noun category values, only the tag alias string itself is a substring of the tag alias string |
| Sentence.WordsToSentence | src/utils.ts:3-22 | the loop with its first-word flag returns the recursive fold; an empty first kept word throws a TypeError |
| Sentence.AllFalsyGivesEmpty | src/utils.ts:5-8 | a list of only falsy entries yields "" |
| Sentence.FalsyEntrySkipped | src/utils.ts:6-8 | a falsy entry anywhere changes nothing, including which word counts as first |
| Sentence.FoldIsCapitalizedLowerJoin | src/utils.ts:10-20 | the sentence is the kept words joined by single spaces, lowercased, with the first character uppercased |
| Sentence.OnlyFirstCharacterUppercase | src/utils.ts:10-20 | no character after the first is an uppercase letter |
| Sentence.FoldLength | src/utils.ts:20 | the length is the words' total length plus one space between each pair |
| Sentence.AppendWordAfterOneSpace | src/utils.ts:20 | a later word is appended after exactly one space, lowercased |
| Sentence.HelloWorld | src/utils.ts:3-22 | ["HELLO", falsy, "World"] becomes "Hello world" |
| Sentence.KeptAppend | src/utils.ts:5-8 | the kept words of a concatenation are the concatenation of the kept words |
| Commands.IsNoun | src/ava/commands/commands.ts:21-25 | verb and adjective entities are never nouns |
| Commands.NounMembershipIsExact | src/ava/commands/commands.ts:21-25 | an entity is a noun exactly when its type equals one of the noun category values (array `includes`, not substring): a type that merely contains "browser" is not a noun |
| Commands.IsAdjective | src/ava/commands/commands.ts:27-29 | the type equals the adjective entity type; an adjective entity is never a noun |
| Commands.IsVerb | src/ava/commands/commands.ts:31-33 | the type equals the verb entity type; a verb entity is neither a noun nor an adjective |
| Commands.NounFromEntity | src/ava/commands/commands.ts:47-49 | keeps the entity's type and the length of its value |
| Commands.NounFromEntityLowercases | src/ava/commands/commands.ts:47-49 | the value is lowercased character by character, and reading a noun back from an entity that already holds it changes nothing |
| Commands.AdjectiveFromEntity | src/ava/commands/commands.ts:35-45 | throws "I'm sorry could you repeat that?" exactly when no adjective alias includes the lowercased value; otherwise that value with the first matching key |
| Commands.FirstOfKind | src/ava/commands/page.ts:101-103 | the first noun of the type; none before it has the type; none exactly when no noun has it |
| Commands.ConstructCommand | src/ava/commands/commands.ts:51-98 | the loop with `verbFound`/`hasAdjective`/current noun returns what the pass over the entities defines, or the error it throws |
| Commands.ScanErrorPersists | src/ava/commands/commands.ts:78-81 | once an adjective lookup throws, later entities do not matter |
| Commands.ScanAllDescribes | src/ava/commands/commands.ts:65-94 | after any prefix the loop state is the first verb, one noun per noun entity, and the adjective staged since the last noun |
| Commands.ScanAllFailsIff | src/ava/commands/commands.ts:78-81 | the loop throws exactly at a leading adjective with no known alias, always with the same message |
| Commands.EmptyEntitiesRejected | src/ava/commands/commands.ts:54-56 | no entities throws "I'm sorry could you repeat that?" |
| Commands.ConstructFailsIff | src/ava/commands/commands.ts:51-98 | construction throws exactly for no entities or an unknown leading adjective, always with the same message |
| Commands.FirstVerbWins | src/ava/commands/commands.ts:66-73 | the verb is the resolution of the first verb entity |
| Commands.NoVerbEntityNoVerb | src/ava/commands/commands.ts:58-73 | without a verb entity the command has no verb |
| Commands.VerbEntityIsNeitherNounNorAdjective | src/ava/commands/commands.ts:21-33 | a verb entity is never a noun or an adjective |
| Commands.NounEntitiesEmptyIff | src/ava/commands/commands.ts:83-86 | there are no noun entities exactly when no entity is a noun |
| Commands.NounsFollowNounEntities | src/ava/commands/commands.ts:83-93 | one noun slot per noun entity, in order, with the type kept and the value lowercased; `nouns` is absent exactly when there is no noun entity |
| Commands.AdjectiveScoping | src/ava/commands/commands.ts:78-93 | each noun carries the first adjective since the previous noun, looked up, or none |
| Commands.TrailingAdjectiveDropped | src/ava/commands/commands.ts:78-81 | an adjective after the last noun is never pushed; it only throws when it is the first since that noun and unknown |
| Commands.NewIsAnAdjective | src/ava/commands/commands.ts:35-45 | the adjective "new" resolves to Word("new", "new") |
| Commands.BrowserEntityIsANoun | src/ava/commands/commands.ts:21-25 | a browser entity is a noun and neither a verb nor an adjective |
| Commands.AdjectiveAttachesToNextNounOnly | src/ava/commands/commands.ts:78-93 | [new, tab, window] gives tab the adjective and window none |
| Commands.ConstructedNounKinds | src/ava/commands/commands.ts:21-25 | every noun slot's type is a noun category value |
| Commands.TagTypedEntityIsNotANoun | src/ava/commands/commands.ts:21-25 | noun membership is exact: a "tag" entity is not a noun, a "tag link tags links" entity is |
| Effects.FirstClaim | src/ava/commands/browser.ts:65 | the chain declines exactly when every executor declines; otherwise the first that does not decline decides |
| Effects.LaterClaimsIgnored | src/ava/commands/browser.ts:54-67 | executors after the first claim do not matter |
| Browser.ExecuteTab | src/ava/commands/browser.ts:18-29 | claims exactly on a browser noun "tab", whatever the verb, and sends the TAB message; never throws |
| Browser.ExecuteOpenWebsite | src/ava/commands/browser.ts:31-43 | claims exactly on verb open with a website first noun and navigates to https:// plus it; throws exactly on verb open with an empty noun list |
| Browser.ExecuteRefresh | src/ava/commands/browser.ts:45-52 | claims exactly on verb refresh and sends the REFRESH message |
| Browser.HandleBrowserIntent | src/ava/commands/browser.ts:56-70 | no entities, or entities that fail to construct a command, throw "I'm sorry could you repeat that?"; success carries one effect |
| Browser.ConstructedCommandsNeverThrow | src/ava/commands/browser.ts:31-43 | a constructed command never makes the chain throw |
| Browser.BrowserIntentOutcome | src/ava/commands/browser.ts:54-70 | tab first, then website, then refresh; otherwise "I'm sorry could you repeat that again?" |
| Browser.TabClaimStopsTheChain | src/ava/commands/browser.ts:18-29 | a tab noun wins over website and refresh |
| Browser.OpenWebsiteNavigates | src/ava/commands/browser.ts:6-8 | "open" and a website entity navigate to https:// plus the lowercased value |
| Browser.NothingClaimsThrows | src/ava/commands/browser.ts:69 | with no tab noun and neither open nor refresh, the intent throws "... again?" |
| Router.ProcessSegment | src/ava/commands/commands.ts:100-112 | the browser intent goes to the browser chain; every other intent throws "I'm sorry, can you repeat that?" |
| Router.OnlyBrowserIsRouted | src/ava/commands/commands.ts:103-111 | page, ava and tab intents are not routed and throw |
| Options.UiState.constructor | src/ava/types.ts:117-125 | starts from the given view |
| Options.UiState.SetShowTag | src/ava/types.ts:120 | changes `showTag` only |
| Options.UiState.SetRenderTag | src/ava/types.ts:119 | changes `renderTag` only |
| Options.UiState.SetContextIndex | src/ava/types.ts:121 | changes `contextIndex` only |
| Options.UiState.SetAvaPosition | src/ava/types.ts:124 | changes `avaPosition` only |
| Options.UiState.SetIsReminderOpen | src/ava/types.ts:114 | changes the reminder flag only |
| Options.UiState.OpenTagModal | src/ava/types.ts:112 | opens the tag modal and changes nothing else |
| Options.UiState.CloseTagModal | src/ava/types.ts:113 | closes the tag modal and changes nothing else |
| Page.HandlePositionScroll | src/ava/commands/page.ts:6-33 | hides the tags, then scrolls to top or bottom; any other position throws |
| Page.HandleDirectionScroll | src/ava/commands/page.ts:35-65 | hides the tags, then scrolls by half the viewport on one axis; any other direction throws |
| Page.ExecuteNavigation | src/ava/commands/page.ts:67-93 | claims exactly on verb open with no nouns or a page noun, or on a "previous" page noun; sends the NAVIGATION message |
| Page.ExecuteScroll | src/ava/commands/page.ts:95-121 | claims on verb move with a direction noun (first) or a position noun; tags are hidden exactly when it claims or throws |
| Page.ExecuteIndex | src/ava/commands/page.ts:123-134 | claims on an index first noun and sets the context index to its number; an empty noun list throws; otherwise nothing changes |
| Page.RunPageChain | src/ava/commands/page.ts:147 | navigation, scroll, index in order: the first claim decides, and only that executor's change happens |
| Page.HandlePageIntent | src/ava/commands/page.ts:138-152 | no entities or a construction error throws; an unclaimed chain runs again, changes nothing, and returns normally |
| Page.DirectionScrollAxes | src/ava/commands/page.ts:35-65 | up/down scroll vertically and left/right horizontally by half the viewport; any other direction throws the direction error |
| Page.PositionScrollTargets | src/ava/commands/page.ts:6-33 | top scrolls to 0; bottom scrolls to the body height, or to the tallest child when the body reports 0; any other position throws |
| Page.DirectionBeatsPosition | src/ava/commands/page.ts:101-117 | a direction noun wins over a position noun wherever it appears |
| Page.ScrollClaimsOnlyOnMove | src/ava/commands/page.ts:95-121 | scroll claims exactly on verb move with a direction or position noun |
| Page.PreviousPageNavigates | src/ava/commands/page.ts:78-89 | a "previous" page noun navigates whatever the verb, and the UI is unchanged |
| Page.UnclaimedChainLeavesStateAlone | src/ava/commands/page.ts:147-151 | a chain that claims nothing changes nothing, so running it again is harmless |
| Page.UnclaimedPageIntentReturns | src/ava/commands/page.ts:147-152 | when nothing claims, the page intent returns without effect |
| Page.IndexOnConstructedCommand | src/ava/commands/page.ts:123-134 | on a constructed command the index executor never throws, and claims exactly on an index first noun |
| Ava.ExecuteTags | src/ava/commands/ava.ts:13-33 | claims on a noun whose type is in the tag aliases; close hides and un-renders the tags, and any other verb shows and renders them |
| Ava.ExecuteAvaMove | src/ava/commands/ava.ts:35-70 | verb move claims: a known corner is set, no corner sets one of the four at random, and an unknown corner declines without change |
| Ava.ExecuteModal | src/ava/commands/ava.ts:72-104 | with a modal noun and verb open or close, sets the reminder or the tag modal by the `modals` table; otherwise declines without change |
| Ava.ModalChangeOf | src/ava/commands/ava.ts:72-104 | a change needs a modal noun and verb open or close; it opens on open and closes on close |
| Ava.ExecuteModalAsWritten | src/ava/commands/ava.ts:78-100 | as written, with a modal noun and verb open or close the executor throws a TypeError and never claims |
| Ava.HandleAvaIntent | src/ava/commands/ava.ts:108-122 | with the corrected modal executor: succeeds exactly when tags, move or modal claims, with the UI change of the claiming executor; otherwise throws "I'm sorry could you repeat that?" |
| Ava.HandleAvaIntentAsWritten | src/ava/commands/ava.ts:72-122 | the chain as the code stands: succeeds exactly when tags or move claims; otherwise the UI is unchanged and it throws a TypeError wherever the modal test is reached (in particular wherever the corrected chain would open or close a modal), else "I'm sorry could you repeat that?" |
| Ava.TagsFireOnlyForTheTagCategory | src/ava/commands/ava.ts:14 | on a constructed command the substring test fires exactly for the tag category itself |
| Ava.SharedModalAliasOpensReminder | src/ava/types.ts:77-80 | "modal" names both modals; the reminder is checked first, so it wins |
| Ava.ModalChangeFollowsModalsTable | src/ava/types.ts:77-80 | the modal that changes is the one `modals` assigns to the value |
| Ava.ModalAsWrittenThrows | src/ava/commands/ava.ts:78-100 | wherever the intended executor acts, the code as written throws |
| Ava.OpenReminderWitness | src/ava/commands/ava.ts:78-81 | "open reminder" should open the reminder, but as written it throws |
| Relay.SenderTabId | src/background.ts:70 | the sender's tab id exactly when it is present and truthy |
| Relay.GetTabId | src/background.ts:16-31 | no index noun gives none; otherwise the id of the tab at that 1-based position, and a position outside the tab list throws |
| Relay.HandleTabsIntent | src/background.ts:33-74 | at most one operation; no verb opens one blank tab; a missing command throws; open without nouns opens one blank tab; with open or close and nouns, the handler rejects exactly when `getTabId` throws |
| Relay.HandleRefreshIntent | src/background.ts:76-80 | reloads the sender's tab exactly when it has an id |
| Relay.HandleNavigationIntent | src/background.ts:82-100 | nothing without a sender tab id or an action; otherwise any slice of "back previous" goes back (so a slice of both alias strings goes back), any other slice of "forward next" goes forward, and anything else gets "I'm sorry could you repeat that?" |
| Relay.HandleSearchIntent | src/background.ts:102-115 | one search exactly when query, disposition and sender tab id are all present |
| Relay.OnMessage | src/background.ts:121-141 | TAB, REFRESH, NAVIGATION and SEARCH each give exactly their handler's operations (a rejected tabs handler gives none); any other intent answers "I'm sorry could you repeat that?"; at most one operation |
| Relay.OpenIndexedTabActivates | src/background.ts:43-49 | open with an index naming a tab that has an id only activates it |
| Relay.OpenWithoutIndexCreates | src/background.ts:51-62 | otherwise open creates a tab for the first website noun, or a blank one |
| Relay.CloseRemovesATab | src/background.ts:65-73 | close removes the indexed tab, else the sender's tab; without nouns it does nothing |
| Relay.OtherVerbsDoNothing | src/background.ts:33-74 | any other verb does nothing to tabs |
| Relay.NavigationBackWords | src/background.ts:93-94 | the alias words "back" and "previous" go back |
| Relay.NavigationForwardWords | src/background.ts:95-96 | the alias words "forward" and "next" go forward |
| Relay.NavigationLooseness | src/background.ts:93-99 | the substring test is loose: "ack p" goes back, "e" (in both alias strings) goes back, "home" gets the apology |
| Relay.PageNavigationMessageHasNoEffect | src/background.ts:87-91 | a NAVIGATION message that carries a command and no `action` makes the relay do nothing; that the page's message arrives in this form assumes `sendMessageToBackground` forwards its object unchanged |
| Relay.RefreshMessageReloadsSender | src/background.ts:129-131 | the browser's REFRESH message reloads the sender's tab when it has an id |
| Relay.BareTabCommandOpensBlankTab | src/background.ts:39-41 | a tab command without a verb opens exactly one blank tab |
| Relay.OpenTabOpensBlankTab | src/background.ts:43-62 | "open tab" opens exactly one blank tab |
| Relay.Ports.constructor | src/background.ts:143 | the registry starts empty |
| Relay.Ports.Connect | src/background.ts:157-159 | a port from a tab with a truthy id is registered under that id; otherwise nothing changes |
| Relay.Ports.Disconnect | src/background.ts:160-164 | the entry under the port's tab id is removed, whichever port is registered there now |
| Relay.Ports.HandleOnActivated | src/background.ts:145-153 | every registered port gets one post: true for the activated tab's port, false for all others |
| Relay.AtMostOneActive | src/background.ts:145-153 | at most one port is told it is active |
| Legacy.HandlePositionScroll | src/ava/ava-commands.ts:4-28 | the locals' reassignments give top 0, the body or tallest-child height for bottom, and no top otherwise |
| Legacy.HandleDirectionScroll | src/ava/ava-commands.ts:30-57 | the locals' reassignments give ∓500 vertically, ∓250 horizontally, and (0, 0) otherwise |
| Legacy.HandleScrollIntent | src/ava/ava-commands.ts:59-72 | no entities throws; a position first entity scrolls to that lowercased position, a direction first entity scrolls by that lowercased direction, and any other first entity does nothing |
| Legacy.ProcessSegment | src/ava/ava-commands.ts:74-85 | open_website goes to "https://" plus the lowercased value plus ".com"; scroll is exactly the scroll handler's result; other intents do nothing; no entities throws |
| Legacy.ScrollReadsFirstEntityOnly | src/ava/ava-commands.ts:62 | entities after the first do not matter to a scroll |
| Legacy.OtherFirstEntityDoesNothing | src/ava/ava-commands.ts:69-70 | a first entity that is neither position nor direction causes no scroll |
| Legacy.DirectionAgreesWithPage | src/ava/ava-commands.ts:30-57 | on the four directions, same axis and sign as the page executor; any other direction is a zero scroll here and an error there |
| Legacy.PositionAgreesWithPage | src/ava/ava-commands.ts:4-28 | top and bottom go where the page executor goes; any other position is a scroll with no target here and an error there |
| Legacy.CaseInsensitiveScroll | src/ava/ava-commands.ts:64-67 | "Up" scrolls 500 up and "RIGHT" 250 right |

## Left out

- Chrome extension APIs (`chrome.tabs.*`, `chrome.search.query`, `runtime.sendMessage`,
  ports) and `window.scrollTo`/`scrollBy`/`location.href` are returned as effect records.
  They are not executed.
- Smooth-scroll behaviour, logging (`console.*`) and the `noop` callback have no
  observable effect on the model.
- `getVerbTypeFromEntity` is not part of this model. It is a parameter of every member
  that constructs a command.
- `getMaxChildScrollHeight` is not part of this model. The tallest child's scroll height
  is a field of `Document`.
- Legacy.HandlePositionScroll: the earlier processor assigns `getMaxChildScrollHeight`'s whole
  result where the page executor takes the first element. Both are modelled as the same
  height, because the helper is not part of this model.
- Page.HandleDirectionScroll: viewport halves are reals. The claims proved are axis and sign,
  not floating-point rounding.
- Ava.ExecuteAvaMove: `Math.round(Math.random() * 3)` is a nondeterministic choice among
  the four corners. Its distribution is not modelled.
- Text.Lower: `toLowerCase`/`toUpperCase` map ASCII letters only. Unicode case mapping is
  not modelled.
- Text.ToNumber: reads only "" and decimal digit strings. Whitespace, signs, decimals,
  exponents and hex are treated as NaN rather than as the numbers `Number` would give.
- Async ordering is not modelled: the `await`s in the relay, races between messages, and
  unhandled promise rejections. A rejected tabs handler performs no operation.
- Relay.Ports.HandleOnActivated: the posts are a map from tab id to the value posted. The
  order in which `Map.forEach` visits ports is not modelled.
- Port lifetimes beyond connect and disconnect are not modelled.
- React components, the Redux store, tag scanning on the page, the speech client and the
  dictation/submit setters are not part of this model.
- Search-query extraction is not part of this model. Only the relay's handler for an
  already-built search message is modelled.
- `sendMessageToBackground` is not part of this model. `Effects.SendMessage` assumes it
  delivers the object it is given unchanged. Under that assumption the page's NAVIGATION
  message, which has a command but no `action`, makes the relay do nothing
  (`Relay.PageNavigationMessageHasNoEffect`). If the helper added an `action`, that lemma
  would not describe the running system. No intended mapping from command to action is
  evident from the code, so no corrected relay is given.
- Ava.HandleAvaIntent: composes the corrected modal executor (`Ava.ExecuteModal`), so on
  "open reminder" it opens the reminder where the code as written throws a TypeError. The
  chain as written is `Ava.HandleAvaIntentAsWritten`.

## Findings

| source | as written | input that shows it | evidently intended | confidence | as-written member | corrected member |
|---|---|---|---|---|---|---|
| src/ava/commands/ava.ts:79-96 | `MODAL_TYPES.REMINDER.includes(...)`: the enum member is the number 0, which has no `includes`, so the test throws a TypeError | verb open with a modal noun "reminder" (`Ava.OpenReminderWitness`); the whole intent then throws (`Ava.HandleAvaIntentAsWritten`) | test the value against the `modals` alias keys and open or close the modal they name | high, not executed | Ava.ExecuteModalAsWritten | Ava.ExecuteModal |
