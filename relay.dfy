/**
 * The background relay: per-intent handlers decide which tab operation to perform
 * from the message, its sender and the current window's tabs, and a registry of
 * connected pages is told which one is now active.
 */
module Relay {
  import opened Text
  import opened Lexicon
  import opened Commands
  import opened Effects

  /** A browser tab; its id may be missing. */
  datatype Tab = Tab(id: Option<int>)

  /** A message sender; it may not come from a tab. */
  datatype Sender = Sender(tab: Option<Tab>)

  /** A tab operation the relay performs, or the reply it sends back. */
  datatype TabOp =
    | CreateTab(url: Option<string>)
    | ActivateTab(tabId: int)
    | RemoveTab(tabId: int)
    | ReloadTab(tabId: int)
    | GoBack(tabId: int)
    | GoForward(tabId: int)
    | SearchQuery(text: string, disposition: Disposition)
    | Respond(text: string)

  /** A tab id tests true: present and not 0. */
  predicate TruthyId(id: Option<int>) {
    id.Some? && id.value != 0
  }

  /** `sender.tab && sender.tab.id`, when it tests true. */
  function SenderTabId(sender: Sender): (r: Option<int>)
    ensures r.Some? <==> sender.tab.Some? && TruthyId(sender.tab.value.id)
    ensures r.Some? ==> r.value != 0 && r == sender.tab.value.id
  {
    if sender.tab.Some? && TruthyId(sender.tab.value.id) then sender.tab.value.id else None
  }

  /** A string tests false when it is absent or empty. */
  predicate Falsy(s: Option<string>) {
    s.None? || s == Some("")
  }

  /**
   * `getTabId`: the id of the tab at the 1-based position an index noun names, or
   * `None` without an index noun. A position outside the tab list (or NaN) reads an
   * absent tab, whose `id` throws.
   */
  function GetTabId(ns: seq<Noun>, tabs: seq<Tab>): (r: Result<Option<int>>)
    ensures FirstOfKind(ns, NounIndex).None? ==> r == Ok(None)
    ensures FirstOfKind(ns, NounIndex).Some? ==>
      var position := ToNumber(FirstOfKind(ns, NounIndex).value.noun.value);
      && (r.Ok? <==> position.Some? && 1 <= position.value <= |tabs|)
      && (r.Ok? ==> r.value == tabs[position.value - 1].id)
  {
    match FirstOfKind(ns, NounIndex)
    case None => Ok(None)
    case Some(word) =>
      match ToNumber(word.noun.value)
      case None => Err(TypeError)
      case Some(position) =>
        if 1 <= position <= |tabs| then Ok(tabs[position - 1].id) else Err(TypeError)
  }

  /** `handleTabsIntent`: the tab operation, or the error the async handler rejects with. */
  function HandleTabsIntent(message: Message, sender: Sender, tabs: seq<Tab>): (r: Result<seq<TabOp>>)
    ensures r.Ok? ==> |r.value| <= 1
    ensures message.command.None? ==> r.Err?
    ensures message.command.Some? && Falsy(message.command.value.verb) ==> r == Ok([CreateTab(None)])
    ensures var c := message.command;
      c.Some? && c.value.verb == Some(VerbOpen) && c.value.nouns.None? ==> r == Ok([CreateTab(None)])
    ensures var c := message.command;
      c.Some? && c.value.nouns.Some? && (c.value.verb == Some(VerbOpen) || c.value.verb == Some(VerbClose)) ==>
        (r.Err? <==> GetTabId(c.value.nouns.value, tabs).Err?)
  {
    match message.command
    case None => Err(TypeError)
    case Some(command) =>
      if Falsy(command.verb) then Ok([CreateTab(None)])
      else if command.verb == Some(VerbOpen) then
        match command.nouns
        case None => Ok([CreateTab(None)])
        case Some(ns) =>
          var tabId :- GetTabId(ns, tabs);
          if TruthyId(tabId) then Ok([ActivateTab(tabId.value)])
          else
            match FirstOfKind(ns, NounWebsite)
            case Some(website) => Ok([CreateTab(Some("https://" + website.noun.value))])
            case None => Ok([CreateTab(None)])
      else if command.verb == Some(VerbClose) && command.nouns.Some? then
        var tabId :- GetTabId(command.nouns.value, tabs);
        if TruthyId(tabId) then Ok([RemoveTab(tabId.value)])
        else if SenderTabId(sender).Some? then Ok([RemoveTab(SenderTabId(sender).value)])
        else Ok([])
      else Ok([])
  }

  /** `handleRefreshIntent`: reloads the sender's tab when it has an id. */
  function HandleRefreshIntent(sender: Sender): (r: seq<TabOp>)
    ensures r == [] <==> SenderTabId(sender).None?
    ensures r != [] ==> r == [ReloadTab(SenderTabId(sender).value)]
  {
    match SenderTabId(sender)
    case None => []
    case Some(id) => [ReloadTab(id)]
  }

  const BackAliases := "back previous"
  const ForwardAliases := "forward next"

  /**
   * `handleNavigationIntent`: back or forward in the sender's tab by the action's alias.
   * The alias test is `includes`, so any slice of "back previous" goes back (that test
   * comes first, so a slice of both strings goes back too), any other slice of "forward
   * next" goes forward, and anything else gets the apology.
   */
  function HandleNavigationIntent(message: Message, sender: Sender): (r: seq<TabOp>)
    ensures SenderTabId(sender).None? || Falsy(message.action) ==> r == []
    ensures SenderTabId(sender).Some? && !Falsy(message.action) ==>
      var id := SenderTabId(sender).value;
      var action := message.action.value;
      && (IsInfix(action, BackAliases) ==> r == [GoBack(id)])
      && (!IsInfix(action, BackAliases) && IsInfix(action, ForwardAliases) ==> r == [GoForward(id)])
      && (!IsInfix(action, BackAliases) && !IsInfix(action, ForwardAliases) ==> r == [Respond(RepeatThat)])
    ensures |r| <= 1
  {
    if SenderTabId(sender).None? || Falsy(message.action) then []
    else
      var id := SenderTabId(sender).value;
      var action := message.action.value;
      ContainsIffInfix(BackAliases, action);
      ContainsIffInfix(ForwardAliases, action);
      if Contains(BackAliases, action) then [GoBack(id)]
      else if Contains(ForwardAliases, action) then [GoForward(id)]
      else [Respond(RepeatThat)]
  }

  /** `handleSearchIntent`: one search when query, disposition and sender tab id are all present. */
  function HandleSearchIntent(message: Message, sender: Sender): (r: seq<TabOp>)
    ensures r != [] <==>
      message.search.Some? && message.search.value.query != "" &&
      SenderTabId(sender).Some? && message.search.value.disposition.Some?
    ensures r != [] ==> r == [SearchQuery(message.search.value.query, message.search.value.disposition.value)]
  {
    match message.search
    case None => []
    case Some(search) =>
      if search.query != "" && SenderTabId(sender).Some? && search.disposition.Some? then
        [SearchQuery(search.query, search.disposition.value)]
      else []
  }

  /** The `onMessage` listener: routes on intent; a rejected tabs handler does nothing. */
  function OnMessage(message: Message, sender: Sender, tabs: seq<Tab>): (r: seq<TabOp>)
    ensures |r| <= 1
    ensures message.intent == IntentTab ==>
      r == (if HandleTabsIntent(message, sender, tabs).Ok? then HandleTabsIntent(message, sender, tabs).value else [])
    ensures message.intent == IntentRefresh ==> r == HandleRefreshIntent(sender)
    ensures message.intent == IntentNavigation ==> r == HandleNavigationIntent(message, sender)
    ensures message.intent == IntentSearch ==> r == HandleSearchIntent(message, sender)
    ensures message.intent !in [IntentTab, IntentRefresh, IntentNavigation, IntentSearch] ==> r == [Respond(RepeatThat)]
  {
    if message.intent == IntentTab then
      match HandleTabsIntent(message, sender, tabs)
      case Ok(ops) => ops
      case Err(_) => []
    else if message.intent == IntentRefresh then HandleRefreshIntent(sender)
    else if message.intent == IntentNavigation then HandleNavigationIntent(message, sender)
    else if message.intent == IntentSearch then HandleSearchIntent(message, sender)
    else [Respond(RepeatThat)]
  }

  // ---- Properties of handleTabsIntent -----------------------------------------------

  /** With verb open, an indexed tab with an id is activated and nothing else happens. */
  lemma OpenIndexedTabActivates(message: Message, sender: Sender, tabs: seq<Tab>, ns: seq<Noun>)
    requires message.command.Some? && message.command.value.verb == Some(VerbOpen)
    requires message.command.value.nouns == Some(ns)
    requires GetTabId(ns, tabs).Ok? && TruthyId(GetTabId(ns, tabs).value)
    ensures HandleTabsIntent(message, sender, tabs) == Ok([ActivateTab(GetTabId(ns, tabs).value.value)])
  {
    VerbFamiliesDistinct();
  }

  /** With verb open and no indexed tab, the first website noun opens in a new tab, else a blank one. */
  lemma OpenWithoutIndexCreates(message: Message, sender: Sender, tabs: seq<Tab>, ns: seq<Noun>)
    requires message.command.Some? && message.command.value.verb == Some(VerbOpen)
    requires message.command.value.nouns == Some(ns)
    requires GetTabId(ns, tabs).Ok? && !TruthyId(GetTabId(ns, tabs).value)
    ensures HandleTabsIntent(message, sender, tabs) ==
      match FirstOfKind(ns, NounWebsite)
      case Some(website) => Ok([CreateTab(Some("https://" + website.noun.value))])
      case None => Ok([CreateTab(None)])
  {
    VerbFamiliesDistinct();
  }

  /** Close removes the indexed tab, else the sender's own tab; without nouns it does nothing. */
  lemma CloseRemovesATab(message: Message, sender: Sender, tabs: seq<Tab>)
    requires message.command.Some? && message.command.value.verb == Some(VerbClose)
    ensures message.command.value.nouns.None? ==> HandleTabsIntent(message, sender, tabs) == Ok([])
    ensures message.command.value.nouns.Some? && GetTabId(message.command.value.nouns.value, tabs).Ok? ==>
      var tabId := GetTabId(message.command.value.nouns.value, tabs).value;
      HandleTabsIntent(message, sender, tabs) ==
        if TruthyId(tabId) then Ok([RemoveTab(tabId.value)])
        else if SenderTabId(sender).Some? then Ok([RemoveTab(SenderTabId(sender).value)])
        else Ok([])
  {
    VerbFamiliesDistinct();
  }

  /** Verbs other than open and close (move, refresh) do nothing to tabs. */
  lemma OtherVerbsDoNothing(message: Message, sender: Sender, tabs: seq<Tab>)
    requires message.command.Some? && !Falsy(message.command.value.verb)
    requires message.command.value.verb != Some(VerbOpen) && message.command.value.verb != Some(VerbClose)
    ensures HandleTabsIntent(message, sender, tabs) == Ok([])
  {
  }

  // ---- Properties of the other handlers ------------------------------------------

  /** The back alias words: "back" and "previous" go back. */
  lemma NavigationBackWords(sender: Sender, m: Message)
    requires SenderTabId(sender).Some?
    ensures HandleNavigationIntent(m.(action := Some("back")), sender) == [GoBack(SenderTabId(sender).value)]
    ensures HandleNavigationIntent(m.(action := Some("previous")), sender) == [GoBack(SenderTabId(sender).value)]
  {
    assert OccursAt(BackAliases, "back", 0);
    assert OccursAt(BackAliases, "previous", 5);
  }

  /** The forward alias words: "forward" and "next" go forward. */
  lemma NavigationForwardWords(sender: Sender, m: Message)
    requires SenderTabId(sender).Some?
    ensures HandleNavigationIntent(m.(action := Some("forward")), sender) == [GoForward(SenderTabId(sender).value)]
    ensures HandleNavigationIntent(m.(action := Some("next")), sender) == [GoForward(SenderTabId(sender).value)]
  {
    var id := SenderTabId(sender).value;
    assert HandleNavigationIntent(m.(action := Some("forward")), sender) == [GoForward(id)] by {
      ForwardOnlyWord(sender, m, "forward", 'f', 0);
    }
    assert HandleNavigationIntent(m.(action := Some("next")), sender) == [GoForward(id)] by {
      ForwardOnlyWord(sender, m, "next", 'n', 8);
    }
  }

  /** A word found in "forward next" at `at`, holding a letter "back previous" lacks, goes forward. */
  lemma ForwardOnlyWord(sender: Sender, m: Message, word: string, c: char, at: nat)
    requires SenderTabId(sender).Some? && word != ""
    requires c in word && c !in BackAliases && OccursAt(ForwardAliases, word, at)
    ensures HandleNavigationIntent(m.(action := Some(word)), sender) == [GoForward(SenderTabId(sender).value)]
  {
    MissingCharNotContained(BackAliases, word, c);
    assert Contains(ForwardAliases, word);
  }

  /**
   * The substring test is loose: a fragment such as "ack p" goes back, a letter found
   * in both alias strings such as "e" goes back because that test comes first, and a
   * word in neither such as "home" gets the apology.
   */
  lemma NavigationLooseness(sender: Sender, m: Message)
    requires SenderTabId(sender).Some?
    ensures HandleNavigationIntent(m.(action := Some("ack p")), sender) == [GoBack(SenderTabId(sender).value)]
    ensures IsInfix("e", ForwardAliases) &&
      HandleNavigationIntent(m.(action := Some("e")), sender) == [GoBack(SenderTabId(sender).value)]
    ensures HandleNavigationIntent(m.(action := Some("home")), sender) == [Respond(RepeatThat)]
  {
    assert OccursAt(BackAliases, "ack p", 1);
    assert OccursAt(BackAliases, "e", 7);
    assert ForwardAliases[9..10] == "e";
    MissingCharNotContained(BackAliases, "home", 'h');
    MissingCharNotContained(ForwardAliases, "home", 'h');
  }

  // ---- The relay's view of what the page sends ------------------------------------

  /**
   * A navigation message that carries a command but no `action` (the object the page
   * passes to `sendMessageToBackground`, assuming that helper forwards it unchanged)
   * makes the relay's navigation handler do nothing.
   */
  lemma PageNavigationMessageHasNoEffect(c: Command, sender: Sender, tabs: seq<Tab>)
    ensures OnMessage(CommandMessage(IntentNavigation, c), sender, tabs) == []
  {
    IntentsDistinct();
  }

  /** The page's refresh message reloads the sender's tab when it has an id. */
  lemma RefreshMessageReloadsSender(sender: Sender, tabs: seq<Tab>)
    ensures OnMessage(IntentMessage(IntentRefresh), sender, tabs) ==
      if SenderTabId(sender).Some? then [ReloadTab(SenderTabId(sender).value)] else []
  {
    IntentsDistinct();
  }

  /** A tab command without verb opens exactly one blank tab. */
  lemma BareTabCommandOpensBlankTab(c: Command, sender: Sender, tabs: seq<Tab>)
    requires c.verb.None?
    ensures OnMessage(CommandMessage(IntentTab, c), sender, tabs) == [CreateTab(None)]
  {
  }

  /** "open tab" with no index or website noun opens exactly one blank tab. */
  lemma OpenTabOpensBlankTab(sender: Sender, tabs: seq<Tab>)
    ensures var c := Command(Some(VerbOpen), Some([Noun(Word(NounBrowser, "tab"), None)]));
      OnMessage(CommandMessage(IntentTab, c), sender, tabs) == [CreateTab(None)]
  {
    var ns := [Noun(Word(NounBrowser, "tab"), None)];
    assert FirstOfKind(ns, NounIndex) == None;
    assert FirstOfKind(ns, NounWebsite) == None;
    VerbFamiliesDistinct();
  }

  /** Tab registry */
  type PortId = nat

  /** `ports`: the connected content pages, keyed by their tab id. */
  class Ports {
    var ports: map<int, PortId>

    constructor()
      ensures ports == map[]
    {
      ports := map[];
    }

    /** `onConnect`: a port from a tab with an id is registered under that id. */
    method Connect(sender: Option<Sender>, port: PortId)
      modifies this
      ensures sender.Some? && SenderTabId(sender.value).Some? ==>
        ports == old(ports)[SenderTabId(sender.value).value := port]
      ensures !(sender.Some? && SenderTabId(sender.value).Some?) ==> ports == old(ports)
    {
      if sender.Some? && SenderTabId(sender.value).Some? {
        ports := ports[SenderTabId(sender.value).value := port];
      }
    }

    /**
     * `onDisconnect`: the entry under the port's tab id is deleted, whichever port is
     * registered there now.
     */
    method Disconnect(sender: Option<Sender>)
      modifies this
      ensures sender.Some? && SenderTabId(sender.value).Some? ==>
        ports == old(ports) - {SenderTabId(sender.value).value}
      ensures !(sender.Some? && SenderTabId(sender.value).Some?) ==> ports == old(ports)
    {
      if sender.Some? && SenderTabId(sender.value).Some? {
        ports := ports - {SenderTabId(sender.value).value};
      }
    }

    /**
     * `handleOnActivated`: every registered port is posted one boolean, true exactly
     * for the port of the activated tab. `posts[id]` is what `ports[id]` receives.
     */
    method HandleOnActivated(tabId: int) returns (posts: map<int, bool>)
      ensures posts.Keys == ports.Keys
      ensures forall id :: id in posts ==> posts[id] == (id == tabId)
    {
      posts := map[];
      var pending := ports.Keys;
      while pending != {}
        invariant pending <= ports.Keys
        invariant posts.Keys == ports.Keys - pending
        invariant forall id :: id in posts ==> posts[id] == (id == tabId)
        decreases pending
      {
        NonEmptyHasMember(pending);
        var id :| id in pending;
        posts := posts[id := tabId == id];
        pending := pending - {id};
      }
    }
  }

  /** A non-empty set of tab ids has a member to visit next. */
  lemma NonEmptyHasMember(s: set<int>)
    requires s != {}
    ensures exists id :: id in s
  {
    if forall id :: id !in s {
      assert false;
    }
  }

  /** At most one port is told it is active. */
  lemma AtMostOneActive(posts: map<int, bool>, tabId: int)
    requires forall id :: id in posts ==> posts[id] == (id == tabId)
    ensures forall a, b :: a in posts && b in posts && posts[a] && posts[b] ==> a == b
  {
  }
}
