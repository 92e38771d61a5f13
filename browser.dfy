/**
 * The browser-intent executor chain: tab commands go to the relay, "open <website>"
 * navigates the page, and "refresh" asks the relay to reload. The chain is tried in
 * the order tab, website, refresh, and the first executor that claims wins.
 */
module Browser {
  import opened Text
  import opened Lexicon
  import opened Commands
  import opened Effects

  const RepeatThatAgain := "I'm sorry could you repeat that again?"

  /** Some noun slot is the browser noun "tab". */
  predicate HasTabNoun(ns: seq<Noun>) {
    exists i :: 0 <= i < |ns| && ns[i].noun == Word(NounBrowser, "tab")
  }

  /** `executeTab`: claims on any tab noun, whatever the verb, and forwards the command. */
  function ExecuteTab(c: Command): (r: Claim)
    ensures r.Handled? <==> c.nouns.Some? && HasTabNoun(c.nouns.value)
    ensures r.Handled? ==> r.effects == [SendMessage(CommandMessage(IntentTab, c))]
    ensures !r.Threw?
  {
    if c.nouns.Some? && HasTabNoun(c.nouns.value) then Handled([SendMessage(CommandMessage(IntentTab, c))])
    else NotApplicable
  }

  /**
   * `executeOpenWebsite`: with verb open and a website first noun, navigates to it.
   * Reading the first slot of an empty noun list throws, but only once the verb is open.
   */
  function ExecuteOpenWebsite(c: Command): (r: Claim)
    ensures r.Handled? <==>
      c.verb == Some(VerbOpen) && c.nouns.Some? && |c.nouns.value| > 0 && c.nouns.value[0].noun.kind == NounWebsite
    ensures r.Handled? ==> r.effects == [SetLocation("https://" + c.nouns.value[0].noun.value)]
    ensures r.Threw? <==> c.verb == Some(VerbOpen) && c.nouns == Some([])
    ensures c.nouns.None? ==> r.NotApplicable?
  {
    match c.nouns
    case None => NotApplicable
    case Some(ns) =>
      if c.verb != Some(VerbOpen) then NotApplicable
      else if |ns| == 0 then Threw(TypeError)
      else if ns[0].noun.kind == NounWebsite then Handled([SetLocation("https://" + ns[0].noun.value)])
      else NotApplicable
  }

  /** `executeRefresh`: claims exactly on the verb refresh and sends a bare REFRESH message. */
  function ExecuteRefresh(c: Command): (r: Claim)
    ensures r.Handled? <==> c.verb == Some(VerbRefresh)
    ensures r.Handled? ==> r.effects == [SendMessage(IntentMessage(IntentRefresh))]
    ensures !r.Threw?
  {
    if c.verb == Some(VerbRefresh) then Handled([SendMessage(IntentMessage(IntentRefresh))])
    else NotApplicable
  }

  /** `commandExecutions`, each applied to the command. */
  function Executions(c: Command): seq<Claim> {
    [ExecuteTab(c), ExecuteOpenWebsite(c), ExecuteRefresh(c)]
  }

  /** `handleBrowserIntent`: the effects of the claiming executor, or the error thrown. */
  function HandleBrowserIntent(verbOf: VerbResolver, segment: Segment): (r: Result<seq<Effect>>)
    ensures segment.entities == [] ==> r == Err(RepeatThat)
    ensures segment.entities != [] && Construct(verbOf, segment.entities).Err? ==> r == Err(RepeatThat)
    ensures r.Ok? ==> |r.value| == 1
  {
    if |segment.entities| <= 0 then Err(RepeatThat)
    else
      ScanAllFailsIff(verbOf, segment.entities);
      var c :- Construct(verbOf, segment.entities);
      match FirstClaim(Executions(c))
      case Handled(effects) => Ok(effects)
      case NotApplicable => Err(RepeatThatAgain)
      case Threw(m) => Err(m)
  }

  /** A constructed command never holds an empty noun list, so opening a website never throws. */
  lemma ConstructedCommandsNeverThrow(verbOf: VerbResolver, es: seq<Entity>)
    requires Construct(verbOf, es).Ok?
    ensures !FirstClaim(Executions(Construct(verbOf, es).value)).Threw?
  {
    NounsFollowNounEntities(verbOf, es);
  }

  /**
   * For a command that constructs, the intent succeeds exactly when some executor
   * claims: with the tab message when there is a tab noun, else with the website
   * navigation, else with the refresh message; otherwise it throws "... again?".
   */
  lemma BrowserIntentOutcome(verbOf: VerbResolver, segment: Segment)
    requires segment.entities != [] && Construct(verbOf, segment.entities).Ok?
    ensures var c := Construct(verbOf, segment.entities).value;
      HandleBrowserIntent(verbOf, segment) ==
        if ExecuteTab(c).Handled? then Ok(ExecuteTab(c).effects)
        else if ExecuteOpenWebsite(c).Handled? then Ok(ExecuteOpenWebsite(c).effects)
        else if ExecuteRefresh(c).Handled? then Ok(ExecuteRefresh(c).effects)
        else Err(RepeatThatAgain)
  {
    ConstructedCommandsNeverThrow(verbOf, segment.entities);
    var c := Construct(verbOf, segment.entities).value;
    assert HandleBrowserIntent(verbOf, segment) ==
      match FirstClaim(Executions(c))
      case Handled(effects) => Ok(effects)
      case NotApplicable => Err(RepeatThatAgain)
      case Threw(m) => Err(m);
  }

  /** A tab noun wins over everything else: "refresh tab" only forwards the tab command. */
  lemma TabClaimStopsTheChain(verbOf: VerbResolver, segment: Segment)
    requires segment.entities != [] && Construct(verbOf, segment.entities).Ok?
    requires var c := Construct(verbOf, segment.entities).value; c.nouns.Some? && HasTabNoun(c.nouns.value)
    ensures HandleBrowserIntent(verbOf, segment) ==
      Ok([SendMessage(CommandMessage(IntentTab, Construct(verbOf, segment.entities).value))])
  {
  }

  /** "open" followed by a website entity navigates to "https://" and the lowercased value. */
  lemma OpenWebsiteNavigates(verbOf: VerbResolver, verb: Entity, site: Entity)
    requires IsVerb(verb) && verbOf(verb) == Some(VerbOpen) && site.kind == NounWebsite
    ensures HandleBrowserIntent(verbOf, Segment(IntentBrowser, [verb, site])) ==
      Ok([SetLocation("https://" + Lower(site.value))])
  {
    var es := [verb, site];
    assert NounValues[2] == NounWebsite;
    NounValuesExcludeOtherTypes();
    ScanAllSnoc(verbOf, [], verb);
    ScanAllSnoc(verbOf, [verb], site);
    assert [] + [verb] == [verb] && [verb] + [site] == es;
    var s1 := Scan(true, Some(VerbOpen), None, None);
    assert ScanAll(verbOf, [verb]) == Ok(s1);
    NounStep(verbOf, s1, site);
    var n := Noun(Word(NounWebsite, Lower(site.value)), None);
    assert NounList(s1.nouns) + [Noun(NounFromEntity(site), s1.staged)] == [n];
    assert ScanAll(verbOf, es) == Ok(Scan(true, Some(VerbOpen), Some([n]), None));
    var c := Command(Some(VerbOpen), Some([Noun(Word(NounWebsite, Lower(site.value)), None)]));
    assert Construct(verbOf, es) == Ok(c);
    assert !HasTabNoun(c.nouns.value);
    var e := SetLocation("https://" + Lower(site.value));
    assert ExecuteTab(c) == NotApplicable && ExecuteOpenWebsite(c) == Handled([e]);
    assert Executions(c)[1..] == [ExecuteOpenWebsite(c), ExecuteRefresh(c)];
    assert FirstClaim(Executions(c)) == Handled([e]);
  }

  /** Without a tab noun, website or refresh verb, the intent throws "... again?". */
  lemma NothingClaimsThrows(verbOf: VerbResolver, segment: Segment)
    requires segment.entities != [] && Construct(verbOf, segment.entities).Ok?
    requires var c := Construct(verbOf, segment.entities).value;
      c.verb != Some(VerbOpen) && c.verb != Some(VerbRefresh) && !(c.nouns.Some? && HasTabNoun(c.nouns.value))
    ensures HandleBrowserIntent(verbOf, segment) == Err(RepeatThatAgain)
  {
  }
}
