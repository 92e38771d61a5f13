/**
 * The command constructor: one left-to-right pass over a segment's entities that
 * captures the first verb, stages at most one adjective per noun slot, and records
 * every noun entity, with its staged adjective, in entity order.
 */
module Commands {
  import opened Text
  import opened Lexicon

  /** A recogniser entity `{type, value}`; `kind` is its type. */
  datatype Entity = Entity(kind: string, value: string)

  /** The `{type, value}` pair a noun slot records. */
  datatype Word = Word(kind: string, value: string)

  datatype Noun = Noun(noun: Word, adjective: Option<Word>)

  /** `nouns` is absent (`None`) until the first noun entity is seen. */
  datatype Command = Command(verb: Option<string>, nouns: Option<seq<Noun>>)

  /** A recognised utterance: its top-level intent and its entities, in order. */
  datatype Segment = Segment(intent: string, entities: seq<Entity>)

  /**
   * `getVerbTypeFromEntity`, which this model does not see: the verb string a verb
   * entity resolves to, or `None` for `undefined`.
   */
  type VerbResolver = Entity -> Option<string>

  const RepeatThat := "I'm sorry could you repeat that?"

  /** `checkIsNoun`: verb and adjective entities are never nouns (see `NounMembershipIsExact`). */
  predicate IsNoun(e: Entity): (r: bool)
    ensures e.kind == EntityVerb || e.kind == EntityAdjective ==> !r
  {
    e.kind in NounValues
  }

  /**
   * Noun membership is array `includes`: the type equals one of the noun category
   * values as a whole, so a type that only contains one (such as "tab browser") is not
   * a noun.
   */
  lemma NounMembershipIsExact(e: Entity)
    ensures IsNoun(e) <==> exists i :: 0 <= i < |NounValues| && NounValues[i] == e.kind
    ensures !IsNoun(Entity("tab " + NounBrowser, e.value))
  {
    assert forall i :: 0 <= i < |NounValues| ==> |NounValues[i]| != |"tab " + NounBrowser| || NounValues[i] != "tab " + NounBrowser;
  }

  /** `checkIsAdjective`: an adjective entity is never a noun. */
  predicate IsAdjective(e: Entity): (r: bool)
    ensures r ==> !IsNoun(e)
  {
    e.kind == EntityAdjective
  }

  /** `checkIsVerb`: a verb entity is neither a noun nor an adjective. */
  predicate IsVerb(e: Entity): (r: bool)
    ensures r ==> !IsNoun(e) && !IsAdjective(e)
  {
    e.kind == EntityVerb
  }

  /** `getAdjectiveFromEntity`: the first adjective key whose aliases contain the lowercased value. */
  function AdjectiveFromEntity(e: Entity): (r: Result<Word>)
    ensures r.Err? <==> forall i :: 0 <= i < |Adjectives| ==> !Contains(Adjectives[i].1, Lower(e.value))
    ensures r.Err? ==> r.message == RepeatThat
    ensures r.Ok? ==> r.value.value == Lower(e.value) && AdjectiveKeyOf(Lower(e.value)) == Some(r.value.kind)
  {
    match AdjectiveKeyOf(Lower(e.value))
    case None => Err(RepeatThat)
    case Some(key) => Ok(Word(key, Lower(e.value)))
  }

  /** `getNounFromEntity`: the entity's type, with its value lowercased (see `NounFromEntityLowercases`). */
  function NounFromEntity(e: Entity): (r: Word)
    ensures r.kind == e.kind && |r.value| == |e.value|
  {
    Word(e.kind, Lower(e.value))
  }

  /**
   * The noun's value is the entity's value lowercased character by character, and
   * reading a noun back from an entity that already holds it changes nothing.
   */
  lemma NounFromEntityLowercases(e: Entity)
    ensures forall i :: 0 <= i < |e.value| ==> NounFromEntity(e).value[i] == LowerChar(e.value[i])
    ensures NounFromEntity(Entity(e.kind, NounFromEntity(e).value)) == NounFromEntity(e)
  {
    var w := NounFromEntity(e).value;
    assert Lower(w) == w by {
      forall i | 0 <= i < |w|
        ensures Lower(w)[i] == w[i]
      {
        assert w[i] == LowerChar(e.value[i]);
      }
    }
  }

  function NounList(nouns: Option<seq<Noun>>): seq<Noun> {
    match nouns
    case None => []
    case Some(ns) => ns
  }

  /** The loop state of `constructCommand`; `staged.Some?` plays the `hasAdjective` flag. */
  datatype Scan = Scan(verbFound: bool, verb: Option<string>, nouns: Option<seq<Noun>>, staged: Option<Word>)

  const Start := Scan(false, None, None, None)

  /** Completing a noun slot: push the noun with the staged adjective and reset the slot. */
  function Place(s: Scan, e: Entity): Scan {
    if IsNoun(e) then
      s.(nouns := Some(NounList(s.nouns) + [Noun(NounFromEntity(e), s.staged)]), staged := None)
    else s
  }

  /** One iteration of the loop over entities. */
  function Step(verbOf: VerbResolver, s: Scan, e: Entity): Result<Scan> {
    if !s.verbFound && IsVerb(e) then
      Ok(s.(verbFound := true, verb := verbOf(e)))
    else if IsAdjective(e) && s.staged.None? then
      var adjective :- AdjectiveFromEntity(e);
      Ok(Place(s.(staged := Some(adjective)), e))
    else
      Ok(Place(s, e))
  }

  /** The loop state after the entities `es`, or the error that stopped it. */
  function ScanAll(verbOf: VerbResolver, es: seq<Entity>): Result<Scan>
    decreases |es|
  {
    if es == [] then Ok(Start)
    else
      var s :- ScanAll(verbOf, es[..|es| - 1]);
      Step(verbOf, s, es[|es| - 1])
  }

  /** What `constructCommand` returns, or the error it throws. */
  function Construct(verbOf: VerbResolver, es: seq<Entity>): Result<Command> {
    if |es| == 0 then Err(RepeatThat)
    else
      var s :- ScanAll(verbOf, es);
      Ok(Command(s.verb, s.nouns))
  }

  /** `constructCommand`: the for-of loop with its `verbFound`, `hasAdjective` and current-noun state. */
  method ConstructCommand(verbOf: VerbResolver, segment: Segment) returns (r: Result<Command>)
    ensures r == Construct(verbOf, segment.entities)
  {
    var es := segment.entities;
    if |es| == 0 {
      return Err(RepeatThat);
    }
    var verb: Option<string> := None;
    var nouns: Option<seq<Noun>> := None;
    var verbFound := false;
    var hasAdjective := false;
    var adjective: Option<Word> := None;
    var i := 0;
    while i < |es|
      invariant 0 <= i <= |es|
      invariant hasAdjective == adjective.Some?
      invariant ScanAll(verbOf, es[..i]) == Ok(Scan(verbFound, verb, nouns, adjective))
    {
      var entity := es[i];
      ghost var s := Scan(verbFound, verb, nouns, adjective);
      ScanAllPrefixStep(verbOf, es, i);
      StepShape(verbOf, s, entity);
      if !verbFound && IsVerb(entity) {
        verb := verbOf(entity);
        verbFound := true;
        i := i + 1;
        continue;
      }
      if IsAdjective(entity) && !hasAdjective {
        hasAdjective := true;
        var staged := AdjectiveFromEntity(entity);
        if staged.Err? {
          ScanErrorPersists(verbOf, es, i + 1);
          return Err(staged.message);
        }
        adjective := Some(staged.value);
      }
      if IsNoun(entity) {
        nouns := Some(NounList(nouns) + [Noun(NounFromEntity(entity), adjective)]);
        adjective := None;
        hasAdjective := false;
      }
      i := i + 1;
    }
    assert es[..i] == es;
    return Ok(Command(verb, nouns));
  }

  /** The pass over one more entity is one more step. */
  lemma ScanAllPrefixStep(verbOf: VerbResolver, es: seq<Entity>, i: nat)
    requires i < |es| && ScanAll(verbOf, es[..i]).Ok?
    ensures ScanAll(verbOf, es[..i + 1]) == Step(verbOf, ScanAll(verbOf, es[..i]).value, es[i])
  {
    assert es[..i + 1][..i] == es[..i];
  }

  /** Once the pass has thrown, later entities do not matter. */
  lemma {:induction false} ScanErrorPersists(verbOf: VerbResolver, es: seq<Entity>, n: nat)
    requires n <= |es| && ScanAll(verbOf, es[..n]).Err?
    ensures ScanAll(verbOf, es) == ScanAll(verbOf, es[..n])
    decreases |es| - n
  {
    if n < |es| {
      var init := es[..|es| - 1];
      assert init[..n] == es[..n];
      ScanErrorPersists(verbOf, init, n);
    } else {
      assert es[..n] == es;
    }
  }

  /** `nouns.find(({ noun: { type } }) => type === kind)`: the first noun slot of that type. */
  function FirstOfKind(ns: seq<Noun>, kind: string): (r: Option<Noun>)
    ensures r.None? <==> forall i :: 0 <= i < |ns| ==> ns[i].noun.kind != kind
    ensures r.Some? ==> (exists i :: 0 <= i < |ns| && ns[i] == r.value &&
                                 forall j :: 0 <= j < i ==> ns[j].noun.kind != kind)
    ensures r.Some? ==> r.value.noun.kind == kind
  {
    if ns == [] then None
    else if ns[0].noun.kind == kind then Some(ns[0])
    else
      var r := FirstOfKind(ns[1..], kind);
      assert r.Some? ==> exists i :: 1 <= i < |ns| && ns[i] == r.value &&
                                 forall j :: 0 <= j < i ==> ns[j].noun.kind != kind by {
        if r.Some? {
          var i :| 0 <= i < |ns[1..]| && ns[1..][i] == r.value && forall j :: 0 <= j < i ==> ns[1..][j].noun.kind != kind;
          assert ns[i + 1] == r.value;
          assert forall j :: 1 <= j < i + 1 ==> ns[j] == ns[1..][j - 1];
        }
      }
      r
  }

  // ---- Declarative descriptions of the pass --------------------------------------

  /** The first verb-typed entity. */
  function FirstVerb(es: seq<Entity>): (r: Option<Entity>)
    ensures r.None? <==> forall j :: 0 <= j < |es| ==> !IsVerb(es[j])
    ensures r.Some? ==> (exists i :: 0 <= i < |es| && es[i] == r.value && IsVerb(r.value) &&
                                 forall j :: 0 <= j < i ==> !IsVerb(es[j]))
    decreases |es|
  {
    if es == [] then None
    else
      var init := es[..|es| - 1];
      assert forall j :: 0 <= j < |init| ==> init[j] == es[j];
      match FirstVerb(init)
      case Some(v) => Some(v)
      case None => if IsVerb(es[|es| - 1]) then Some(es[|es| - 1]) else None
  }

  /** The noun entities, in order. */
  function NounEntities(es: seq<Entity>): (r: seq<Entity>)
    ensures |r| <= |es|
    ensures forall k :: 0 <= k < |r| ==> IsNoun(r[k])
    decreases |es|
  {
    if es == [] then []
    else NounEntities(es[..|es| - 1]) + (if IsNoun(es[|es| - 1]) then [es[|es| - 1]] else [])
  }

  /** The entities after the last noun entity (all of them when there is none). */
  function SinceLastNoun(es: seq<Entity>): (r: seq<Entity>)
    ensures |r| <= |es| && r == es[|es| - |r|..]
    ensures forall k :: 0 <= k < |r| ==> !IsNoun(r[k])
    ensures |r| < |es| ==> IsNoun(es[|es| - |r| - 1])
    decreases |es|
  {
    if es == [] then []
    else if IsNoun(es[|es| - 1]) then []
    else SinceLastNoun(es[..|es| - 1]) + [es[|es| - 1]]
  }

  /** The first adjective-typed entity. */
  function FirstAdjective(es: seq<Entity>): (r: Option<Entity>)
    ensures r.None? <==> forall j :: 0 <= j < |es| ==> !IsAdjective(es[j])
    ensures r.Some? ==> (exists i :: 0 <= i < |es| && es[i] == r.value && IsAdjective(r.value) &&
                                 forall j :: 0 <= j < i ==> !IsAdjective(es[j]))
    decreases |es|
  {
    if es == [] then None
    else
      var init := es[..|es| - 1];
      assert forall j :: 0 <= j < |init| ==> init[j] == es[j];
      match FirstAdjective(init)
      case Some(a) => Some(a)
      case None => if IsAdjective(es[|es| - 1]) then Some(es[|es| - 1]) else None
  }

  /** The adjective the next noun would receive after `es`: the first one since the last noun, looked up. */
  function Staged(es: seq<Entity>): Option<Word> {
    match FirstAdjective(SinceLastNoun(es))
    case None => None
    case Some(a) =>
      match AdjectiveFromEntity(a)
      case Ok(w) => Some(w)
      case Err(_) => None
  }

  /** Entity `j` is an adjective and the first one since the last noun before it, so it is looked up. */
  predicate LeadingAdjective(es: seq<Entity>, j: nat)
    requires j < |es|
  {
    IsAdjective(es[j]) && FirstAdjective(SinceLastNoun(es[..j])).None?
  }

  /** Some leading adjective has no known alias. */
  predicate UnknownLeadingAdjective(es: seq<Entity>) {
    exists j: nat :: j < |es| && LeadingAdjective(es, j) && AdjectiveFromEntity(es[j]).Err?
  }

  ghost predicate DescribesVerb(verbOf: VerbResolver, es: seq<Entity>, s: Scan) {
    && (s.verbFound <==> FirstVerb(es).Some?)
    && s.verb == (if FirstVerb(es).Some? then verbOf(FirstVerb(es).value) else None)
  }

  ghost predicate DescribesNouns(es: seq<Entity>, s: Scan) {
    && (s.nouns.None? <==> NounEntities(es) == [])
    && |NounList(s.nouns)| == |NounEntities(es)|
    && forall k :: 0 <= k < |NounEntities(es)| ==> NounList(s.nouns)[k].noun == NounFromEntity(NounEntities(es)[k])
  }

  ghost predicate DescribesStaged(es: seq<Entity>, s: Scan) {
    && s.staged == Staged(es)
    && (FirstAdjective(SinceLastNoun(es)).Some? ==> AdjectiveFromEntity(FirstAdjective(SinceLastNoun(es)).value).Ok?)
  }

  ghost predicate DescribesSlots(es: seq<Entity>, s: Scan) {
    forall p :: 0 <= p < |es| && IsNoun(es[p]) ==>
      |NounEntities(es[..p])| < |NounList(s.nouns)| &&
      NounList(s.nouns)[|NounEntities(es[..p])|] == Noun(NounFromEntity(es[p]), Staged(es[..p]))
  }

  /** Everything the pass has established after the entities `es`, when it has not thrown. */
  ghost predicate Describes(verbOf: VerbResolver, es: seq<Entity>, s: Scan) {
    DescribesVerb(verbOf, es, s) && DescribesNouns(es, s) && DescribesStaged(es, s) && DescribesSlots(es, s)
  }

  /** What one step does to each part of the state. */
  lemma StepShape(verbOf: VerbResolver, s: Scan, e: Entity)
    ensures Step(verbOf, s, e).Err? <==> IsAdjective(e) && s.staged.None? && AdjectiveFromEntity(e).Err?
    ensures Step(verbOf, s, e).Err? ==> Step(verbOf, s, e).message == RepeatThat
    ensures Step(verbOf, s, e).Ok? ==> var t := Step(verbOf, s, e).value;
      && t.verbFound == (s.verbFound || IsVerb(e))
      && t.verb == (if !s.verbFound && IsVerb(e) then verbOf(e) else s.verb)
      && t.nouns == (if IsNoun(e) then Some(NounList(s.nouns) + [Noun(NounFromEntity(e), s.staged)]) else s.nouns)
      && t.staged == (if IsNoun(e) then None
                      else if IsAdjective(e) && s.staged.None? then Some(AdjectiveFromEntity(e).value)
                      else s.staged)
  {
    NounValuesExcludeOtherTypes();
  }

  lemma FirstVerbSnoc(es: seq<Entity>, e: Entity)
    ensures FirstVerb(es + [e]) == if FirstVerb(es).Some? then FirstVerb(es) else if IsVerb(e) then Some(e) else None
  {
    assert (es + [e])[..|es|] == es;
  }

  lemma FirstAdjectiveSnoc(es: seq<Entity>, e: Entity)
    ensures FirstAdjective(es + [e]) == if FirstAdjective(es).Some? then FirstAdjective(es) else if IsAdjective(e) then Some(e) else None
  {
    assert (es + [e])[..|es|] == es;
  }

  lemma NounEntitiesSnoc(es: seq<Entity>, e: Entity)
    ensures NounEntities(es + [e]) == NounEntities(es) + (if IsNoun(e) then [e] else [])
    ensures SinceLastNoun(es + [e]) == if IsNoun(e) then [] else SinceLastNoun(es) + [e]
  {
    assert (es + [e])[..|es|] == es;
  }

  lemma StepVerb(verbOf: VerbResolver, es: seq<Entity>, s: Scan, e: Entity)
    requires DescribesVerb(verbOf, es, s) && Step(verbOf, s, e).Ok?
    ensures DescribesVerb(verbOf, es + [e], Step(verbOf, s, e).value)
  {
    StepShape(verbOf, s, e);
    FirstVerbSnoc(es, e);
  }

  lemma StepNouns(verbOf: VerbResolver, es: seq<Entity>, s: Scan, e: Entity)
    requires DescribesNouns(es, s) && Step(verbOf, s, e).Ok?
    ensures DescribesNouns(es + [e], Step(verbOf, s, e).value)
  {
    StepShape(verbOf, s, e);
    NounEntitiesSnoc(es, e);
  }

  lemma StepStaged(verbOf: VerbResolver, es: seq<Entity>, s: Scan, e: Entity)
    requires DescribesStaged(es, s) && Step(verbOf, s, e).Ok?
    ensures DescribesStaged(es + [e], Step(verbOf, s, e).value)
  {
    var t := Step(verbOf, s, e).value;
    var since := SinceLastNoun(es);
    StepShape(verbOf, s, e);
    NounEntitiesSnoc(es, e);
    if IsNoun(e) {
      assert SinceLastNoun(es + [e]) == [];
      assert t.staged == None;
    } else {
      FirstAdjectiveSnoc(since, e);
      assert SinceLastNoun(es + [e]) == since + [e];
      if FirstAdjective(since).Some? {
        assert FirstAdjective(since + [e]) == FirstAdjective(since);
        assert t.staged == s.staged;
      } else if IsAdjective(e) {
        assert FirstAdjective(since + [e]) == Some(e);
        assert t.staged == Some(AdjectiveFromEntity(e).value);
      } else {
        assert FirstAdjective(since + [e]) == None;
        assert t.staged == s.staged == None;
      }
    }
  }

  /** Appending one entity keeps every earlier slot and adds the new noun's slot at the end. */
  lemma SlotsExtend(es: seq<Entity>, e: Entity, sn: seq<Noun>, tn: seq<Noun>)
    requires |sn| == |NounEntities(es)|
    requires forall p :: 0 <= p < |es| && IsNoun(es[p]) ==>
      |NounEntities(es[..p])| < |sn| && sn[|NounEntities(es[..p])|] == Noun(NounFromEntity(es[p]), Staged(es[..p]))
    requires tn == if IsNoun(e) then sn + [Noun(NounFromEntity(e), Staged(es))] else sn
    ensures forall p :: 0 <= p < |es + [e]| && IsNoun((es + [e])[p]) ==>
      |NounEntities((es + [e])[..p])| < |tn| &&
      tn[|NounEntities((es + [e])[..p])|] == Noun(NounFromEntity((es + [e])[p]), Staged((es + [e])[..p]))
  {
    var es' := es + [e];
    forall p | 0 <= p < |es'| && IsNoun(es'[p])
      ensures |NounEntities(es'[..p])| < |tn|
      ensures tn[|NounEntities(es'[..p])|] == Noun(NounFromEntity(es'[p]), Staged(es'[..p]))
    {
      SlotsExtendAt(es, e, sn, tn, p);
    }
  }

  lemma SlotsExtendAt(es: seq<Entity>, e: Entity, sn: seq<Noun>, tn: seq<Noun>, p: nat)
    requires |sn| == |NounEntities(es)|
    requires forall p :: 0 <= p < |es| && IsNoun(es[p]) ==>
      |NounEntities(es[..p])| < |sn| && sn[|NounEntities(es[..p])|] == Noun(NounFromEntity(es[p]), Staged(es[..p]))
    requires tn == if IsNoun(e) then sn + [Noun(NounFromEntity(e), Staged(es))] else sn
    requires p < |es + [e]| && IsNoun((es + [e])[p])
    ensures |NounEntities((es + [e])[..p])| < |tn| &&
      tn[|NounEntities((es + [e])[..p])|] == Noun(NounFromEntity((es + [e])[p]), Staged((es + [e])[..p]))
  {
    var es' := es + [e];
    if p < |es| {
      assert es'[..p] == es[..p];
      assert es'[p] == es[p];
      SlotKept(sn, tn, |NounEntities(es[..p])|, Noun(NounFromEntity(es[p]), Staged(es[..p])));
    } else {
      assert es'[..p] == es;
      assert es'[p] == e;
    }
  }

  /** A slot filled before the last entity keeps its noun. */
  lemma SlotKept(sn: seq<Noun>, tn: seq<Noun>, k: nat, n: Noun)
    requires |sn| <= |tn| && tn[..|sn|] == sn
    requires k < |sn| && sn[k] == n
    ensures k < |tn| && tn[k] == n
  {
    assert tn[..|sn|][k] == tn[k];
  }

  lemma StepSlots(verbOf: VerbResolver, es: seq<Entity>, s: Scan, e: Entity)
    requires DescribesNouns(es, s) && DescribesStaged(es, s) && DescribesSlots(es, s)
    requires Step(verbOf, s, e).Ok?
    ensures DescribesSlots(es + [e], Step(verbOf, s, e).value)
  {
    var t := Step(verbOf, s, e).value;
    StepShape(verbOf, s, e);
    assert NounList(t.nouns) == if IsNoun(e) then NounList(s.nouns) + [Noun(NounFromEntity(e), Staged(es))] else NounList(s.nouns);
    SlotsExtend(es, e, NounList(s.nouns), NounList(t.nouns));
  }

  /** The pass, when it does not throw, ends in a state `Describes` characterises. */
  lemma {:induction false} ScanAllDescribes(verbOf: VerbResolver, es: seq<Entity>)
    requires ScanAll(verbOf, es).Ok?
    ensures Describes(verbOf, es, ScanAll(verbOf, es).value)
    decreases |es|
  {
    if es != [] {
      var init := es[..|es| - 1];
      var e := es[|es| - 1];
      assert es == init + [e];
      ScanAllDescribes(verbOf, init);
      var s := ScanAll(verbOf, init).value;
      StepVerb(verbOf, init, s, e);
      StepNouns(verbOf, init, s, e);
      StepStaged(verbOf, init, s, e);
      StepSlots(verbOf, init, s, e);
    }
  }

  /** Appending an entity does not change whether an earlier entity is a leading adjective. */
  lemma LeadingAdjectiveSnoc(es: seq<Entity>, e: Entity, j: nat)
    requires j < |es|
    ensures (es + [e])[j] == es[j]
    ensures LeadingAdjective(es + [e], j) == LeadingAdjective(es, j)
  {
    assert (es + [e])[..j] == es[..j];
  }

  lemma UnknownLeadingAdjectiveInit(es: seq<Entity>, e: Entity)
    requires UnknownLeadingAdjective(es)
    ensures UnknownLeadingAdjective(es + [e])
  {
    var j: nat :| j < |es| && LeadingAdjective(es, j) && AdjectiveFromEntity(es[j]).Err?;
    LeadingAdjectiveSnoc(es, e, j);
    assert j < |es + [e]| && LeadingAdjective(es + [e], j) && AdjectiveFromEntity((es + [e])[j]).Err?;
  }

  lemma UnknownLeadingAdjectiveLast(es: seq<Entity>, e: Entity)
    requires IsAdjective(e) && FirstAdjective(SinceLastNoun(es)).None? && AdjectiveFromEntity(e).Err?
    ensures UnknownLeadingAdjective(es + [e])
  {
    var es' := es + [e];
    assert es'[..|es|] == es;
    assert LeadingAdjective(es', |es|);
  }

  lemma UnknownLeadingAdjectiveCases(es: seq<Entity>, e: Entity)
    requires UnknownLeadingAdjective(es + [e])
    ensures UnknownLeadingAdjective(es) ||
      (IsAdjective(e) && FirstAdjective(SinceLastNoun(es)).None? && AdjectiveFromEntity(e).Err?)
  {
    var es' := es + [e];
    var j: nat :| j < |es'| && LeadingAdjective(es', j) && AdjectiveFromEntity(es'[j]).Err?;
    if j < |es| {
      LeadingAdjectiveSnoc(es, e, j);
      assert j < |es| && LeadingAdjective(es, j) && AdjectiveFromEntity(es[j]).Err?;
    } else {
      assert es'[..j] == es;
    }
  }

  lemma UnknownLeadingAdjectiveSnoc(es: seq<Entity>, e: Entity)
    ensures UnknownLeadingAdjective(es + [e]) <==>
      UnknownLeadingAdjective(es) ||
      (IsAdjective(e) && FirstAdjective(SinceLastNoun(es)).None? && AdjectiveFromEntity(e).Err?)
  {
    if UnknownLeadingAdjective(es + [e]) {
      UnknownLeadingAdjectiveCases(es, e);
    }
    if UnknownLeadingAdjective(es) {
      UnknownLeadingAdjectiveInit(es, e);
    }
    if IsAdjective(e) && FirstAdjective(SinceLastNoun(es)).None? && AdjectiveFromEntity(e).Err? {
      UnknownLeadingAdjectiveLast(es, e);
    }
  }

  /** The pass throws, always with the same message, exactly at an unknown leading adjective. */
  lemma {:induction false} ScanAllFailsIff(verbOf: VerbResolver, es: seq<Entity>)
    ensures ScanAll(verbOf, es).Err? <==> UnknownLeadingAdjective(es)
    ensures ScanAll(verbOf, es).Err? ==> ScanAll(verbOf, es).message == RepeatThat
    decreases |es|
  {
    if es != [] {
      var init := es[..|es| - 1];
      var e := es[|es| - 1];
      assert es == init + [e];
      ScanAllFailsIff(verbOf, init);
      UnknownLeadingAdjectiveSnoc(init, e);
      if ScanAll(verbOf, init).Ok? {
        var s := ScanAll(verbOf, init).value;
        ScanAllDescribes(verbOf, init);
        StepShape(verbOf, s, e);
      }
    }
  }

  // ---- What constructCommand promises ---------------------------------------------

  /** An empty entity list throws "I'm sorry could you repeat that?". */
  lemma EmptyEntitiesRejected(verbOf: VerbResolver)
    ensures Construct(verbOf, []) == Err(RepeatThat)
  {
  }

  /** Construction throws exactly when the list is empty or a leading adjective has no known alias. */
  lemma ConstructFailsIff(verbOf: VerbResolver, es: seq<Entity>)
    ensures Construct(verbOf, es).Err? <==> es == [] || UnknownLeadingAdjective(es)
    ensures Construct(verbOf, es).Err? ==> Construct(verbOf, es).message == RepeatThat
  {
    ScanAllFailsIff(verbOf, es);
  }

  /** Only the first verb-typed entity sets the verb. */
  lemma FirstVerbWins(verbOf: VerbResolver, es: seq<Entity>, i: nat)
    requires Construct(verbOf, es).Ok?
    requires i < |es| && IsVerb(es[i]) && forall j :: 0 <= j < i ==> !IsVerb(es[j])
    ensures Construct(verbOf, es).value.verb == verbOf(es[i])
  {
    ScanAllDescribes(verbOf, es);
    var v := FirstVerb(es).value;
    var k :| 0 <= k < |es| && es[k] == v && IsVerb(v) && forall j :: 0 <= j < k ==> !IsVerb(es[j]);
    assert k == i;
  }

  /** Without a verb-typed entity the verb is absent. */
  lemma NoVerbEntityNoVerb(verbOf: VerbResolver, es: seq<Entity>)
    requires Construct(verbOf, es).Ok?
    requires forall j :: 0 <= j < |es| ==> !IsVerb(es[j])
    ensures Construct(verbOf, es).value.verb.None?
  {
    ScanAllDescribes(verbOf, es);
  }

  /** A verb-typed entity is never a noun nor an adjective, so a later verb leaves no trace. */
  lemma VerbEntityIsNeitherNounNorAdjective(e: Entity)
    requires IsVerb(e)
    ensures !IsNoun(e) && !IsAdjective(e)
  {
    NounValuesExcludeOtherTypes();
  }

  lemma {:induction false} NounEntitiesEmptyIff(es: seq<Entity>)
    ensures NounEntities(es) == [] <==> forall j :: 0 <= j < |es| ==> !IsNoun(es[j])
    decreases |es|
  {
    if es != [] {
      var init := es[..|es| - 1];
      NounEntitiesEmptyIff(init);
      assert forall j :: 0 <= j < |init| ==> init[j] == es[j];
    }
  }

  /**
   * `nouns` has one entry per noun entity, in entity order, keeping the type and
   * lowercasing the value; it is absent exactly when there is no noun entity.
   */
  lemma NounsFollowNounEntities(verbOf: VerbResolver, es: seq<Entity>)
    requires Construct(verbOf, es).Ok?
    ensures var c := Construct(verbOf, es).value;
      && (c.nouns.None? <==> forall j :: 0 <= j < |es| ==> !IsNoun(es[j]))
      && (c.nouns.Some? ==> |c.nouns.value| > 0)
      && |NounList(c.nouns)| == |NounEntities(es)|
      && forall k :: 0 <= k < |NounEntities(es)| ==>
           NounList(c.nouns)[k].noun == Word(NounEntities(es)[k].kind, Lower(NounEntities(es)[k].value))
  {
    ScanAllDescribes(verbOf, es);
    NounEntitiesEmptyIff(es);
    var s := ScanAll(verbOf, es).value;
    var c := Construct(verbOf, es).value;
    assert c.nouns == s.nouns;
    assert DescribesNouns(es, s);
    forall k | 0 <= k < |NounEntities(es)|
      ensures NounList(c.nouns)[k].noun == Word(NounEntities(es)[k].kind, Lower(NounEntities(es)[k].value))
    {
      assert NounList(s.nouns)[k].noun == NounFromEntity(NounEntities(es)[k]);
    }
  }

  /**
   * The noun entity at position `p` fills the noun slot numbered by the noun entities
   * before it, and carries the first adjective entity since the previous noun (looked
   * up), or none: later adjectives of that slot are ignored, and none carries over.
   */
  lemma AdjectiveScoping(verbOf: VerbResolver, es: seq<Entity>, p: nat)
    requires Construct(verbOf, es).Ok?
    requires p < |es| && IsNoun(es[p])
    ensures var ns := NounList(Construct(verbOf, es).value.nouns);
      var k := |NounEntities(es[..p])|;
      k < |ns| && ns[k].noun == NounFromEntity(es[p]) && ns[k].adjective == Staged(es[..p])
  {
    ScanAllDescribes(verbOf, es);
  }

  /**
   * An adjective after the last noun is never pushed: the command is unchanged, unless
   * it is the first since that noun and its value has no alias, which throws.
   */
  lemma TrailingAdjectiveDropped(verbOf: VerbResolver, es: seq<Entity>, a: Entity)
    requires Construct(verbOf, es).Ok? && IsAdjective(a)
    ensures FirstAdjective(SinceLastNoun(es)).Some? || AdjectiveFromEntity(a).Ok? ==>
      Construct(verbOf, es + [a]) == Construct(verbOf, es)
    ensures FirstAdjective(SinceLastNoun(es)).None? && AdjectiveFromEntity(a).Err? ==>
      Construct(verbOf, es + [a]) == Err(RepeatThat)
  {
    ScanAllDescribes(verbOf, es);
    var s := ScanAll(verbOf, es).value;
    StepShape(verbOf, s, a);
    NounValuesExcludeOtherTypes();
    assert (es + [a])[..|es|] == es;
  }

  lemma NewIsAnAdjective()
    ensures AdjectiveFromEntity(Entity("adjective", "new")) == Ok(Word("new", "new"))
  {
    assert Lower("new") == "new";
    assert OccursAt(Adjectives[0].1, "new", 0);
    AdjectiveKeyAt("new", 0);
  }

  lemma BrowserEntityIsANoun(value: string)
    ensures IsNoun(Entity("browser", value)) && !IsVerb(Entity("browser", value)) && !IsAdjective(Entity("browser", value))
  {
    assert NounValues[6] == "browser";
  }

  /**
   * [adjective "new", browser "tab", browser "window"]: only the first noun receives
   * the adjective.
   */
  lemma AdjectiveAttachesToNextNounOnly(verbOf: VerbResolver, a: Entity, t: Entity, w: Entity)
    requires a == Entity("adjective", "new") && t == Entity("browser", "tab") && w == Entity("browser", "window")
    ensures Construct(verbOf, [a, t, w])
      == Ok(Command(None, Some([Noun(Word("browser", "tab"), Some(Word("new", "new"))), Noun(Word("browser", "window"), None)])))
  {
    ExamplePrefixNew(verbOf);
    ExamplePrefixTab(verbOf);
    ExamplePrefixWindow(verbOf);
  }

  const ExampleNew := Entity("adjective", "new")
  const ExampleTab := Entity("browser", "tab")
  const ExampleWindow := Entity("browser", "window")
  const ExampleTabNoun := Noun(Word("browser", "tab"), Some(Word("new", "new")))

  lemma ExamplePrefixNew(verbOf: VerbResolver)
    ensures ScanAll(verbOf, [ExampleNew]) == Ok(Scan(false, None, None, Some(Word("new", "new"))))
  {
    ExampleFirstStep(verbOf);
    ScanAllSnoc(verbOf, [], ExampleNew);
    assert [] + [ExampleNew] == [ExampleNew];
  }

  lemma ExamplePrefixTab(verbOf: VerbResolver)
    ensures ScanAll(verbOf, [ExampleNew, ExampleTab]) == Ok(Scan(false, None, Some([ExampleTabNoun]), None))
  {
    var s1 := Scan(false, None, None, Some(Word("new", "new")));
    ExamplePrefixNew(verbOf);
    BrowserEntityIsANoun("tab");
    NounStep(verbOf, s1, ExampleTab);
    assert NounFromEntity(ExampleTab) == Word("browser", "tab") by {
      assert Lower("tab") == "tab";
    }
    ScanAllSnoc(verbOf, [ExampleNew], ExampleTab);
    assert [ExampleNew] + [ExampleTab] == [ExampleNew, ExampleTab];
    assert NounList(s1.nouns) + [Noun(NounFromEntity(ExampleTab), s1.staged)] == [ExampleTabNoun];
  }

  lemma ExamplePrefixWindow(verbOf: VerbResolver)
    ensures ScanAll(verbOf, [ExampleNew, ExampleTab, ExampleWindow]) ==
      Ok(Scan(false, None, Some([ExampleTabNoun, Noun(Word("browser", "window"), None)]), None))
  {
    var s2 := Scan(false, None, Some([ExampleTabNoun]), None);
    ExamplePrefixTab(verbOf);
    BrowserEntityIsANoun("window");
    NounStep(verbOf, s2, ExampleWindow);
    assert NounFromEntity(ExampleWindow) == Word("browser", "window") by {
      assert Lower("window") == "window";
    }
    ScanAllSnoc(verbOf, [ExampleNew, ExampleTab], ExampleWindow);
    assert [ExampleNew, ExampleTab] + [ExampleWindow] == [ExampleNew, ExampleTab, ExampleWindow];
    assert NounList(s2.nouns) + [Noun(NounFromEntity(ExampleWindow), s2.staged)] ==
      [ExampleTabNoun, Noun(Word("browser", "window"), None)];
  }

  lemma ExampleFirstStep(verbOf: VerbResolver)
    ensures Step(verbOf, Start, Entity("adjective", "new")) == Ok(Scan(false, None, None, Some(Word("new", "new"))))
  {
    NewIsAnAdjective();
    NounValuesExcludeOtherTypes();
  }

  lemma NounStep(verbOf: VerbResolver, s: Scan, e: Entity)
    requires IsNoun(e)
    ensures Step(verbOf, s, e) ==
      Ok(Scan(s.verbFound, s.verb, Some(NounList(s.nouns) + [Noun(NounFromEntity(e), s.staged)]), None))
  {
    NounValuesExcludeOtherTypes();
  }

  lemma ScanAllSnoc(verbOf: VerbResolver, es: seq<Entity>, e: Entity)
    requires ScanAll(verbOf, es).Ok?
    ensures ScanAll(verbOf, es + [e]) == Step(verbOf, ScanAll(verbOf, es).value, e)
  {
    assert (es + [e])[..|es|] == es;
  }

  /** Every noun slot of a constructed command has a noun category value as its type. */
  lemma ConstructedNounKinds(verbOf: VerbResolver, es: seq<Entity>)
    requires Construct(verbOf, es).Ok?
    ensures var ns := NounList(Construct(verbOf, es).value.nouns);
      forall k :: 0 <= k < |ns| ==> ns[k].noun.kind in NounValues
  {
    NounsFollowNounEntities(verbOf, es);
  }

  /** An entity of type "tag" never becomes a noun: noun membership is exact, not by substring. */
  lemma TagTypedEntityIsNotANoun(value: string)
    ensures !IsNoun(Entity(EntityTag, value))
    ensures IsNoun(Entity(NounTag, value))
  {
    NounValuesExcludeOtherTypes();
    assert NounValues[9] == NounTag;
  }
}
