/**
 * What the assistant's handlers do to the world, as values: messages to the relay,
 * window scrolls and navigations, and the outcome of one executor in a chain.
 */
module Effects {
  import opened Text
  import opened Lexicon
  import opened Commands

  /** The search request a message may carry. */
  datatype Search = Search(disposition: Option<Disposition>, query: string)

  /** `Message`: what a content page sends to the background relay. */
  datatype Message = Message(
    intent: string,
    command: Option<Command>,
    action: Option<string>,
    tabPosition: Option<int>,
    website: Option<string>,
    search: Option<Search>)

  /** `{ intent, command }` */
  function CommandMessage(intent: string, command: Command): Message {
    Message(intent, Some(command), None, None, None, None)
  }

  /** `{ intent }` */
  function IntentMessage(intent: string): Message {
    Message(intent, None, None, None, None, None)
  }

  /**
   * The page metrics the scroll handlers read: the body's `scrollHeight`, the first
   * element of `getMaxChildScrollHeight(body)`, and the visual viewport's size.
   */
  datatype Document = Document(
    bodyScrollHeight: int,
    maxChildScrollHeight: int,
    viewportWidth: real,
    viewportHeight: real)

  /**
   * A window call or a message to the relay. `ScrollTo(to)` is `window.scrollTo` with
   * `top: to` (no `top` when `None`); `ScrollBy(dy, dx)` is `window.scrollBy` with
   * `top: dy, left: dx`. `SendMessage(m)` is a message to the relay: either
   * `chrome.runtime.sendMessage(m)` (the REFRESH message), or `sendMessageToBackground(m)`
   * (the TAB and NAVIGATION messages), whose body is not part of this model and which is
   * taken to deliver `m` unchanged.
   */
  datatype Effect =
    | ScrollTo(to: Option<real>)
    | ScrollBy(dy: real, dx: real)
    | SetLocation(url: string)
    | SendMessage(message: Message)

  /** One executor's outcome: it claimed the command (with what it did), declined, or threw. */
  datatype Claim = Handled(effects: seq<Effect>) | NotApplicable | Threw(message: string)

  /**
   * `executions.find(execution => execution(command))`: the executors run in order
   * and the first that does not decline ends the chain (a throw ends it too).
   */
  function FirstClaim(claims: seq<Claim>): (r: Claim)
    ensures r.NotApplicable? <==> forall i :: 0 <= i < |claims| ==> claims[i].NotApplicable?
    ensures !r.NotApplicable? ==> (exists i :: 0 <= i < |claims| && claims[i] == r &&
                                          forall j :: 0 <= j < i ==> claims[j].NotApplicable?)
  {
    if claims == [] then NotApplicable
    else if !claims[0].NotApplicable? then claims[0]
    else
      var r := FirstClaim(claims[1..]);
      assert !r.NotApplicable? ==> exists i :: 1 <= i < |claims| && claims[i] == r &&
                                          forall j :: 0 <= j < i ==> claims[j].NotApplicable? by {
        if !r.NotApplicable? {
          var i :| 0 <= i < |claims[1..]| && claims[1..][i] == r && forall j :: 0 <= j < i ==> claims[1..][j].NotApplicable?;
          assert claims[i + 1] == r;
          assert forall j :: 1 <= j < i + 1 ==> claims[j] == claims[1..][j - 1];
        }
      }
      r
  }

  /** Executors after the first claim do not matter. */
  lemma {:induction false} LaterClaimsIgnored(claims: seq<Claim>, rest: seq<Claim>)
    requires exists i :: 0 <= i < |claims| && !claims[i].NotApplicable?
    ensures FirstClaim(claims + rest) == FirstClaim(claims)
  {
    if claims[0].NotApplicable? {
      assert (claims + rest)[1..] == claims[1..] + rest;
      var i :| 0 <= i < |claims| && !claims[i].NotApplicable?;
      assert i > 0 && !claims[1..][i - 1].NotApplicable?;
      LaterClaimsIgnored(claims[1..], rest);
    }
  }
}
