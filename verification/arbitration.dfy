/**
 * Plan arbitration: when the agent runs in dual mode, one plan comes from
 * the screenshot (the vision plan) and one from the page markup (the HTML
 * plan), and a fixed priority ladder picks the one to execute.
 */
module Arbitration {
  import opened Base
  import opened AgentData

  /** A plan that acts on an element: it names one and is a click, type or select. */
  predicate ElementTargeted(plan: Action) {
    && Truthy(plan.elementId)
    && (IsKind(plan, KindClick) || IsKind(plan, KindType) || IsKind(plan, KindSelect))
  }

  /**
   * The inner `get_element_locator_quality`: how reliably the element a plan
   * targets can be located in the perceived state.
   */
  function LocatorQuality(plan: Action, state: PerceivedState): (q: int)
    ensures -1 <= q <= 2
  {
    if !ElementTargeted(plan) then 0
    else
      match FirstWithId(state.interactiveElements, plan.elementId.value)
      case None => -1
      case Some(i) => if HasLocator(state.interactiveElements[i]) then 2 else 1
  }

  /**
   * 0 for a plan that targets no element, -1 when no perceived element has
   * the id, 2 when the first element with the id has a usable locator, and
   * 1 when it has none.
   */
  lemma LocatorQualityCases(plan: Action, state: PerceivedState)
    ensures LocatorQuality(plan, state) == 0 <==> !ElementTargeted(plan)
    ensures LocatorQuality(plan, state) == -1 <==>
      && ElementTargeted(plan)
      && forall i | 0 <= i < |state.interactiveElements| :: state.interactiveElements[i].id != plan.elementId
    ensures LocatorQuality(plan, state) == 2 <==>
      && ElementTargeted(plan)
      && exists i | 0 <= i < |state.interactiveElements| ::
           && state.interactiveElements[i].id == plan.elementId
           && HasLocator(state.interactiveElements[i])
           && forall j | 0 <= j < i :: state.interactiveElements[j].id != plan.elementId
  {
  }

  /** `compare_plans`: the plan the agent executes in dual mode. */
  function ComparePlans(vision: Action, html: Action, state: PerceivedState): (chosen: Action)
    ensures chosen == vision || chosen == html
  {
    if IsKind(vision, KindError) then html
    else if IsKind(html, KindError) then vision
    else if IsKind(vision, KindStop) then vision
    else if IsKind(html, KindStop) && !IsKind(vision, KindAnswer) then html
    else if IsKind(vision, KindAnswer) then vision
    else if IsKind(html, KindAnswer) then html
    else
      var visionQuality := LocatorQuality(vision, state);
      var htmlQuality := LocatorQuality(html, state);
      if visionQuality > htmlQuality then vision
      else if htmlQuality > visionQuality then html
      else if visionQuality == -1 && htmlQuality == -1 then vision
      else vision
  }

  /** Neither plan is an error, a stop or an answer: the quality comparison decides. */
  predicate NoShortCircuit(vision: Action, html: Action) {
    && !IsKind(vision, KindError) && !IsKind(html, KindError)
    && !IsKind(vision, KindStop) && !IsKind(html, KindStop)
    && !IsKind(vision, KindAnswer) && !IsKind(html, KindAnswer)
  }

  /** The six short-circuit rules, each applying when the ones above it do not. */
  lemma ArbitrationLadder(vision: Action, html: Action, state: PerceivedState)
    ensures IsKind(vision, KindError) ==> ComparePlans(vision, html, state) == html
    ensures !IsKind(vision, KindError) && IsKind(html, KindError) ==>
      ComparePlans(vision, html, state) == vision
    ensures !IsKind(html, KindError) && IsKind(vision, KindStop) ==>
      ComparePlans(vision, html, state) == vision
    ensures (!IsKind(vision, KindError) && !IsKind(vision, KindStop) && !IsKind(vision, KindAnswer)
             && IsKind(html, KindStop)) ==> ComparePlans(vision, html, state) == html
    ensures !IsKind(html, KindError) && IsKind(vision, KindAnswer) ==>
      ComparePlans(vision, html, state) == vision
    ensures (!IsKind(vision, KindError) && !IsKind(vision, KindStop) && !IsKind(vision, KindAnswer)
             && !IsKind(html, KindStop) && IsKind(html, KindAnswer)) ==> ComparePlans(vision, html, state) == html
  {
  }

  /**
   * Past the short-circuits the plan of strictly higher locator quality
   * wins; every tie, both -1 and both 0 included, goes to the vision plan.
   */
  lemma ArbitrationByQuality(vision: Action, html: Action, state: PerceivedState)
    requires NoShortCircuit(vision, html)
    ensures LocatorQuality(vision, state) > LocatorQuality(html, state) ==> ComparePlans(vision, html, state) == vision
    ensures LocatorQuality(html, state) > LocatorQuality(vision, state) ==> ComparePlans(vision, html, state) == html
    ensures LocatorQuality(vision, state) == LocatorQuality(html, state) ==> ComparePlans(vision, html, state) == vision
  {
  }

  /**
   * Swapping the two plans changes nothing past the short-circuits exactly
   * when their qualities differ (or the plans are equal): a tie always
   * favours whichever plan is passed first.
   */
  lemma ArbitrationSwap(vision: Action, html: Action, state: PerceivedState)
    requires NoShortCircuit(vision, html)
    ensures ComparePlans(vision, html, state) == ComparePlans(html, vision, state) <==>
      LocatorQuality(vision, state) != LocatorQuality(html, state) || vision == html
  {
  }

  /**
   * A stop against an answer goes to the vision plan in both orders: a
   * vision stop beats an HTML answer, and a vision answer beats an HTML stop.
   */
  lemma StopAgainstAnswer(vision: Action, html: Action, state: PerceivedState)
    requires (IsKind(vision, KindStop) && IsKind(html, KindAnswer)) || (IsKind(vision, KindAnswer) && IsKind(html, KindStop))
    ensures ComparePlans(vision, html, state) == vision
  {
  }

  /**
   * `plan_action` once the perceived state is free of errors: the vision
   * plan, unless dual mode is on and page markup is at hand, in which case
   * the arbitrated plan.
   */
  function PlanAction(useDualMode: bool, pageSource: string, vision: Action, html: Action,
                      state: PerceivedState): (plan: Action)
    ensures useDualMode && pageSource != "" ==> plan == ComparePlans(vision, html, state)
    ensures !(useDualMode && pageSource != "") ==> plan == vision
  {
    if useDualMode && pageSource != "" then ComparePlans(vision, html, state) else vision
  }
}
