/**
 * The records the agent passes between its modules. Each is a JSON object
 * in the program (a Python dict); here each key the program reads is a
 * field, `None` standing for a key that is absent.
 */
module AgentData {
  import opened Base

  /** The values of `action_type` the program recognises. */
  const KindClick := "click"
  const KindType := "type"
  const KindSelect := "select"
  const KindScroll := "scroll"
  const KindNavigate := "navigate"
  const KindAnswer := "ANSWER"
  const KindStop := "stop"
  const KindError := "error"

  /** The literal the perception reply uses for a locator it could not find. */
  const LocatorUnavailable := "locator_unavailable"

  /**
   * A proposed next action as a planner replies it. `actionType` is missing
   * when the reply has no `action_type` key and may hold any string,
   * recognised or not.
   */
  datatype Action = Action(
    actionType: Option<string>,
    elementId: Option<string>,
    text: Option<string>,
    optionText: Option<string>,
    direction: Option<string>,
    url: Option<string>,
    content: Option<string>,
    reason: Option<string>,
    message: Option<string>,
    comment: Option<string>)

  predicate IsKind(a: Action, kind: string) {
    a.actionType == Some(kind)
  }

  /** One entry of `interactive_elements` in a perceived state. */
  datatype ElementInfo = ElementInfo(
    id: Option<string>,
    kind: Option<string>,
    text: Option<string>,
    visualDescription: Option<string>,
    cssSelector: Option<string>,
    xpath: Option<string>)

  /** One entry of `content_elements`. */
  datatype ContentInfo = ContentInfo(kind: Option<string>, text: Option<string>)

  /** A perceived page state that passed the perception shape check. */
  datatype PerceivedState = PerceivedState(
    summary: Option<string>,
    interactiveElements: seq<ElementInfo>,
    contentElements: seq<ContentInfo>)

  /** One step recorded by the control loop. */
  datatype HistoryEntry = HistoryEntry(action: Action, url: string, summary: string)

  /** A locator hint is usable when it is present, non-empty and not the sentinel. */
  predicate UsableLocator(loc: Option<string>) {
    Truthy(loc) && loc.value != LocatorUnavailable
  }

  predicate HasLocator(info: ElementInfo) {
    UsableLocator(info.cssSelector) || UsableLocator(info.xpath)
  }

  /**
   * `next((el for el in elements if el.get('id') == id), None)`: the
   * position of the first element carrying `id`, if any.
   */
  function FirstWithId(elements: seq<ElementInfo>, id: string): (r: Option<nat>)
    ensures r.Some? ==> r.value < |elements| && elements[r.value].id == Some(id)
    ensures r.Some? ==> forall j | 0 <= j < r.value :: elements[j].id != Some(id)
    ensures r.None? ==> forall j | 0 <= j < |elements| :: elements[j].id != Some(id)
  {
    if |elements| == 0 then None
    else if elements[0].id == Some(id) then Some(0)
    else
      match FirstWithId(elements[1..], id)
      case None => None
      case Some(i) => Some(i + 1)
  }
}
