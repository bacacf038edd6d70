/**
 * The execution module: turning an element id from a plan into a live,
 * interactable page element (`_find_element_for_action`), and carrying out
 * a plan (`execute`).
 *
 * The browser is a fixed page: for each locator it reports the matching
 * elements in document order, or that the locator is not a valid selector.
 */
module Execution {
  import opened Base
  import opened AgentData

  /** A live page element as the driver reports it. */
  datatype Elem = Elem(handle: nat, tagName: string, displayed: bool, enabled: bool)

  /** What Selenium calls clickable: displayed and enabled. */
  predicate Interactable(e: Elem) {
    e.displayed && e.enabled
  }

  datatype Locator = ByCss(selector: string) | ByXPath(path: string)

  /** What `find_elements` reports for one locator. */
  datatype Lookup = Matches(elems: seq<Elem>) | InvalidSelector

  /** The page, as seen through the driver's locators. */
  type Dom = Locator -> Lookup

  /** The outcome of `_find_element_for_action`: an element, `None`, or an exception it lets escape. */
  datatype Resolution = Located(elem: Elem) | NotLocated | Raised

  /**
   * `WebDriverWait(...).until(EC.element_to_be_clickable(loc))` on a page
   * that does not change: the first match, when it is displayed and
   * enabled. A timeout or an invalid selector both read as no element.
   */
  function ClickableProbe(dom: Dom, loc: Locator): (r: Option<Elem>)
    ensures r.Some? ==> Interactable(r.value)
    ensures r.Some? ==> dom(loc).Matches? && |dom(loc).elems| > 0 && r.value == dom(loc).elems[0]
    ensures dom(loc).Matches? && |dom(loc).elems| > 0 && Interactable(dom(loc).elems[0]) ==>
      r == Some(dom(loc).elems[0])
  {
    match dom(loc)
    case InvalidSelector => None
    case Matches(elems) => if |elems| > 0 && Interactable(elems[0]) then Some(elems[0]) else None
  }

  /** The position of the first displayed and enabled element. */
  function FirstInteractable(elems: seq<Elem>): (r: Option<nat>)
    ensures r.Some? ==> r.value < |elems| && Interactable(elems[r.value])
    ensures r.Some? ==> forall j | 0 <= j < r.value :: !Interactable(elems[j])
    ensures r.None? ==> forall j | 0 <= j < |elems| :: !Interactable(elems[j])
  {
    if |elems| == 0 then None
    else if Interactable(elems[0]) then Some(0)
    else
      match FirstInteractable(elems[1..])
      case None => None
      case Some(i) => Some(i + 1)
  }

  /** The heuristic XPath templates for one search text, in the order they are tried. */
  function HeuristicXPaths(text: string, elementType: string): (queries: seq<string>)
    ensures |queries| == if elementType == "input" then 9 else 8
  {
    [ ".//a[normalize-space()='" + text + "']",
      ".//button[normalize-space()='" + text + "']",
      ".//input[@value='" + text + "']",
      ".//input[@aria-label='" + text + "']",
      ".//button[@aria-label='" + text + "']",
      ".//*[@title='" + text + "']",
      "//*[normalize-space()='" + text + "']",
      "//*[contains(normalize-space(), '" + text + "')]" ]
    + (if elementType == "input" then [".//input[@placeholder='" + text + "']"] else [])
  }

  /** For an input the template list is the common one with the placeholder template appended last. */
  lemma InputTemplatesExtendCommon(text: string, elementType: string)
    requires elementType != "input"
    ensures HeuristicXPaths(text, "input") ==
      HeuristicXPaths(text, elementType) + [".//input[@placeholder='" + text + "']"]
  {
  }

  /** `[t for t in [text, visual_description] if t]` */
  function SearchTexts(info: ElementInfo): (texts: seq<string>)
    ensures forall i | 0 <= i < |texts| :: texts[i] != ""
    ensures |texts| == (if Truthy(info.text) then 1 else 0) + (if Truthy(info.visualDescription) then 1 else 0)
    ensures Truthy(info.text) ==> texts[0] == info.text.value
    ensures Truthy(info.visualDescription) ==> texts[|texts| - 1] == info.visualDescription.value
  {
    (if Truthy(info.text) then [info.text.value] else [])
      + (if Truthy(info.visualDescription) then [info.visualDescription.value] else [])
  }

  /** How running the templates of one search text ends. */
  datatype Scan = Hit(elem: Elem) | Exhausted | Aborted

  /**
   * The templates of one search text tried in order: the first displayed and
   * enabled match wins; an invalid selector abandons the remaining templates.
   */
  function ScanTemplates(queries: seq<string>, dom: Dom): (r: Scan)
    ensures r.Hit? ==> Interactable(r.elem)
  {
    if |queries| == 0 then Exhausted
    else
      match dom(ByXPath(queries[0]))
      case InvalidSelector => Aborted
      case Matches(elems) =>
        match FirstInteractable(elems)
        case Some(i) => Hit(elems[i])
        case None => ScanTemplates(queries[1..], dom)
  }

  /** The search texts tried in order, each with its full template list. */
  function ScanTexts(texts: seq<string>, elementType: string, dom: Dom): (r: Option<Elem>)
    ensures r.Some? ==> Interactable(r.value)
  {
    if |texts| == 0 then None
    else
      match ScanTemplates(HeuristicXPaths(texts[0], elementType), dom)
      case Hit(e) => Some(e)
      case _ => ScanTexts(texts[1..], elementType, dom)
  }

  /** The first search text whose templates hit decides the element. */
  lemma ScanTextsFirstHit(texts: seq<string>, elementType: string, dom: Dom)
    requires |texts| > 0 && ScanTemplates(HeuristicXPaths(texts[0], elementType), dom).Hit?
    ensures ScanTexts(texts, elementType, dom) == Some(ScanTemplates(HeuristicXPaths(texts[0], elementType), dom).elem)
  {
  }

  /** A search text whose templates are exhausted or abandoned defers to the texts after it. */
  lemma ScanTextsDefers(texts: seq<string>, elementType: string, dom: Dom)
    requires |texts| > 0 && !ScanTemplates(HeuristicXPaths(texts[0], elementType), dom).Hit?
    ensures ScanTexts(texts, elementType, dom) == ScanTexts(texts[1..], elementType, dom)
  {
  }

  /** The single XPath built from the planner's comment when the id is unknown. */
  function CommentXPath(comment: string): string {
    "//*[normalize-space()='" + comment + "' or contains(normalize-space(), '" + comment
      + "') or @aria-label='" + comment + "' or @title='" + comment + "']"
  }

  /** The resolution cascade, as a specification of `FindElementForAction`. */
  function Resolve(elementId: Option<string>, state: PerceivedState, comment: Option<string>, dom: Dom): (r: Resolution)
    ensures r.Located? ==> Interactable(r.elem)
  {
    if !Truthy(elementId) then NotLocated
    else
      match FirstWithId(state.interactiveElements, elementId.value)
      case None =>
        if !Truthy(comment) then NotLocated
        else
          (match dom(ByXPath(CommentXPath(comment.value)))
           case InvalidSelector => Raised
           case Matches(elems) =>
             if |elems| > 0 && Interactable(elems[0]) then Located(elems[0]) else NotLocated)
      case Some(k) =>
        var info := state.interactiveElements[k];
        var byCss := if UsableLocator(info.cssSelector) then ClickableProbe(dom, ByCss(info.cssSelector.value)) else None;
        var byXPath := if UsableLocator(info.xpath) then ClickableProbe(dom, ByXPath(info.xpath.value)) else None;
        if byCss.Some? then Located(byCss.value)
        else if byXPath.Some? then Located(byXPath.value)
        else
          match ScanTexts(SearchTexts(info), ToLower(info.kind.GetOr("")), dom)
          case Some(e) => Located(e)
          case None => NotLocated
  }

  /** A template that is a valid selector and matches nothing displayed and enabled. */
  predicate Barren(dom: Dom, query: string) {
    dom(ByXPath(query)).Matches? && FirstInteractable(dom(ByXPath(query)).elems).None?
  }

  /**
   * The templates of a text hit at template `k` exactly when every earlier
   * template was valid and barren: the element returned is then the first
   * displayed and enabled match of template `k`.
   */
  lemma {:induction false} ScanTemplatesHitsAt(queries: seq<string>, dom: Dom, k: nat)
    requires k < |queries|
    requires forall j | 0 <= j < k :: Barren(dom, queries[j])
    requires dom(ByXPath(queries[k])).Matches?
    requires FirstInteractable(dom(ByXPath(queries[k])).elems).Some?
    ensures ScanTemplates(queries, dom) ==
      Hit(dom(ByXPath(queries[k])).elems[FirstInteractable(dom(ByXPath(queries[k])).elems).value])
  {
    if k > 0 {
      assert Barren(dom, queries[0]);
      assert queries[1..][k - 1] == queries[k];
      ScanTemplatesHitsAt(queries[1..], dom, k - 1);
    }
  }

  /** An invalid template after barren ones abandons the text. */
  lemma {:induction false} ScanTemplatesAbortsAt(queries: seq<string>, dom: Dom, k: nat)
    requires k < |queries|
    requires forall j | 0 <= j < k :: Barren(dom, queries[j])
    requires dom(ByXPath(queries[k])).InvalidSelector?
    ensures ScanTemplates(queries, dom) == Aborted
  {
    if k > 0 {
      assert Barren(dom, queries[0]);
      assert queries[1..][k - 1] == queries[k];
      ScanTemplatesAbortsAt(queries[1..], dom, k - 1);
    }
  }

  /** When every template is valid and barren the text is exhausted. */
  lemma {:induction false} ScanTemplatesExhausts(queries: seq<string>, dom: Dom)
    requires forall j | 0 <= j < |queries| :: Barren(dom, queries[j])
    ensures ScanTemplates(queries, dom) == Exhausted
  {
    if |queries| > 0 {
      assert Barren(dom, queries[0]);
      ScanTemplatesExhausts(queries[1..], dom);
    }
  }

  /** No element id, or an unknown id without a comment: nothing is located. */
  lemma ResolveNeedsIdOrComment(elementId: Option<string>, state: PerceivedState, comment: Option<string>, dom: Dom)
    requires !Truthy(elementId)
      || (FirstWithId(state.interactiveElements, elementId.value).None? && !Truthy(comment))
    ensures Resolve(elementId, state, comment, dom) == NotLocated
  {
  }

  /**
   * An unknown id with a comment: the single comment match is returned only
   * when it is displayed and enabled; an invalid comment selector escapes.
   */
  lemma ResolveByComment(elementId: string, state: PerceivedState, comment: string, dom: Dom)
    requires elementId != "" && comment != ""
    requires forall i | 0 <= i < |state.interactiveElements| :: state.interactiveElements[i].id != Some(elementId)
    ensures var lookup := dom(ByXPath(CommentXPath(comment)));
      Resolve(Some(elementId), state, Some(comment), dom) ==
        if lookup.InvalidSelector? then Raised
        else if |lookup.elems| > 0 && Interactable(lookup.elems[0]) then Located(lookup.elems[0])
        else NotLocated
  {
  }

  /**
   * The CSS hint comes first: when the first element with the id has a usable
   * CSS selector whose first match is clickable, that match is the answer,
   * whatever the XPath hint or the texts would find.
   */
  lemma ResolveCssFirst(elementId: string, state: PerceivedState, comment: Option<string>, dom: Dom, k: nat)
    requires elementId != ""
    requires k < |state.interactiveElements| && state.interactiveElements[k].id == Some(elementId)
    requires forall j | 0 <= j < k :: state.interactiveElements[j].id != Some(elementId)
    requires UsableLocator(state.interactiveElements[k].cssSelector)
    requires ClickableProbe(dom, ByCss(state.interactiveElements[k].cssSelector.value)).Some?
    ensures Resolve(Some(elementId), state, comment, dom) ==
      Located(dom(ByCss(state.interactiveElements[k].cssSelector.value)).elems[0])
  {
  }

  /**
   * The XPath hint comes second: it is used only when the CSS hint is
   * unusable or its probe fails.
   */
  lemma ResolveXPathSecond(elementId: string, state: PerceivedState, comment: Option<string>, dom: Dom, k: nat)
    requires elementId != ""
    requires k < |state.interactiveElements| && state.interactiveElements[k].id == Some(elementId)
    requires forall j | 0 <= j < k :: state.interactiveElements[j].id != Some(elementId)
    requires var info := state.interactiveElements[k];
      !UsableLocator(info.cssSelector) || ClickableProbe(dom, ByCss(info.cssSelector.value)).None?
    requires UsableLocator(state.interactiveElements[k].xpath)
    requires ClickableProbe(dom, ByXPath(state.interactiveElements[k].xpath.value)).Some?
    ensures Resolve(Some(elementId), state, comment, dom) ==
      Located(dom(ByXPath(state.interactiveElements[k].xpath.value)).elems[0])
  {
  }

  /**
   * The heuristic search comes third: when neither hint yields a clickable
   * element, the search over the element's text and then its visual
   * description decides the result.
   */
  lemma ResolveHeuristicThird(elementId: string, state: PerceivedState, comment: Option<string>, dom: Dom, k: nat)
    requires elementId != ""
    requires k < |state.interactiveElements| && state.interactiveElements[k].id == Some(elementId)
    requires forall j | 0 <= j < k :: state.interactiveElements[j].id != Some(elementId)
    requires var info := state.interactiveElements[k];
      && (!UsableLocator(info.cssSelector) || ClickableProbe(dom, ByCss(info.cssSelector.value)).None?)
      && (!UsableLocator(info.xpath) || ClickableProbe(dom, ByXPath(info.xpath.value)).None?)
    ensures var info := state.interactiveElements[k];
      Resolve(Some(elementId), state, comment, dom) ==
        match ScanTexts(SearchTexts(info), ToLower(info.kind.GetOr("")), dom)
        case Some(e) => Located(e)
        case None => NotLocated
  {
  }

  /** `_find_element_for_action` */
  method FindElementForAction(elementId: Option<string>, state: PerceivedState, comment: Option<string>, dom: Dom)
    returns (r: Resolution)
    ensures r == Resolve(elementId, state, comment, dom)
  {
    if !Truthy(elementId) {
      return NotLocated;
    }
    var found := FirstWithId(state.interactiveElements, elementId.value);
    if found.None? {
      if Truthy(comment) {
        match dom(ByXPath(CommentXPath(comment.value))) {
          case InvalidSelector =>
            return Raised;
          case Matches(elems) =>
            if |elems| > 0 && elems[0].displayed && elems[0].enabled {
              return Located(elems[0]);
            }
        }
      }
      return NotLocated;
    }
    var info := state.interactiveElements[found.value];

    if UsableLocator(info.cssSelector) {
      var probe := ClickableProbe(dom, ByCss(info.cssSelector.value));
      if probe.Some? {
        return Located(probe.value);
      }
    }
    if UsableLocator(info.xpath) {
      var probe := ClickableProbe(dom, ByXPath(info.xpath.value));
      if probe.Some? {
        return Located(probe.value);
      }
    }

    var elementType := ToLower(info.kind.GetOr(""));
    var texts := SearchTexts(info);
    var t := 0;
    while t < |texts|
      invariant 0 <= t <= |texts|
      invariant ScanTexts(texts[t..], elementType, dom) == ScanTexts(texts, elementType, dom)
    {
      var scan := TryTemplates(HeuristicXPaths(texts[t], elementType), dom);
      if scan.Hit? {
        return Located(scan.elem);
      }
      assert texts[t..][1..] == texts[t + 1..];
      t := t + 1;
    }
    return NotLocated;
  }

  /** The template loop for one search text, with its `except` that abandons the rest. */
  method TryTemplates(queries: seq<string>, dom: Dom) returns (r: Scan)
    ensures r == ScanTemplates(queries, dom)
  {
    var q := 0;
    while q < |queries|
      invariant 0 <= q <= |queries|
      invariant ScanTemplates(queries[q..], dom) == ScanTemplates(queries, dom)
    {
      match dom(ByXPath(queries[q])) {
        case InvalidSelector =>
          return Aborted;
        case Matches(elems) =>
          var found := FindInteractable(elems);
          if found.Some? {
            return Hit(elems[found.value]);
          }
      }
      assert queries[q..][1..] == queries[q + 1..];
      q := q + 1;
    }
    return Exhausted;
  }

  /** The loop over one template's matches: the first displayed and enabled one. */
  method FindInteractable(elems: seq<Elem>) returns (r: Option<nat>)
    ensures r == FirstInteractable(elems)
  {
    var e := 0;
    while e < |elems|
      invariant 0 <= e <= |elems|
      invariant forall j | 0 <= j < e :: !Interactable(elems[j])
    {
      if elems[e].displayed && elems[e].enabled {
        FirstInteractableIsFirst(elems, e);
        return Some(e);
      }
      e := e + 1;
    }
    FirstInteractableIsFirst(elems, |elems|);
    return None;
  }

  /** `FirstInteractable` is determined by where the first interactable element sits, if anywhere. */
  lemma FirstInteractableIsFirst(elems: seq<Elem>, k: nat)
    requires k <= |elems|
    requires forall j | 0 <= j < k :: !Interactable(elems[j])
    requires k < |elems| ==> Interactable(elems[k])
    ensures FirstInteractable(elems) == if k < |elems| then Some(k) else None
  {
    var r := FirstInteractable(elems);
    if r.Some? {
      assert r.value >= k;
    }
  }

  const DownOneViewport := "down_one_viewport"

  /**
   * How the driver's own calls went for the action being executed: the
   * native interaction, its JavaScript fallback, the two ways of choosing a
   * select option, the scroll script, and navigation with its wait for the
   * page body.
   */
  datatype DriverEffects = DriverEffects(
    nativeInteraction: bool,
    scriptInteraction: bool,
    selectedByText: bool,
    selectedByValue: bool,
    scrolled: bool,
    navigated: bool)

  predicate RecognisedKind(action: Action) {
    || IsKind(action, KindClick) || IsKind(action, KindType) || IsKind(action, KindSelect)
    || IsKind(action, KindScroll) || IsKind(action, KindNavigate) || IsKind(action, KindAnswer)
    || IsKind(action, KindStop) || IsKind(action, KindError)
  }

  /** Whether `execute` reports the action as carried out, case by action type. */
  predicate Succeeds(action: Action, state: PerceivedState, dom: Dom, fx: DriverEffects) {
    if IsKind(action, KindClick) || IsKind(action, KindType) then
      Resolve(action.elementId, state, action.comment, dom).Located? && (fx.nativeInteraction || fx.scriptInteraction)
    else if IsKind(action, KindSelect) then
      var found := Resolve(action.elementId, state, action.comment, dom);
      found.Located? && ToLower(found.elem.tagName) == "select" && (fx.selectedByText || fx.selectedByValue)
    else if IsKind(action, KindScroll) then
      action.direction.GetOr(DownOneViewport) == DownOneViewport && fx.scrolled
    else if IsKind(action, KindNavigate) then
      Truthy(action.url) && fx.navigated
    else
      IsKind(action, KindAnswer) || IsKind(action, KindStop)
  }

  /**
   * An action on an element succeeds only on a displayed and enabled
   * element the cascade located, and a select only on a `select` element;
   * an element the cascade cannot locate fails the action whatever the
   * driver would have done.
   */
  lemma SuccessNeedsLocatedElement(action: Action, state: PerceivedState, dom: Dom, fx: DriverEffects)
    requires IsKind(action, KindClick) || IsKind(action, KindType) || IsKind(action, KindSelect)
    ensures Succeeds(action, state, dom, fx) ==>
      && Resolve(action.elementId, state, action.comment, dom).Located?
      && Interactable(Resolve(action.elementId, state, action.comment, dom).elem)
    ensures Succeeds(action, state, dom, fx) && IsKind(action, KindSelect) ==>
      ToLower(Resolve(action.elementId, state, action.comment, dom).elem.tagName) == "select"
    ensures !Resolve(action.elementId, state, action.comment, dom).Located? ==> !Succeeds(action, state, dom, fx)
  {
  }

  /** `execute`: whether the action counts as carried out. */
  method Execute(action: Action, state: PerceivedState, dom: Dom, fx: DriverEffects) returns (ok: bool)
    ensures ok == Succeeds(action, state, dom, fx)
    ensures IsKind(action, KindAnswer) || IsKind(action, KindStop) ==> ok
    ensures IsKind(action, KindError) || !RecognisedKind(action) ==> !ok
    ensures IsKind(action, KindClick) || IsKind(action, KindType) ==>
      (ok <==> Resolve(action.elementId, state, action.comment, dom).Located?
               && (fx.nativeInteraction || fx.scriptInteraction))
    ensures IsKind(action, KindSelect) ==>
      (ok <==> && Resolve(action.elementId, state, action.comment, dom).Located?
               && ToLower(Resolve(action.elementId, state, action.comment, dom).elem.tagName) == "select"
               && (fx.selectedByText || fx.selectedByValue))
    ensures IsKind(action, KindScroll) ==>
      (ok <==> action.direction.GetOr(DownOneViewport) == DownOneViewport && fx.scrolled)
    ensures IsKind(action, KindNavigate) ==> (ok <==> Truthy(action.url) && fx.navigated)
  {
    if IsKind(action, KindClick) || IsKind(action, KindType) {
      var found := FindElementForAction(action.elementId, state, action.comment, dom);
      if found.Raised? {
        return false;
      }
      if found.Located? {
        if fx.nativeInteraction {
          return true;
        }
        return fx.scriptInteraction;
      }
      return false;
    } else if IsKind(action, KindSelect) {
      var found := FindElementForAction(action.elementId, state, action.comment, dom);
      if found.Located? && ToLower(found.elem.tagName) == "select" {
        if fx.selectedByText {
          return true;
        }
        return fx.selectedByValue;
      }
      return false;
    } else if IsKind(action, KindScroll) {
      var direction := action.direction.GetOr(DownOneViewport);
      if direction == DownOneViewport {
        return fx.scrolled;
      }
      return false;
    } else if IsKind(action, KindNavigate) {
      if Truthy(action.url) {
        return fx.navigated;
      }
      return false;
    } else if IsKind(action, KindAnswer) || IsKind(action, KindStop) {
      return true;
    } else {
      return false;
    }
  }
}
