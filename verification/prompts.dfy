/**
 * The planning module's deterministic text work: rendering the perceived
 * elements, the content elements and the history into prompt text, and
 * cutting preprocessed markup down to a length limit.
 */
module Prompts {
  import opened Base
  import opened AgentData

  /** `el.get('text') or el.get('visual_description') or 'No text/desc'` */
  function TextOrDescription(el: ElementInfo): (r: string)
    ensures r != ""
    ensures Truthy(el.text) ==> r == el.text.value
    ensures !Truthy(el.text) && Truthy(el.visualDescription) ==> r == el.visualDescription.value
    ensures !Truthy(el.text) && !Truthy(el.visualDescription) ==> r == "No text/desc"
  {
    if Truthy(el.text) then el.text.value
    else if Truthy(el.visualDescription) then el.visualDescription.value
    else "No text/desc"
  }

  const UnavailableNote := ", Locator: UNAVAILABLE"

  /** The locator part of an element's line. */
  function LocatorInfo(el: ElementInfo): string {
    var css := if UsableLocator(el.cssSelector) then ", CSS: '" + el.cssSelector.value + "'" else "";
    var xpath := if UsableLocator(el.xpath) then ", XPath: '" + el.xpath.value + "'" else "";
    var info := css + xpath;
    if info == "" && (el.cssSelector == Some(LocatorUnavailable) || el.xpath == Some(LocatorUnavailable))
    then UnavailableNote
    else info
  }

  /**
   * Each usable locator is quoted, CSS before XPath, and the "unavailable"
   * note appears exactly when none is usable but one of them is the
   * sentinel; otherwise an element without locators gets no locator part.
   */
  lemma LocatorInfoCases(el: ElementInfo)
    ensures UsableLocator(el.cssSelector) && UsableLocator(el.xpath) ==>
      LocatorInfo(el) == ", CSS: '" + el.cssSelector.value + "'" + ", XPath: '" + el.xpath.value + "'"
    ensures UsableLocator(el.cssSelector) && !UsableLocator(el.xpath) ==>
      LocatorInfo(el) == ", CSS: '" + el.cssSelector.value + "'"
    ensures !UsableLocator(el.cssSelector) && UsableLocator(el.xpath) ==>
      LocatorInfo(el) == ", XPath: '" + el.xpath.value + "'"
    ensures LocatorInfo(el) == UnavailableNote <==>
      !HasLocator(el) && (el.cssSelector == Some(LocatorUnavailable) || el.xpath == Some(LocatorUnavailable))
    ensures LocatorInfo(el) == "" <==>
      !HasLocator(el) && el.cssSelector != Some(LocatorUnavailable) && el.xpath != Some(LocatorUnavailable)
  {
    var css := if UsableLocator(el.cssSelector) then ", CSS: '" + el.cssSelector.value + "'" else "";
    var xpath := if UsableLocator(el.xpath) then ", XPath: '" + el.xpath.value + "'" else "";
    assert css + xpath != "" ==> (css + xpath)[2] == 'C' || (css + xpath)[2] == 'X';
  }

  function ElementLine(el: ElementInfo): string {
    "- ID: " + el.id.GetOr("Unknown") + ", Type: " + el.kind.GetOr("Unknown")
      + ", Text/Desc: '" + TextOrDescription(el) + "'" + LocatorInfo(el)
  }

  /** One rendered line per item, in order. */
  function Lines<T>(items: seq<T>, line: T -> string): (lines: seq<string>)
    ensures |lines| == |items|
    ensures forall i | 0 <= i < |items| :: lines[i] == line(items[i])
  {
    seq(|items|, i requires 0 <= i < |items| => line(items[i]))
  }

  /** The list-building loop shared by the formatters: one `append` per item. */
  method CollectLines<T>(items: seq<T>, line: T -> string) returns (formatted: seq<string>)
    ensures formatted == Lines(items, line)
  {
    formatted := [];
    var i := 0;
    while i < |items|
      invariant 0 <= i <= |items|
      invariant |formatted| == i
      invariant forall j | 0 <= j < i :: formatted[j] == line(items[j])
    {
      formatted := formatted + [line(items[i])];
      i := i + 1;
    }
  }

  /** `_format_elements`: one line per element, in order, or "None" for no elements. */
  function FormatElements(elements: seq<ElementInfo>): (r: string)
    ensures r == "None" <==> |elements| == 0
    ensures |elements| > 0 ==> StartsWith(r, ElementLine(elements[0]))
  {
    if |elements| == 0 then "None"
    else
      var lines := Lines(elements, ElementLine);
      JoinStartsWithFirst(lines, "\n");
      Join(lines, "\n")
  }

  /** `_format_elements` as the loop that collects the lines and joins them. */
  method RenderElements(elements: seq<ElementInfo>) returns (r: string)
    ensures r == FormatElements(elements)
  {
    if |elements| == 0 {
      return "None";
    }
    var formatted := CollectLines(elements, ElementLine);
    r := Join(formatted, "\n");
  }

  function ContentLine(el: ContentInfo): string {
    "- Type: " + el.kind.GetOr("Unknown") + ", Content: '" + el.text.GetOr("N/A") + "'"
  }

  /** `_format_content`: one line per content element, or "None" for none. */
  function FormatContent(elements: seq<ContentInfo>): (r: string)
    ensures r == "None" <==> |elements| == 0
    ensures |elements| > 0 ==> StartsWith(r, ContentLine(elements[0]))
  {
    if |elements| == 0 then "None"
    else
      var lines := Lines(elements, ContentLine);
      JoinStartsWithFirst(lines, "\n");
      Join(lines, "\n")
  }

  /** Rendering one more item adds exactly its line, after a newline, to the joined lines. */
  lemma JoinLinesAppend<T>(items: seq<T>, item: T, line: T -> string)
    requires |items| > 0
    ensures Join(Lines(items + [item], line), "\n") == Join(Lines(items, line), "\n") + "\n" + line(item)
  {
    assert Lines(items + [item], line) == Lines(items, line) + [line(item)];
    JoinSnoc(Lines(items, line), "\n", line(item));
  }

  /** One more element adds exactly its line at the end of the rendered list. */
  lemma FormatElementsAppend(elements: seq<ElementInfo>, el: ElementInfo)
    ensures FormatElements(elements + [el]) ==
      if |elements| == 0 then ElementLine(el)
      else FormatElements(elements) + "\n" + ElementLine(el)
  {
    if |elements| == 0 {
      assert Lines([el], ElementLine) == [ElementLine(el)];
    } else {
      JoinLinesAppend(elements, el, ElementLine);
    }
  }

  /** One more content element adds exactly its line at the end of the rendered list. */
  lemma FormatContentAppend(elements: seq<ContentInfo>, el: ContentInfo)
    ensures FormatContent(elements + [el]) ==
      if |elements| == 0 then ContentLine(el)
      else FormatContent(elements) + "\n" + ContentLine(el)
  {
    if |elements| == 0 {
      assert Lines([el], ContentLine) == [ContentLine(el)];
    } else {
      JoinLinesAppend(elements, el, ContentLine);
    }
  }

  /** The line of step `index` (counted from 0) of the history; `dump` stands for `json.dumps`. */
  function HistoryLine(index: nat, entry: HistoryEntry, dump: Action -> string): string {
    "Step " + NatToString(index + 1) + ": URL='" + entry.url + "', Summary='" + entry.summary
      + "', Action=" + dump(entry.action)
  }

  function HistoryLines(history: seq<HistoryEntry>, dump: Action -> string): (lines: seq<string>)
    ensures |lines| == |history|
    ensures forall i | 0 <= i < |history| :: lines[i] == HistoryLine(i, history[i], dump)
  {
    seq(|history|, i requires 0 <= i < |history| => HistoryLine(i, history[i], dump))
  }

  const NoHistory := "None (first step)"

  /** `_format_history`: numbered lines from "Step 1", or a first-step note. */
  function FormatHistory(history: seq<HistoryEntry>, dump: Action -> string): (r: string)
    ensures r == NoHistory <==> |history| == 0
  {
    if |history| == 0 then NoHistory
    else
      var lines := HistoryLines(history, dump);
      JoinStartsWithFirst(lines, "\n");
      assert lines[0][0] == 'S';
      Join(lines, "\n")
  }

  /** `_format_history` as the loop that numbers and collects the lines. */
  method RenderHistory(history: seq<HistoryEntry>, dump: Action -> string) returns (r: string)
    ensures r == FormatHistory(history, dump)
  {
    if |history| == 0 {
      return NoHistory;
    }
    var formatted: seq<string> := [];
    var i := 0;
    while i < |history|
      invariant 0 <= i <= |history|
      invariant |formatted| == i
      invariant forall j | 0 <= j < i :: formatted[j] == HistoryLine(j, history[j], dump)
    {
      formatted := formatted + [HistoryLine(i, history[i], dump)];
      i := i + 1;
    }
    assert formatted == HistoryLines(history, dump);
    r := Join(formatted, "\n");
  }

  /**
   * Recording one more step adds exactly one line, numbered one past the
   * previous last, to the rendered history.
   */
  lemma FormatHistoryAppend(history: seq<HistoryEntry>, entry: HistoryEntry, dump: Action -> string)
    ensures FormatHistory(history + [entry], dump) ==
      if |history| == 0 then HistoryLine(0, entry, dump)
      else FormatHistory(history, dump) + "\n" + HistoryLine(|history|, entry, dump)
  {
    var longer := history + [entry];
    assert HistoryLines(longer, dump) == HistoryLines(history, dump) + [HistoryLine(|history|, entry, dump)];
    if |history| > 0 {
      JoinSnoc(HistoryLines(history, dump), "\n", HistoryLine(|history|, entry, dump));
    }
  }

  /** `s.rfind(c)`: the last position of `c`, or -1. */
  function LastIndexOf(s: string, c: char): (r: int)
    ensures -1 <= r < |s|
    ensures r >= 0 ==> s[r] == c && forall j | r < j < |s| :: s[j] != c
    ensures r == -1 ==> forall j | 0 <= j < |s| :: s[j] != c
  {
    if |s| == 0 then -1
    else if s[|s| - 1] == c then |s| - 1
    else LastIndexOf(s[..|s| - 1], c)
  }

  /**
   * The length limit at the end of `_preprocess_html`: markup over the limit
   * is cut after the last '>' within the limit, or at the limit when there
   * is none.
   */
  function TruncateHtml(html: string, maxLength: nat): (r: string)
    ensures r <= html
    ensures |html| <= maxLength ==> r == html
    ensures |html| > maxLength ==> |r| <= maxLength
    ensures |html| > maxLength && '>' in html[..maxLength] ==>
      && |r| > 0 && r[|r| - 1] == '>'
      && '>' !in html[|r|..maxLength]
    ensures |html| > maxLength && '>' !in html[..maxLength] ==> r == html[..maxLength]
  {
    if |html| > maxLength then
      var end := LastIndexOf(html[..maxLength], '>');
      if end != -1 then html[..end + 1] else html[..maxLength]
    else html
  }
}
