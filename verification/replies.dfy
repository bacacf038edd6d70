/**
 * What the agent does with the raw text a reasoning service returns before
 * JSON decoding takes over: Python's `strip()`, removal of a Markdown code
 * fence, and the shape check on a decoded perception reply.
 */
module Replies {
  import opened Base
  import opened AgentData

  /** Python's `str.isspace()` for one character. */
  predicate IsSpace(c: char) {
    var n := c as int;
    || 9 <= n <= 13 || 28 <= n <= 32 || n == 0x85 || n == 0xA0 || n == 0x1680
    || 0x2000 <= n <= 0x200A || n == 0x2028 || n == 0x2029 || n == 0x202F
    || n == 0x205F || n == 0x3000
  }

  function TrimStart(s: string): (r: string)
    ensures |r| <= |s| && r == s[|s| - |r|..]
    ensures forall i | 0 <= i < |s| - |r| :: IsSpace(s[i])
    ensures r == [] || !IsSpace(r[0])
  {
    if s != [] && IsSpace(s[0]) then TrimStart(s[1..]) else s
  }

  function TrimEnd(s: string): (r: string)
    ensures r <= s
    ensures forall i | |r| <= i < |s| :: IsSpace(s[i])
    ensures r == [] || !IsSpace(r[|r| - 1])
  {
    if s != [] && IsSpace(s[|s| - 1]) then TrimEnd(s[..|s| - 1]) else s
  }

  /** `s.strip()` */
  function Strip(s: string): string {
    TrimEnd(TrimStart(s))
  }

  /** What `strip()` returns has no white space at either end. */
  lemma StripEnds(s: string)
    ensures Strip(s) == [] || (!IsSpace(Strip(s)[0]) && !IsSpace(Strip(s)[|Strip(s)| - 1]))
  {
    var t := TrimStart(s);
    var r := TrimEnd(t);
    if r != [] {
      assert r[0] == t[0];
    }
  }

  /** A text without white space at its ends is left alone by `strip()`. */
  lemma StripKeepsTrimmed(s: string)
    requires s == [] || (!IsSpace(s[0]) && !IsSpace(s[|s| - 1]))
    ensures Strip(s) == s
  {
  }

  lemma StripIdempotent(s: string)
    ensures Strip(Strip(s)) == Strip(s)
  {
    StripEnds(s);
    StripKeepsTrimmed(Strip(s));
  }

  predicate EndsWith(s: string, suffix: string) {
    |suffix| <= |s| && s[|s| - |suffix|..] == suffix
  }

  const JsonFence := "```json"
  const Fence := "```"

  /** A fenced reply starts and ends with a backtick, so `strip()` leaves it alone. */
  lemma FencedTextIsTrimmed(body: string)
    ensures Strip(JsonFence + body + Fence) == JsonFence + body + Fence
  {
    var text := JsonFence + body + Fence;
    assert text[0] == '`' && text[|text| - 1] == '`';
    StripKeepsTrimmed(text);
  }

  /**
   * The perception module's fence removal: an opening "```json" and a
   * closing "```" are each removed when present.
   */
  function StripPerceptionFence(text: string): string {
    var rest := if StartsWith(text, JsonFence) then text[|JsonFence|..] else text;
    if EndsWith(rest, Fence) then rest[..|rest| - |Fence|] else rest
  }

  /** A fenced reply gives back exactly its body. */
  lemma PerceptionFenceRoundTrip(body: string)
    ensures StripPerceptionFence(JsonFence + body + Fence) == body
  {
    var text := JsonFence + body + Fence;
    assert text[..|JsonFence|] == JsonFence;
    assert text[|JsonFence|..] == body + Fence;
    assert (body + Fence)[|body|..] == Fence;
    assert (body + Fence)[..|body|] == body;
  }

  /** A reply without either fence passes unchanged. */
  lemma PerceptionFenceKeepsBare(text: string)
    requires !StartsWith(text, JsonFence) && !EndsWith(text, Fence)
    ensures StripPerceptionFence(text) == text
  {
  }

  /**
   * The planners' fence removal as written: `text[7:-3]` after "```json",
   * else `text[3:-3]` after "```". Python clamps the slice, so a reply too
   * short for both fences yields the empty string.
   */
  function StripPlannerFence(text: string): string {
    if StartsWith(text, JsonFence) then
      (if |text| >= |JsonFence| + |Fence| then text[|JsonFence|..|text| - |Fence|] else "")
    else if StartsWith(text, Fence) then
      (if |text| >= 2 * |Fence| then text[|Fence|..|text| - |Fence|] else "")
    else text
  }

  /** Both fence forms give back exactly their body (a bare "```" body must not start with "json"). */
  lemma PlannerFenceRoundTrip(body: string)
    ensures StripPlannerFence(JsonFence + body + Fence) == body
    ensures !StartsWith(body, "json") ==> StripPlannerFence(Fence + body + Fence) == body
  {
    var text := JsonFence + body + Fence;
    assert text[..|JsonFence|] == JsonFence;
    assert text[|JsonFence|..|text| - |Fence|] == body;
    if !StartsWith(body, "json") {
      var plain := Fence + body + Fence;
      assert plain[..|Fence|] == Fence;
      assert JsonFence == Fence + "json";
      if |body| >= 4 {
        assert plain[..|JsonFence|] == Fence + body[..4];
        assert body[..4] != "json";
      } else {
        assert plain[|Fence| + |body|] == '`' != JsonFence[|Fence| + |body|];
      }
      assert plain[|Fence|..|plain| - |Fence|] == body;
    }
  }

  /** A reply that does not open with a fence passes unchanged. */
  lemma PlannerFenceKeepsBare(text: string)
    requires !StartsWith(text, Fence)
    ensures StripPlannerFence(text) == text
  {
    assert JsonFence[..|Fence|] == Fence;
  }

  /**
   * As written, a reply that opens with "```json" but has no closing fence
   * still loses its last three characters: `{"a":1}` comes back as `{"a"`.
   */
  lemma PlannerFenceCutsUnclosedReply()
    ensures StripPlannerFence(JsonFence + "{\"a\":1}") == "{\"a\""
    ensures StripPlannerFence(JsonFence + "{}") == ""
  {
    var text := JsonFence + "{\"a\":1}";
    assert text[..|JsonFence|] == JsonFence;
    assert text[|JsonFence|..|text| - |Fence|] == "{\"a\"";
    assert (JsonFence + "{}")[..|JsonFence|] == JsonFence;
  }

  /**
   * The planners' fence removal as evidently intended: the opening fence is
   * removed when present and the closing one only when it is there.
   */
  function StripPlannerFenceChecked(text: string): string {
    var rest :=
      if StartsWith(text, JsonFence) then text[|JsonFence|..]
      else if StartsWith(text, Fence) then text[|Fence|..]
      else text;
    if rest != text && EndsWith(rest, Fence) then rest[..|rest| - |Fence|] else rest
  }

  /**
   * The checked form keeps the round trip of a closed reply, agrees with the
   * code as written on every closed "```json" reply, and returns the whole
   * body of an unclosed one.
   */
  lemma PlannerFenceCheckedCorrect(body: string)
    ensures StripPlannerFenceChecked(JsonFence + body + Fence) == body
    ensures StripPlannerFenceChecked(JsonFence + body + Fence) == StripPlannerFence(JsonFence + body + Fence)
    ensures !EndsWith(body, Fence) ==> StripPlannerFenceChecked(JsonFence + body) == body
  {
    PlannerFenceRoundTrip(body);
    var closed := JsonFence + body + Fence;
    assert closed[..|JsonFence|] == JsonFence;
    assert closed[|JsonFence|..] == body + Fence;
    assert (body + Fence)[|body|..] == Fence;
    assert (body + Fence)[..|body|] == body;
    assert |closed[|JsonFence|..]| < |closed|;
    var open := JsonFence + body;
    assert open[..|JsonFence|] == JsonFence;
    assert open[|JsonFence|..] == body;
  }

  /**
   * A planner's reaction to its decoded reply: the decoded action, or, when
   * `json.loads` raised with `message`, a stop plan whose reason names the
   * planner (`origin` is "Vision" or "HTML") and the error.
   */
  function PlanOrStop(decoded: Result<Action, string>, origin: string): (plan: Action)
    ensures decoded.Ok? ==> plan == decoded.value
    ensures decoded.Err? ==>
      && IsKind(plan, KindStop)
      && plan.reason == Some(origin + " planning error: " + decoded.error)
  {
    match decoded
    case Ok(action) => action
    case Err(message) => StopPlan(origin + " planning error: " + message)
  }

  function StopPlan(reason: string): Action {
    Action(Some(KindStop), None, None, None, None, None, None, Some(reason), None, None)
  }

  /**
   * A planner's handling of its reply text: strip, remove the fence (in
   * its corrected form), decode (`decode` stands for `json.loads` and
   * yields the exception's message when it raises), and fall back to a
   * stop plan on failure.
   */
  function InterpretPlannerReply(raw: string, decode: string -> Result<Action, string>, origin: string): (plan: Action)
    ensures decode(StripPlannerFenceChecked(Strip(raw))).Ok? ==> plan == decode(StripPlannerFenceChecked(Strip(raw))).value
    ensures decode(StripPlannerFenceChecked(Strip(raw))).Err? ==>
      && IsKind(plan, KindStop)
      && plan.reason == Some(origin + " planning error: " + decode(StripPlannerFenceChecked(Strip(raw))).error)
  {
    PlanOrStop(decode(StripPlannerFenceChecked(Strip(raw))), origin)
  }

  /**
   * A fenced planner reply is decoded from its body alone, and a planner
   * whose reply cannot be decoded plans a stop.
   */
  lemma FencedPlannerReply(body: string, decode: string -> Result<Action, string>, origin: string)
    ensures InterpretPlannerReply(JsonFence + body + Fence, decode, origin) == PlanOrStop(decode(body), origin)
  {
    FencedTextIsTrimmed(body);
    PlannerFenceCheckedCorrect(body);
  }

  /**
   * A reply that opens with "```json" but was cut off before its closing
   * fence is decoded from everything after the opening fence.
   */
  lemma UnclosedPlannerReply(body: string, decode: string -> Result<Action, string>, origin: string)
    requires !EndsWith(body, Fence)
    requires body == [] || !IsSpace(body[|body| - 1])
    ensures InterpretPlannerReply(JsonFence + body, decode, origin) == PlanOrStop(decode(body), origin)
  {
    var text := JsonFence + body;
    assert text[0] == '`';
    if body != [] {
      assert text[|text| - 1] == body[|body| - 1];
    }
    StripKeepsTrimmed(text);
    PlannerFenceCheckedCorrect(body);
  }

  /** A decoded JSON value. */
  datatype Json =
    | JNull
    | JBool(b: bool)
    | JNumber(n: int)
    | JString(s: string)
    | JArray(items: seq<Json>)
    | JObject(members: seq<(string, Json)>)

  predicate HasMember(members: seq<(string, Json)>, key: string) {
    exists i | 0 <= i < |members| :: members[i].0 == key
  }

  /** The perception shape check: a dict holding the `interactive_elements` key. */
  predicate IsPerceivedShape(j: Json) {
    j.JObject? && HasMember(j.members, "interactive_elements")
  }

  datatype PerceptionFailure = Undecodable | MissingInteractiveElements

  /** The perception shape check on a decoded reply: `None` when `json.loads` raised. */
  function JudgePerception(decoded: Option<Json>): (r: Result<Json, PerceptionFailure>)
    ensures r.Ok? <==> decoded.Some? && IsPerceivedShape(decoded.value)
    ensures r.Ok? ==> decoded == Some(r.value)
    ensures r == Err(Undecodable) <==> decoded.None?
  {
    match decoded
    case None => Err(Undecodable)
    case Some(j) => if IsPerceivedShape(j) then Ok(j) else Err(MissingInteractiveElements)
  }

  /**
   * The perception module's handling of a reply text: strip, remove the
   * fence, decode (`decode` stands for `json.loads`) and check the shape.
   */
  function InterpretPerceptionReply(raw: string, decode: string -> Option<Json>): (r: Result<Json, PerceptionFailure>)
    ensures var decoded := decode(StripPerceptionFence(Strip(raw)));
      && (r.Ok? <==> decoded.Some? && IsPerceivedShape(decoded.value))
      && (r.Ok? ==> decoded == Some(r.value))
  {
    JudgePerception(decode(StripPerceptionFence(Strip(raw))))
  }

  /** A fenced reply is judged on its body alone. */
  lemma FencedPerceptionReply(body: string, decode: string -> Option<Json>)
    ensures InterpretPerceptionReply(JsonFence + body + Fence, decode) == JudgePerception(decode(body))
  {
    FencedTextIsTrimmed(body);
    PerceptionFenceRoundTrip(body);
  }
}
