/** src/tool-calling.ts: two deterministic tool stubs and the loop that answers
    the model's tool calls with one ToolMessage each. */
module ToolCalling {
  import opened Messages
  import opened Ascii

  const WeatherCloudy: string := "It's 15 degrees Celsius and cloudy."
  const WeatherSunny: string := "It's 32 degrees Celsius and sunny."
  const SeatsOutdoor: string := "Yes, we still have seats available outdoors."
  const SeatsIndoor: string := "Yes, we have indoor seating available."
  const SeatsUnknown: string := "Sorry, seating information for this location is unavailable."

  /** `getWeather.func` (the same function is the `get_weather` tool of src/agent-basics.ts). */
  function GetWeather(location: string): string
  {
    if Lower(location) == "munich" then WeatherCloudy else WeatherSunny
  }

  /** `checkSeatingAvailability.func`. */
  function CheckSeatingAvailability(location: string, seatingType: string): string
  {
    var l := Lower(location);
    var s := Lower(seatingType);
    if l == "munich" && s == "outdoor" then SeatsOutdoor
    else if l == "munich" && s == "indoor" then SeatsIndoor
    else SeatsUnknown
  }

  /** The weather tool answers "cloudy" exactly for Munich spelled in any case. */
  lemma GetWeatherSpec(location: string)
    ensures GetWeather(location) == WeatherCloudy <==> EqualIgnoringCase(location, "munich")
    ensures GetWeather(location) == WeatherSunny <==> !EqualIgnoringCase(location, "munich")
  {
    assert |WeatherCloudy| != |WeatherSunny|;
    LowerMatchesLiteral(location, "munich");
  }

  /** The seating tool has seats outdoors or indoors exactly for Munich and that
      seating type in any case, and no information otherwise. */
  lemma CheckSeatingAvailabilitySpec(location: string, seatingType: string)
    ensures var r := CheckSeatingAvailability(location, seatingType);
      && (r == SeatsOutdoor <==> EqualIgnoringCase(location, "munich") && EqualIgnoringCase(seatingType, "outdoor"))
      && (r == SeatsIndoor <==> EqualIgnoringCase(location, "munich") && EqualIgnoringCase(seatingType, "indoor"))
      && (r == SeatsUnknown <==>
            !EqualIgnoringCase(location, "munich")
            || !(EqualIgnoringCase(seatingType, "outdoor") || EqualIgnoringCase(seatingType, "indoor")))
  {
    assert |SeatsOutdoor| != |SeatsIndoor| && |SeatsIndoor| != |SeatsUnknown| && |SeatsUnknown| != |SeatsOutdoor|;
    LowerMatchesLiteral(location, "munich");
    LowerMatchesLiteral(seatingType, "outdoor");
    LowerMatchesLiteral(seatingType, "indoor");
    var seat := Lower(seatingType);
    assert !(seat == "outdoor" && seat == "indoor");
  }

  /** Both tools ignore the case of their inputs. */
  lemma ToolsIgnoreCase(location: string, location': string, seatingType: string, seatingType': string)
    requires EqualIgnoringCase(location, location') && EqualIgnoringCase(seatingType, seatingType')
    ensures GetWeather(location) == GetWeather(location')
    ensures CheckSeatingAvailability(location, seatingType) == CheckSeatingAvailability(location', seatingType')
  {
    LowerEqualIff(location, location');
    LowerEqualIff(seatingType, seatingType');
  }

  datatype Tool = GetWeatherTool | CheckSeatingAvailabilityTool

  /** `TOOL_NAMES`. */
  const ToolNames: seq<string> := ["get_weather", "check_seating_availability"]

  /** `toolMapping`. */
  const ToolMapping: map<string, Tool> :=
    map["get_weather" := GetWeatherTool, "check_seating_availability" := CheckSeatingAvailabilityTool]

  /** `toolMapping` has exactly the keys listed in `TOOL_NAMES`. */
  lemma ToolMappingKeys()
    ensures ToolMapping.Keys == set n | n in ToolNames
    ensures "" !in ToolMapping
  {
  }

  /** `toolMapping[name].func(args)`. None where the function throws because an
      argument it lower-cases is missing (`undefined.toLowerCase()`). */
  function RunTool(tool: Tool, args: map<string, string>): Option<string>
  {
    match tool
    case GetWeatherTool =>
      if "location" in args then Some(GetWeather(args["location"])) else None
    case CheckSeatingAvailabilityTool =>
      if "location" in args && "seating_type" in args
      then Some(CheckSeatingAvailability(args["location"], args["seating_type"]))
      else None
  }

  /** What one pass of the loop body does with a call. */
  datatype CallOutcome = Skipped | Replied(reply: Message) | Threw

  function HandleCall(call: ToolCall): CallOutcome
  {
    if call.name == "" || call.name !in ToolMapping then Skipped
    else match RunTool(ToolMapping[call.name], call.args)
      case None => Threw
      case Some(result) => Replied(ToolReply(result, call.id))
  }

  /** What the loop body appends for one call. */
  function Appended(outcome: CallOutcome): seq<Message>
  {
    if outcome.Replied? then [outcome.reply] else []
  }

  /** The loop over `calls` ends in an exception. */
  predicate Throws(calls: seq<ToolCall>)
    decreases |calls|
  {
    calls != [] && (Throws(calls[..|calls| - 1]) || HandleCall(calls[|calls| - 1]).Threw?)
  }

  /** The loop throws exactly when some call's tool throws. */
  lemma {:induction false} ThrowsIff(calls: seq<ToolCall>)
    ensures Throws(calls) <==> exists i :: 0 <= i < |calls| && HandleCall(calls[i]).Threw?
    decreases |calls|
  {
    if calls != [] {
      var init := calls[..|calls| - 1];
      ThrowsIff(init);
      if exists i :: 0 <= i < |init| && HandleCall(init[i]).Threw? {
        var i :| 0 <= i < |init| && HandleCall(init[i]).Threw?;
        assert calls[i] == init[i];
      }
      if exists i :: 0 <= i < |calls| && HandleCall(calls[i]).Threw? {
        var i :| 0 <= i < |calls| && HandleCall(calls[i]).Threw?;
        if i < |init| {
          assert calls[i] == init[i];
        }
      }
    }
  }

  /** The ToolMessages the loop appends for `calls`, up to the first call that throws. */
  function Replies(calls: seq<ToolCall>): seq<Message>
    decreases |calls|
  {
    if calls == [] then []
    else
      var init := calls[..|calls| - 1];
      if Throws(init) then Replies(init) else Replies(init) + Appended(HandleCall(calls[|calls| - 1]))
  }

  /** The calls whose name is one of `TOOL_NAMES`, in order. */
  function Recognised(calls: seq<ToolCall>): (r: seq<ToolCall>)
    ensures |r| <= |calls|
    decreases |calls|
  {
    if calls == [] then []
    else
      var c := calls[|calls| - 1];
      Recognised(calls[..|calls| - 1]) + (if c.name in ToolNames then [c] else [])
  }

  /** The tool reply for a recognised call whose tool does not throw. */
  function ReplyTo(call: ToolCall): Message
    requires call.name in ToolMapping && RunTool(ToolMapping[call.name], call.args).Some?
  {
    ToolReply(RunTool(ToolMapping[call.name], call.args).value, call.id)
  }

  /** When no tool throws, the loop appends exactly one ToolMessage per recognised
      call, in call order, carrying that call's id and its tool's result; so at
      most one per call. */
  lemma {:induction false} RepliesMatchRecognised(calls: seq<ToolCall>)
    requires !Throws(calls)
    ensures |Replies(calls)| == |Recognised(calls)| <= |calls|
    ensures forall j :: 0 <= j < |Replies(calls)| ==>
      && Recognised(calls)[j].name in ToolMapping
      && RunTool(ToolMapping[Recognised(calls)[j].name], Recognised(calls)[j].args).Some?
      && Replies(calls)[j] == ReplyTo(Recognised(calls)[j])
      && Replies(calls)[j].toolCallId == Recognised(calls)[j].id
    decreases |calls|
  {
    if calls != [] {
      var init := calls[..|calls| - 1];
      var c := calls[|calls| - 1];
      RepliesMatchRecognised(init);
    }
  }

  /** A call with an empty or unknown name appends nothing and does not stop the
      loop: it can be removed without changing what is appended. */
  lemma {:induction false} UnknownCallIsSkipped(before: seq<ToolCall>, c: ToolCall, after: seq<ToolCall>)
    requires c.name !in ToolNames
    ensures Replies(before + [c] + after) == Replies(before + after)
    ensures Throws(before + [c] + after) == Throws(before + after)
    decreases |after|
  {
    if after == [] {
      assert before + [c] + after == before + [c] && before + after == before;
      assert HandleCall(c) == Skipped by { ToolMappingKeys(); }
      RepliesSnoc(before, c);
      ThrowsSnoc(before, c);
    } else {
      var init, e := after[..|after| - 1], after[|after| - 1];
      UnknownCallIsSkipped(before, c, init);
      SplitLast(before + [c], after);
      SplitLast(before, after);
      SameSoFar(before + [c] + init, before + init, e);
    }
  }

  lemma SplitLast(xs: seq<ToolCall>, ys: seq<ToolCall>)
    requires ys != []
    ensures xs + ys == (xs + ys[..|ys| - 1]) + [ys[|ys| - 1]]
  {
    assert ys == ys[..|ys| - 1] + [ys[|ys| - 1]];
  }

  /** Two call lists the loop treats alike stay alike when one more call follows. */
  lemma SameSoFar(xs: seq<ToolCall>, ys: seq<ToolCall>, e: ToolCall)
    requires Replies(xs) == Replies(ys) && Throws(xs) == Throws(ys)
    ensures Replies(xs + [e]) == Replies(ys + [e]) && Throws(xs + [e]) == Throws(ys + [e])
  {
    RepliesSnoc(xs, e);
    RepliesSnoc(ys, e);
    ThrowsSnoc(xs, e);
    ThrowsSnoc(ys, e);
  }

  /** One more call: what the loop appends for it, unless an earlier call threw. */
  lemma RepliesSnoc(calls: seq<ToolCall>, c: ToolCall)
    ensures Replies(calls + [c]) ==
      if Throws(calls) then Replies(calls) else Replies(calls) + Appended(HandleCall(c))
  {
    assert (calls + [c])[..|calls|] == calls;
  }

  lemma ThrowsSnoc(calls: seq<ToolCall>, c: ToolCall)
    ensures Throws(calls + [c]) <==> Throws(calls) || HandleCall(c).Threw?
  {
    assert (calls + [c])[..|calls|] == calls;
  }

  /** One more pass of the loop, which has not thrown so far. */
  lemma PassStep(done: seq<ToolCall>, c: ToolCall)
    requires !Throws(done)
    ensures Throws(done + [c]) == HandleCall(c).Threw?
    ensures Replies(done + [c]) == Replies(done) + Appended(HandleCall(c))
  {
    assert (done + [c])[..|done|] == done;
  }

  /** Once a call has thrown, later calls append nothing. */
  lemma {:induction false} ThrownStays(done: seq<ToolCall>, rest: seq<ToolCall>)
    requires Throws(done)
    ensures Throws(done + rest) && Replies(done + rest) == Replies(done)
    decreases |rest|
  {
    if rest != [] {
      var init := rest[..|rest| - 1];
      ThrownStays(done, init);
      assert done + rest == (done + init) + [rest[|rest| - 1]];
      RepliesSnoc(done + init, rest[|rest| - 1]);
      ThrowsSnoc(done + init, rest[|rest| - 1]);
    } else {
      assert done + rest == done;
    }
  }

  lemma MoveFirst(xs: seq<ToolCall>, ys: seq<ToolCall>)
    requires ys != []
    ensures (xs + [ys[0]]) + ys[1..] == xs + ys
  {
    assert (xs + [ys[0]]) + ys[1..] == xs + ([ys[0]] + ys[1..]);
    assert [ys[0]] + ys[1..] == ys;
  }

  /** The script's module-level `messages` list. */
  class Session {
    var messages: seq<Message>

    constructor (initial: seq<Message>)
      ensures messages == initial
    {
      messages := initial;
    }

    /** `main`: asks the model once; with no tool calls it stops and leaves
        `messages` alone; otherwise it appends the model's reply, then one
        ToolMessage per recognised call, and asks the model again. If a tool
        throws, the exception ends `main` before the second model call. */
    method Respond(llm: seq<Message> -> Message) returns (finalOutput: Option<Message>, threw: bool)
      modifies this
      ensures var response := llm(old(messages));
        var calls := response.ToolCalls();
        if calls == [] then
          messages == old(messages) && finalOutput == None && !threw
        else
          && threw == Throws(calls)
          && messages == old(messages) + [AI(response.content, calls)] + Replies(calls)
          && finalOutput == (if threw then None else Some(llm(messages)))
    {
      var response := llm(messages);
      var calls := response.ToolCalls();
      if |calls| == 0 {
        return None, false;
      }
      messages := messages + [AI(response.content, calls)];
      threw := AnswerToolCalls(calls);
      if threw {
        return None, true;
      }
      finalOutput := Some(llm(messages));
    }

    /** One pass of the loop body: an unnamed or unknown tool is skipped (`continue`);
        otherwise the tool runs and its result is appended as a ToolMessage
        carrying the call's id, unless the tool throws. */
    method AnswerToolCall(call: ToolCall) returns (threw: bool)
      modifies this
      ensures threw == HandleCall(call).Threw?
      ensures messages == old(messages) + Appended(HandleCall(call))
    {
      if call.name == "" || call.name !in ToolMapping {
        return false;
      }
      var result := RunTool(ToolMapping[call.name], call.args);
      if result.None? {
        return true;
      }
      messages := messages + [ToolReply(result.value, call.id)];
      threw := false;
    }

    /** The `for` loop: one ToolMessage per recognised call, skipping the others,
        until a tool throws. */
    method AnswerToolCalls(calls: seq<ToolCall>) returns (threw: bool)
      modifies this
      ensures threw == Throws(calls)
      ensures messages == old(messages) + Replies(calls)
    {
      var rest := calls;
      ghost var done := [];
      threw := false;
      while rest != []
        invariant done + rest == calls
        invariant !threw && !Throws(done)
        invariant messages == old(messages) + Replies(done)
      {
        var call := rest[0];
        PassStep(done, call);
        threw := AnswerToolCall(call);
        MoveFirst(done, rest);
        done, rest := done + [call], rest[1..];
        if threw {
          ThrownStays(done, rest);
          return;
        }
      }
      assert done == calls;
    }
  }
}
