/** The problem-generation handler (POST /api/math-problem): resolve the
    requested difficulty and problem type, clean the generated text of
    Markdown code fences, validate the parsed payload, and shape the session
    row to insert and the response. The handler has no state of its own; the
    insert itself is applied by `SubmitRoute.Tables.CreateSession`. */
module ProblemRoute {
  import opened JsValues

  type SessionId = string

  const DefaultDifficulty: string := "medium"
  const DefaultProblemType: string := "mixed"
  /** The two patterns removed by the cleanup, each followed by `\s*`. */
  const JsonFence: string := "```json"
  const Fence: string := "```"

  /** The fields of the generated problem that the handler reads. */
  datatype Payload = Payload(problemText: Value, finalAnswer: Num, hint: Option<Value>, solutionSteps: Option<Value>)

  /** The row inserted into the sessions table. */
  datatype SessionRow = SessionRow(problemText: Value, correctAnswer: Num)

  /** What the handler decides before touching the database. */
  datatype Plan =
    | Abort
    | Insert(row: SessionRow, difficulty: string, problemType: string, hint: Option<Value>, solutionSteps: Option<Value>)

  /** The `problem` object of a successful response. */
  datatype Problem = Problem(problemText: Value, finalAnswer: Num, difficulty: string, problemType: string,
                             hint: Option<Value>, solutionSteps: Option<Value>)

  datatype GenerateReply =
    | Generated(sessionId: SessionId, problem: Problem)
    | GenerateFailed(status: int, error: string)

  // ---------------------------------------------------------------------
  // trim

  predicate NoWhitespaceAtEnds(s: string)
  {
    s == [] || (!IsWhitespace(s[0]) && !IsWhitespace(s[|s| - 1]))
  }

  predicate AllWhitespace(s: string)
  {
    forall i :: 0 <= i < |s| ==> IsWhitespace(s[i])
  }

  /** `trimStart`: drops the white space at the front. */
  function TrimStart(s: string): (r: string)
    ensures |r| <= |s|
    ensures r == [] || !IsWhitespace(r[0])
  {
    if s != [] && IsWhitespace(s[0]) then TrimStart(s[1..]) else s
  }

  /** `trimEnd`: drops the white space at the back. */
  function TrimEnd(s: string): (r: string)
    ensures |r| <= |s|
    ensures r == [] || !IsWhitespace(r[|r| - 1])
  {
    if s != [] && IsWhitespace(s[|s| - 1]) then TrimEnd(s[..|s| - 1]) else s
  }

  /** `String.prototype.trim`. */
  function Trim(s: string): (r: string)
    ensures |r| <= |s|
    ensures NoWhitespaceAtEnds(r)
  {
    var a := TrimStart(s);
    TrimEndSpec(a);
    TrimEnd(a)
  }

  /** `trimStart` returns the longest suffix that does not begin with white
      space: everything it drops is white space. */
  lemma {:induction false} TrimStartSpec(s: string)
    ensures var r := TrimStart(s);
            r == s[|s| - |r|..] && AllWhitespace(s[..|s| - |r|]) && (r == [] || !IsWhitespace(r[0]))
  {
    if s != [] && IsWhitespace(s[0]) {
      TrimStartSpec(s[1..]);
      var r := TrimStart(s);
      assert r == TrimStart(s[1..]);
      assert s[1..][|s| - 1 - |r|..] == s[|s| - |r|..];
      assert s[..|s| - |r|] == [s[0]] + s[1..][..|s| - 1 - |r|];
    } else {
      assert s[..0] == [];
    }
  }

  /** `trimEnd` returns the longest prefix that does not end with white
      space: everything it drops is white space. */
  lemma {:induction false} TrimEndSpec(s: string)
    ensures var r := TrimEnd(s);
            r == s[..|r|] && AllWhitespace(s[|r|..]) && (r == [] || !IsWhitespace(r[|r| - 1]))
  {
    if s != [] && IsWhitespace(s[|s| - 1]) {
      var front := s[..|s| - 1];
      TrimEndSpec(front);
      var r := TrimEnd(front);
      assert TrimEnd(s) == r;
      assert s[..|r|] == front[..|r|];
      assert s[|r|..] == front[|r|..] + [s[|s| - 1]];
    } else {
      assert s[|s|..] == [];
    }
  }

  /** `trim` keeps a contiguous middle part that neither begins nor ends with
      white space, and drops only white space on either side of it. */
  lemma TrimSpec(s: string)
    ensures NoWhitespaceAtEnds(Trim(s))
    ensures exists i, j :: 0 <= i <= j <= |s| && Trim(s) == s[i..j] && AllWhitespace(s[..i]) && AllWhitespace(s[j..])
  {
    var a := TrimStart(s);
    var r := TrimEnd(a);
    TrimStartSpec(s);
    TrimEndSpec(a);
    var i, j := |s| - |a|, |s| - |a| + |r|;
    assert r == s[i..j];
    assert s[j..] == a[|r|..];
  }

  lemma {:induction false} TrimStartKeeps(s: string)
    requires s == [] || !IsWhitespace(s[0])
    ensures TrimStart(s) == s
  {
  }

  lemma {:induction false} TrimEndKeeps(s: string)
    requires s == [] || !IsWhitespace(s[|s| - 1])
    ensures TrimEnd(s) == s
  {
  }

  /** Trimming a string that neither begins nor ends with white space leaves
      it alone. */
  lemma TrimKeeps(s: string)
    requires NoWhitespaceAtEnds(s)
    ensures Trim(s) == s
  {
    TrimStartKeeps(s);
    TrimEndKeeps(s);
  }

  // ---------------------------------------------------------------------
  // fence stripping: two global replaces, first of the `json` fence and
  // then of a bare fence, each together with the white space after it

  /** `s.replace(new RegExp(lit + "\\s*", "g"), "")` for a literal `lit`:
      scanning from the left, every occurrence of `lit` is removed together
      with all the white space that follows it, and the scan resumes after
      the removed text. */
  function StripAll(s: string, lit: string): (r: string)
    requires lit != []
    ensures |r| <= |s|
    decreases |s|
  {
    if s == [] then []
    else if lit <= s then StripAll(TrimStart(s[|lit|..]), lit)
    else [s[0]] + StripAll(s[1..], lit)
  }

  /** The cleanup applied to the generated text (route.ts lines 61-62). */
  function Clean(text: string): (r: string)
    ensures |r| <= |text|
  {
    StripAll(StripAll(Trim(text), JsonFence), Fence)
  }

  predicate NoBackticks(s: string)
  {
    forall i :: 0 <= i < |s| ==> s[i] != '`'
  }

  /** A prefix without a backtick is never touched by the removal of a
      pattern that starts with one. */
  lemma {:induction false} StripAllSkipsPlain(a: string, b: string, lit: string)
    requires lit != [] && lit[0] == '`'
    requires NoBackticks(a)
    ensures StripAll(a + b, lit) == a + StripAll(b, lit)
    decreases |a|
  {
    if a != [] {
      var s := a + b;
      assert s[0] == a[0];
      assert !(lit <= s);
      assert s[1..] == a[1..] + b;
      StripAllSkipsPlain(a[1..], b, lit);
      assert [a[0]] + a[1..] == a;
    } else {
      assert a + b == b;
    }
  }

  lemma StripAllPlain(s: string, lit: string)
    requires lit != [] && lit[0] == '`'
    requires NoBackticks(s)
    ensures StripAll(s, lit) == s
  {
    StripAllSkipsPlain(s, [], lit);
    assert s + [] == s;
  }

  /** Text with no backtick comes out of the cleanup merely trimmed. */
  lemma CleanPlainText(text: string)
    requires NoBackticks(text)
    ensures Clean(text) == Trim(text)
  {
    TrimSpec(text);
    var i, j :| 0 <= i <= j <= |text| && Trim(text) == text[i..j];
    assert NoBackticks(Trim(text));
    StripAllPlain(Trim(text), JsonFence);
    StripAllPlain(Trim(text), Fence);
  }

  /** A run of one, two or three backticks contains no `json` fence. */
  lemma TicksKeptByJsonFence()
    ensures StripAll("`", JsonFence) == "`" && StripAll("``", JsonFence) == "``"
    ensures StripAll("```", JsonFence) == "```"
  {
    assert "```"[1..] == "``" && "``"[1..] == "`" && "`"[1..] == [];
    assert StripAll("`", JsonFence) == "`";
    assert StripAll("``", JsonFence) == "``";
  }

  lemma ClosingFenceRemoved()
    ensures StripAll("```", Fence) == []
  {
    assert Fence <= "```";
    assert "```"[|Fence|..] == [];
  }

  /** The fenced text is already trimmed. */
  lemma FencedIsTrimmed(p: string)
    requires NoWhitespaceAtEnds(p)
    ensures Trim("```json\n" + p + "\n```") == "```json\n" + p + "\n```"
  {
    var s := "```json\n" + p + "\n```";
    assert s[0] == '`' && s[|s| - 1] == '`';
    TrimKeeps(s);
  }

  /** The opening fence is removed together with the white space after it. */
  lemma OpeningFenceRemoved(rest: string)
    ensures StripAll(JsonFence + rest, JsonFence) == StripAll(TrimStart(rest), JsonFence)
  {
    var s := JsonFence + rest;
    assert JsonFence <= s;
    assert s[|JsonFence|..] == rest;
  }

  /** After the opening fence and its white space, what is left is the
      payload followed by the closing line. */
  lemma PayloadAfterOpening(p: string)
    requires NoWhitespaceAtEnds(p) && p != []
    ensures TrimStart("\n" + p + "\n```") == p + "\n```"
  {
    assert ("\n" + p + "\n```")[1..] == p + "\n```";
    TrimStartKeeps(p + "\n```");
  }

  /** With no payload, the white space after the opening fence runs into the
      closing fence. */
  lemma NothingAfterOpening()
    ensures TrimStart("\n\n```") == "```"
  {
    assert "\n\n```"[1..] == "\n```";
    assert "\n```"[1..] == "```";
  }

  lemma ClosingLineStripped()
    ensures StripAll("\n```", JsonFence) == "\n```"
    ensures StripAll("\n```", Fence) == "\n"
  {
    assert "\n```"[1..] == "```";
    TicksKeptByJsonFence();
    ClosingFenceRemoved();
  }

  /** A payload wrapped in a `json` code fence comes out of the cleanup with
      only the newline that preceded the closing fence left over; an empty
      payload comes out empty, because the white space after the opening
      fence runs into the closing one. */
  lemma CleanFencedPayload(p: string)
    requires NoBackticks(p) && NoWhitespaceAtEnds(p)
    ensures Clean("```json\n" + p + "\n```") == if p == [] then [] else p + "\n"
  {
    var rest := "\n" + p + "\n```";
    var s := "```json\n" + p + "\n```";
    assert s == JsonFence + rest;
    calc {
      Clean(s);
      StripAll(StripAll(Trim(s), JsonFence), Fence);
      { FencedIsTrimmed(p); }
      StripAll(StripAll(JsonFence + rest, JsonFence), Fence);
      { OpeningFenceRemoved(rest); }
      StripAll(StripAll(TrimStart(rest), JsonFence), Fence);
    }
    if p == [] {
      calc {
        StripAll(StripAll(TrimStart(rest), JsonFence), Fence);
        { assert rest == "\n\n```"; NothingAfterOpening(); }
        StripAll(StripAll("```", JsonFence), Fence);
        { TicksKeptByJsonFence(); }
        StripAll("```", Fence);
        { ClosingFenceRemoved(); }
        [];
      }
    } else {
      calc {
        StripAll(StripAll(TrimStart(rest), JsonFence), Fence);
        { PayloadAfterOpening(p); }
        StripAll(StripAll(p + "\n```", JsonFence), Fence);
        { StripAllSkipsPlain(p, "\n```", JsonFence); ClosingLineStripped(); }
        StripAll(p + "\n```", Fence);
        { StripAllSkipsPlain(p, "\n```", Fence); ClosingLineStripped(); }
        p + "\n";
      }
    }
  }

  // ---------------------------------------------------------------------
  // request defaults and payload validation

  /** `body.key || default`, followed by the `toUpperCase()` the prompt
      applies to it, which throws unless the value is a string. */
  function Setting(body: Value, key: string, default: string): (r: Option<string>)
    requires !body.Null?
    requires default != []
    ensures !Truthy(Get(body, key)) ==> r == Some(default)
    ensures Truthy(Get(body, key)) ==> (r.Some? <==> body.fields[key].Str?)
    ensures Truthy(Get(body, key)) && r.Some? ==> r.value == body.fields[key].s
    ensures r.Some? ==> r.value != []
  {
    var v := Get(body, key);
    if !Truthy(v) then Some(default)
    else if v.value.Str? then Some(v.value.s)
    else None
  }

  /** The validity test of route.ts lines 67-72. Reading a property of `null`
      throws, which ends in the same 500 response as a rejection. */
  function Validate(v: Value): (r: Option<Payload>)
    ensures r.Some? <==>
              v.Obj? && "problem_text" in v.fields && Truthy(Some(v.fields["problem_text"])) &&
              "final_answer" in v.fields && v.fields["final_answer"].Number?
    ensures r.Some? ==>
              r.value.problemText == v.fields["problem_text"] &&
              r.value.finalAnswer == v.fields["final_answer"].n &&
              r.value.hint == Get(v, "hint") &&
              r.value.solutionSteps == Get(v, "solution_steps")
  {
    if v.Null? then None
    else
      var text := Get(v, "problem_text");
      var answer := Get(v, "final_answer");
      if !Truthy(text) || !(answer.Some? && answer.value.Number?) then None
      else Some(Payload(text.value, answer.value.n, Get(v, "hint"), Get(v, "solution_steps")))
  }

  /** A string answer such as "5" is rejected although it looks numeric. */
  lemma StringAnswerRejected(text: string)
    ensures Validate(Obj(map["problem_text" := Str(text), "final_answer" := Str("5")])).None?
  {
  }

  /** An empty problem text is rejected whatever the answer. */
  lemma EmptyTextRejected(answer: Value)
    ensures Validate(Obj(map["problem_text" := Str(""), "final_answer" := answer])).None?
  {
  }

  // ---------------------------------------------------------------------
  // the handler

  /** The request body: `request.json()` failing (`None`) is replaced by `{}`,
      so the body is `null` only when the request is the JSON text `null`. */
  function Body(request: Option<Value>): (r: Value)
    ensures r.Null? <==> request == Some(Null)
    ensures request.None? ==> r == Obj(map[])
    ensures request.Some? ==> r == request.value
  {
    if request.Some? then request.value else Obj(map[])
  }

  /** Everything the handler does before the insert. `aiText` is the text the
      generative service returned (`None` when the call threw) and `parse`
      stands for `JSON.parse` (`None` when it throws). */
  function Prepare(request: Option<Value>, aiText: Option<string>, parse: string -> Option<Value>): (r: Plan)
    ensures r.Insert? ==> !Body(request).Null? && aiText.Some? && parse(Clean(aiText.value)).Some?
    ensures r.Insert? ==> Validate(parse(Clean(aiText.value)).value).Some?
  {
    var body := Body(request);
    if body.Null? then Abort
    else
      var difficulty := Setting(body, "difficulty", DefaultDifficulty);
      var problemType := Setting(body, "problem_type", DefaultProblemType);
      if difficulty.None? || problemType.None? || aiText.None? then Abort
      else
        var parsed := parse(Clean(aiText.value));
        if parsed.None? then Abort
        else
          var payload := Validate(parsed.value);
          if payload.None? then Abort
          else
            var p := payload.value;
            Insert(SessionRow(p.problemText, p.finalAnswer), difficulty.value, problemType.value, p.hint, p.solutionSteps)
  }

  /** Shapes the response once the database has answered the insert with the
      new row's id, or with an error (`None`). */
  function Respond(plan: Plan, inserted: Option<SessionId>): (r: GenerateReply)
    ensures r.GenerateFailed? <==> plan.Abort? || inserted.None?
    ensures r.GenerateFailed? ==> r.status == 500
    ensures r.Generated? ==>
              r.sessionId == inserted.value &&
              r.problem.problemText == plan.row.problemText &&
              r.problem.finalAnswer == plan.row.correctAnswer &&
              r.problem.difficulty == plan.difficulty && r.problem.problemType == plan.problemType &&
              r.problem.hint == plan.hint && r.problem.solutionSteps == plan.solutionSteps
  {
    if plan.Abort? || inserted.None? then GenerateFailed(500, "Failed to generate problem")
    else
      Generated(inserted.value, Problem(plan.row.problemText, plan.row.correctAnswer,
                                        plan.difficulty, plan.problemType, plan.hint, plan.solutionSteps))
  }

  /** A missing or falsy difficulty resolves to "medium" and a missing or
      falsy problem type to "mixed"; a body that is not valid JSON counts as
      `{}`. */
  lemma DefaultsApplied(request: Option<Value>, aiText: Option<string>, parse: string -> Option<Value>)
    requires request.None? || (request.value.Obj? && !Truthy(Get(request.value, "difficulty")) &&
                               !Truthy(Get(request.value, "problem_type")))
    ensures var plan := Prepare(request, aiText, parse);
            plan.Insert? ==> plan.difficulty == "medium" && plan.problemType == "mixed"
  {
  }

  /** A truthy difficulty or problem type that is not a string makes the
      prompt's `toUpperCase()` throw: the request fails with status 500. */
  lemma NonStringSettingFails(request: Value, key: string, aiText: Option<string>, parse: string -> Option<Value>)
    requires key == "difficulty" || key == "problem_type"
    requires request.Obj? && key in request.fields && Truthy(Some(request.fields[key]))
    requires !request.fields[key].Str?
    ensures Prepare(Some(request), aiText, parse).Abort?
  {
  }

  /** A payload that does not parse or does not validate leads to no insert
      and to a 500 response, whatever the database would have answered. */
  lemma RejectedPayloadNotInserted(request: Option<Value>, aiText: string, parse: string -> Option<Value>,
                                   inserted: Option<SessionId>)
    requires parse(Clean(aiText)).None? || Validate(parse(Clean(aiText)).value).None?
    ensures Prepare(request, Some(aiText), parse).Abort?
    ensures Respond(Prepare(request, Some(aiText), parse), inserted) == GenerateFailed(500, "Failed to generate problem")
  {
  }

  /** An accepted payload is inserted as it stands: the row carries the
      payload's problem text and final answer, and the response echoes the
      resolved settings and passes the hint and the solution steps through. */
  lemma AcceptedPayloadInserted(request: Option<Value>, aiText: string, parse: string -> Option<Value>,
                                id: SessionId)
    requires !Body(request).Null?
    requires var d := Get(Body(request), "difficulty"); !Truthy(d) || d.value.Str?
    requires var t := Get(Body(request), "problem_type"); !Truthy(t) || t.value.Str?
    requires parse(Clean(aiText)).Some? && parse(Clean(aiText)).value.Obj?
    requires Validate(parse(Clean(aiText)).value).Some?
    ensures var payload := parse(Clean(aiText)).value.fields;
            var plan := Prepare(request, Some(aiText), parse);
            plan.Insert? &&
            plan.row == SessionRow(payload["problem_text"], payload["final_answer"].n) &&
            plan.difficulty == Setting(Body(request), "difficulty", DefaultDifficulty).value &&
            plan.problemType == Setting(Body(request), "problem_type", DefaultProblemType).value &&
            Respond(plan, Some(id)) ==
              Generated(id, Problem(payload["problem_text"], payload["final_answer"].n,
                                    plan.difficulty, plan.problemType,
                                    Get(parse(Clean(aiText)).value, "hint"),
                                    Get(parse(Clean(aiText)).value, "solution_steps")))
  {
  }
}
