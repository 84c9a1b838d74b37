/** The answer-submission handler (POST /api/math-problem/submit) over the two
    tables it touches, modelled in memory: the sessions table as a map from id
    to row and the submissions table as a sequence of rows in insertion order.
    The feedback text from the generative service and the database's error
    answers are inputs (`Services`); `parseFloat` is a parameter, `None` when
    the conversion of its argument to a string throws. */
module SubmitRoute {
  import opened JsValues
  import opened ProblemRoute

  datatype SubmissionRow = SubmissionRow(sessionId: SessionId, userAnswer: Num, isCorrect: bool, feedbackText: string)

  datatype SubmitReply =
    | Submitted(isCorrect: bool, feedback: string, correctAnswer: Num)
    | SubmitFailed(status: int, error: string)

  /** What the outside world answers during one request: whether the session
      lookup reports an error, the feedback text (`None` when the generative
      call throws), and whether the submission insert reports an error. */
  datatype Services = Services(lookupFails: bool, feedback: Option<string>, insertFails: bool)

  /** The reply and the row appended to the submissions table, if any. */
  datatype Outcome = Outcome(reply: SubmitReply, appended: Option<SubmissionRow>)

  const MissingFields: SubmitReply := SubmitFailed(400, "Missing session_id or user_answer")
  const NotFound: SubmitReply := SubmitFailed(404, "Session not found")
  const Failed: SubmitReply := SubmitFailed(500, "Failed to submit answer")

  /** The id a `session_id` value can match: session ids are uuid strings, so
      a value of any other type never finds a row. */
  function KeyOf(v: Value): (r: Option<SessionId>)
    ensures r.Some? <==> v.Str?
    ensures r.Some? ==> r.value == v.s
  {
    if v.Str? then Some(v.s) else None
  }

  /** One request, as the handler processes it. `request` is the parsed body
      (`None` when `request.json()` throws). */
  function Submit(sessions: map<SessionId, SessionRow>, request: Option<Value>, parseFloat: Value -> Option<Num>,
                  io: Services): (o: Outcome)
    ensures o.reply.Submitted? <==> o.appended.Some?
    ensures o.appended.Some? ==>
              o.appended.value.isCorrect == o.reply.isCorrect && o.appended.value.feedbackText == o.reply.feedback &&
              o.appended.value.sessionId in sessions &&
              o.reply.correctAnswer == sessions[o.appended.value.sessionId].correctAnswer
    ensures o.reply.SubmitFailed? ==> o.reply.status in {400, 404, 500}
  {
    if request.None? || request.value.Null? then Outcome(Failed, None)
    else
      var sessionId := Get(request.value, "session_id");
      var userAnswer := Get(request.value, "user_answer");
      if !Truthy(sessionId) || userAnswer.None? then Outcome(MissingFields, None)
      else
        var key := KeyOf(sessionId.value);
        if io.lookupFails || key.None? || key.value !in sessions then Outcome(NotFound, None)
        else
          var session := sessions[key.value];
          var answer := parseFloat(userAnswer.value);
          if answer.None? then Outcome(Failed, None)
          else
            var isCorrect := StrictEquals(answer.value, session.correctAnswer);
            if io.feedback.None? then Outcome(Failed, None)
            else
              var row := SubmissionRow(key.value, answer.value, isCorrect, io.feedback.value);
              if io.insertFails then Outcome(Failed, None)
              else Outcome(Submitted(isCorrect, io.feedback.value, session.correctAnswer), Some(row))
  }

  /** A missing or falsy `session_id`, or an absent `user_answer`, is answered
      with 400 before any lookup: nothing is appended, and neither the tables
      nor the services make a difference. */
  lemma MissingFieldsRejected(sessions: map<SessionId, SessionRow>, request: Value, parseFloat: Value -> Option<Num>,
                              io: Services)
    requires !request.Null?
    requires !Truthy(Get(request, "session_id")) || Get(request, "user_answer").None?
    ensures Submit(sessions, Some(request), parseFloat, io) == Outcome(MissingFields, None)
  {
  }

  /** A parsed body whose `session_id` is the string `id` and whose
      `user_answer` is `answer`; any other keys it has are ignored. */
  predicate Carries(request: Value, id: SessionId, answer: Value)
  {
    request.Obj? && "session_id" in request.fields && request.fields["session_id"] == Str(id) &&
    "user_answer" in request.fields && request.fields["user_answer"] == answer
  }

  /** An id with no session, or a lookup that reports an error, is answered
      with 404 and nothing is appended. */
  lemma UnknownSessionRejected(sessions: map<SessionId, SessionRow>, request: Value, id: SessionId, answer: Value,
                               parseFloat: Value -> Option<Num>, io: Services)
    requires Carries(request, id, answer)
    requires id != [] && (id !in sessions || io.lookupFails)
    ensures Submit(sessions, Some(request), parseFloat, io) == Outcome(NotFound, None)
  {
  }

  /** A well-formed request for a stored session: correctness is exact
      equality of the parsed answer with the stored one, and the appended row
      and the reply agree with each other and with the session. */
  lemma SubmissionRecorded(sessions: map<SessionId, SessionRow>, request: Value, id: SessionId, answer: Value,
                           parseFloat: Value -> Option<Num>, feedback: string)
    requires Carries(request, id, answer)
    requires id in sessions && id != [] && parseFloat(answer).Some?
    ensures var o := Submit(sessions, Some(request), parseFloat, Services(false, Some(feedback), false));
            var parsed := parseFloat(answer).value;
            var correct := parsed != NaN && parsed == sessions[id].correctAnswer;
            o.appended == Some(SubmissionRow(id, parsed, correct, feedback)) &&
            o.reply == Submitted(correct, feedback, sessions[id].correctAnswer)
  {
  }

  /** An answer that parses to NaN is never correct, whatever is stored. */
  lemma NaNNeverCorrect(sessions: map<SessionId, SessionRow>, request: Option<Value>, parseFloat: Value -> Option<Num>,
                        io: Services)
    requires request.Some? && request.value.Obj? && "user_answer" in request.value.fields
    requires parseFloat(request.value.fields["user_answer"]) == Some(NaN)
    ensures var o := Submit(sessions, request, parseFloat, io);
            (o.reply.Submitted? ==> !o.reply.isCorrect) && (o.appended.Some? ==> !o.appended.value.isCorrect)
  {
  }

  /** A `user_answer` whose conversion to a string throws (an object whose
      `toString` is not a function, say) makes `parseFloat` throw: the reply
      is 500 and nothing is appended. */
  lemma UnconvertibleAnswerIs500(sessions: map<SessionId, SessionRow>, request: Value, id: SessionId, answer: Value,
                                 parseFloat: Value -> Option<Num>, io: Services)
    requires Carries(request, id, answer)
    requires id in sessions && id != [] && !io.lookupFails
    requires parseFloat(answer).None?
    ensures Submit(sessions, Some(request), parseFloat, io) == Outcome(Failed, None)
  {
  }

  /** A body that is not JSON, or is `null`, makes the handler throw: the
      reply is 500 and nothing is appended. */
  lemma UnreadableBodyIs500(sessions: map<SessionId, SessionRow>, request: Option<Value>, parseFloat: Value -> Option<Num>,
                            io: Services)
    requires request.None? || request.value.Null?
    ensures Submit(sessions, request, parseFloat, io) == Outcome(Failed, None)
  {
  }

  /** For a well-formed request on a stored session, a failure of the
      generative call or of the insert is answered with 500 and leaves nothing
      appended. */
  lemma ServiceFailureIs500(sessions: map<SessionId, SessionRow>, request: Value, id: SessionId, answer: Value,
                            parseFloat: Value -> Option<Num>, io: Services)
    requires Carries(request, id, answer)
    requires id in sessions && id != [] && !io.lookupFails
    requires io.feedback.None? || io.insertFails
    ensures Submit(sessions, Some(request), parseFloat, io) == Outcome(Failed, None)
  {
  }

  /** A session created from an accepted problem is graded against the final
      answer of that problem: an answer that parses to that number is
      correct. */
  lemma CreatedSessionGradesFinalAnswer(sessions: map<SessionId, SessionRow>, plan: Plan, request: Value, id: SessionId,
                                        answer: Value, parseFloat: Value -> Option<Num>, feedback: string)
    requires plan.Insert? && id != [] && Carries(request, id, answer)
    requires parseFloat(answer) == Some(plan.row.correctAnswer) && plan.row.correctAnswer != NaN
    ensures var o := Submit(sessions[id := plan.row], Some(request), parseFloat, Services(false, Some(feedback), false));
            o.reply == Submitted(true, feedback, plan.row.correctAnswer)
  {
  }

  /** The two tables. */
  class Tables {
    var sessions: map<SessionId, SessionRow>
    var submissions: seq<SubmissionRow>

    constructor ()
      ensures Valid()
      ensures sessions == map[] && submissions == []
    {
      sessions := map[];
      submissions := [];
    }

    /** Every session that any stored submission refers to exists: sessions
        are never deleted and a submission is only stored after its session
        was found. */
    ghost predicate Valid()
      reads this
    {
      forall i :: 0 <= i < |submissions| ==> submissions[i].sessionId in sessions
    }

    /** The problem-generation handler with its insert: the database assigns
        the fresh id `newId`, or reports an error. */
    method CreateSession(request: Option<Value>, aiText: Option<string>, parse: string -> Option<Value>,
                         newId: SessionId, insertFails: bool) returns (reply: GenerateReply)
      requires Valid()
      requires newId !in sessions
      modifies this`sessions
      ensures Valid()
      ensures var plan := Prepare(request, aiText, parse);
              reply == Respond(plan, if insertFails then None else Some(newId)) &&
              sessions == if plan.Insert? && !insertFails then old(sessions)[newId := plan.row] else old(sessions)
      ensures submissions == old(submissions)
    {
      var plan := Prepare(request, aiText, parse);
      if plan.Abort? || insertFails {
        reply := Respond(plan, None);
        return;
      }
      sessions := sessions[newId := plan.row];
      reply := Respond(plan, Some(newId));
    }

    /** The submission handler: early replies for a malformed request and for
        an unknown session, otherwise grade, fetch feedback and append exactly
        one row. Earlier submissions for the same session are not looked at. */
    method SubmitAnswer(request: Option<Value>, parseFloat: Value -> Option<Num>, io: Services) returns (reply: SubmitReply)
      requires Valid()
      modifies this`submissions
      ensures Valid()
      ensures var o := Submit(sessions, request, parseFloat, io);
              reply == o.reply &&
              submissions == old(submissions) + (if o.appended.Some? then [o.appended.value] else [])
      ensures sessions == old(sessions)
    {
      if request.None? || request.value.Null? {
        return Failed;
      }
      var sessionId := Get(request.value, "session_id");
      var userAnswer := Get(request.value, "user_answer");
      if !Truthy(sessionId) || userAnswer.None? {
        return MissingFields;
      }
      var key := KeyOf(sessionId.value);
      if io.lookupFails || key.None? || key.value !in sessions {
        return NotFound;
      }
      var session := sessions[key.value];
      var answer := parseFloat(userAnswer.value);
      if answer.None? {
        return Failed;
      }
      var isCorrect := StrictEquals(answer.value, session.correctAnswer);
      if io.feedback.None? {
        return Failed;
      }
      var feedback := io.feedback.value;
      if io.insertFails {
        return Failed;
      }
      submissions := submissions + [SubmissionRow(key.value, answer.value, isCorrect, feedback)];
      reply := Submitted(isCorrect, feedback, session.correctAnswer);
    }
  }

  /** The rows stored for one session, oldest first. */
  function Filter(rows: seq<SubmissionRow>, id: SessionId): (r: seq<SubmissionRow>)
    ensures |r| <= |rows|
    ensures forall i :: 0 <= i < |r| ==> r[i].sessionId == id
  {
    if rows == [] then []
    else Filter(rows[..|rows| - 1], id) + (if rows[|rows| - 1].sessionId == id then [rows[|rows| - 1]] else [])
  }

  /** Appending a row adds it to the rows of its own session and to no other:
      a repeated submission for a session is stored beside the earlier ones. */
  lemma {:induction false} FilterAppend(rows: seq<SubmissionRow>, row: SubmissionRow, id: SessionId)
    ensures Filter(rows + [row], id) == Filter(rows, id) + (if row.sessionId == id then [row] else [])
  {
    assert (rows + [row])[..|rows + [row]| - 1] == rows;
  }

  /** The same request submitted twice, one call after the other, each with
      its own answers from the outside world (a fresh feedback text and a
      fresh insert): earlier submissions are not looked at, so each call is
      graded exactly as if it were the first, and when both store a row the
      session gains two rows with the same grading. */
  method RepeatSubmissionAppends(t: Tables, request: Option<Value>, parseFloat: Value -> Option<Num>,
                                 io1: Services, io2: Services)
    returns (first: SubmitReply, second: SubmitReply)
    requires t.Valid()
    modifies t
    ensures t.Valid() && t.sessions == old(t.sessions)
    ensures first == Submit(t.sessions, request, parseFloat, io1).reply
    ensures second == Submit(t.sessions, request, parseFloat, io2).reply
    ensures var o1 := Submit(t.sessions, request, parseFloat, io1);
            var o2 := Submit(t.sessions, request, parseFloat, io2);
            t.submissions == old(t.submissions) + (if o1.appended.Some? then [o1.appended.value] else []) +
                             (if o2.appended.Some? then [o2.appended.value] else [])
    ensures first.Submitted? && second.Submitted? ==>
              first.isCorrect == second.isCorrect && first.correctAnswer == second.correctAnswer
    ensures var o1 := Submit(t.sessions, request, parseFloat, io1);
            var o2 := Submit(t.sessions, request, parseFloat, io2);
            o1.appended.Some? && o2.appended.Some? ==>
              var row1, row2 := o1.appended.value, o2.appended.value;
              row1.sessionId == row2.sessionId && row1.isCorrect == row2.isCorrect &&
              row1.userAnswer == row2.userAnswer &&
              Filter(t.submissions, row1.sessionId) == Filter(old(t.submissions), row1.sessionId) + [row1, row2]
  {
    first := t.SubmitAnswer(request, parseFloat, io1);
    var middle := t.submissions;
    second := t.SubmitAnswer(request, parseFloat, io2);
    var o1 := Submit(t.sessions, request, parseFloat, io1);
    var o2 := Submit(t.sessions, request, parseFloat, io2);
    if o1.appended.Some? && o2.appended.Some? {
      var row1, row2 := o1.appended.value, o2.appended.value;
      FilterAppend(old(t.submissions), row1, row1.sessionId);
      FilterAppend(middle, row2, row1.sessionId);
    }
  }
}
