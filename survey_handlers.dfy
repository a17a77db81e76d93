// The HTTP layer of the survey service: the identity headers the gateway
// forwards are turned into a request context, and service errors are
// turned into status codes by looking for words in their messages.
module SurveyHandlers {

  import opened Common
  import opened GoStrings
  import opened SurveyModels
  import opened RepositoryMock
  import opened SurveyService

  // ----------------------------------------------------------- headers

  /** The two identity headers; an absent header reads as "". */
  datatype Headers = Headers(userID: string, roles: string)

  const UserIDHeaderMissing: Error := Plain("X-User-ID header is missing")
  const UserIDHeaderInvalid: Error := Plain("invalid X-User-ID header")

  /** The roles header before empty entries are dropped: the inside of a
      bracketed header longer than two characters, or the header itself,
      split at every single space. */
  function RawRoles(header: string): seq<string>
  {
    if header == "" then []
    else if |header| > 2 && header[0] == '[' && header[|header| - 1] == ']' then
      var inner := header[1..|header| - 1];
      if inner != "" then Split(inner, ' ') else []
    else Split(header, ' ')
  }

  /** The context `getUserContext` builds, or the error it reports. */
  function UserContext(h: Headers): Result<Context>
  {
    if h.userID == "" then Err(UserIDHeaderMissing)
    else match Atoi(h.userID)
      case None => Err(UserIDHeaderInvalid)
      case Some(uid) => Ok(Context(Some(IntValue(uid)), Some(StringsValue(NonEmpty(RawRoles(h.roles))))))
  }

  /** `getUserContext`: the roles are filtered in a loop. */
  method GetUserContext(h: Headers) returns (r: Result<Context>)
    ensures r == UserContext(h)
  {
    if h.userID == "" {
      return Err(UserIDHeaderMissing);
    }
    var parsed := Atoi(h.userID);
    if parsed.None? {
      return Err(UserIDHeaderInvalid);
    }
    var roles := RawRoles(h.roles);
    var clean: seq<string> := [];
    var i := 0;
    while i < |roles|
      invariant 0 <= i <= |roles|
      invariant clean == NonEmpty(roles[..i])
    {
      assert roles[..i + 1][..i] == roles[..i];
      if roles[i] != "" {
        clean := clean + [roles[i]];
      }
      i := i + 1;
    }
    assert roles[..i] == roles;
    return Ok(Context(Some(IntValue(parsed.value)), Some(StringsValue(clean))));
  }

  /** The user-ID header decides alone whether a context is built: absent
      and non-numeric headers are told apart, and the ID is the header's value. */
  lemma UserIDHeaderRule(h: Headers)
    ensures UserContext(h).Ok? <==> h.userID != "" && Atoi(h.userID).Some?
    ensures h.userID == "" ==> UserContext(h) == Err(UserIDHeaderMissing)
    ensures h.userID != "" && Atoi(h.userID).None? ==> UserContext(h) == Err(UserIDHeaderInvalid)
    ensures UserContext(h).Ok? ==> UserContext(h).value.userID == Some(IntValue(Atoi(h.userID).value))
  {
  }

  /** Every 64-bit user ID the gateway writes in decimal is read back. */
  lemma UserIDHeaderRoundTrip(n: int, roles: string)
    requires MinInt64 <= n <= MaxInt64
    ensures UserContext(Headers(Itoa(n), roles)).Ok?
    ensures UserContext(Headers(Itoa(n), roles)).value.userID == Some(IntValue(n))
  {
    AtoiItoa(n);
  }

  /** A context built from the headers always carries both values with the
      types the service asserts, so the gate never reports a context error
      for a request that got past `getUserContext`. */
  lemma HandlerContextIsComplete(h: Headers)
    requires UserContext(h).Ok?
    ensures UserAndRoles(UserContext(h).value) ==
      Ok(Identity(Atoi(h.userID).value, NonEmpty(RawRoles(h.roles))))
  {
  }

  /** The roles a context receives are words: never empty, never holding a space. */
  lemma RolesAreWords(h: Headers)
    requires UserContext(h).Ok?
    ensures forall i :: 0 <= i < |UserContext(h).value.roles.value.items| ==>
      UserContext(h).value.roles.value.items[i] != "" && ' ' !in UserContext(h).value.roles.value.items[i]
  {
    var raw := RawRoles(h.roles);
    assert forall j :: 0 <= j < |raw| ==> ' ' !in raw[j];
  }

  /** A join of words is at least as long as its first word. */
  lemma JoinCoversFirst(parts: seq<string>, sep: string)
    requires |parts| >= 1
    ensures |Join(parts, sep)| >= |parts[0]|
  {
    if |parts| > 1 {
      assert Join(parts, sep) == parts[0] + sep + Join(parts[1..], sep);
    }
  }

  /** The inside of a bracketed string is the string that was bracketed. */
  lemma InsideBrackets(inner: string)
    ensures var header := "[" + inner + "]";
      |header| == |inner| + 2 && header[0] == '[' && header[|header| - 1] == ']' &&
      header[1..|header| - 1] == inner
  {
    var header := "[" + inner + "]";
    assert header[1..|header| - 1] == inner;
  }

  /** The bracketed form "[r1 r2 ...]" of a non-empty list of words is read
      back as that list. */
  lemma BracketedRolesRoundTrip(roles: seq<string>)
    requires |roles| >= 1
    requires forall i :: 0 <= i < |roles| ==> roles[i] != "" && ' ' !in roles[i]
    ensures RawRoles("[" + Join(roles, " ") + "]") == roles
    ensures NonEmpty(RawRoles("[" + Join(roles, " ") + "]")) == roles
  {
    var joined := Join(roles, " ");
    JoinCoversFirst(roles, " ");
    InsideBrackets(joined);
    assert RawRoles("[" + joined + "]") == Split(joined, ' ');
    SplitJoin(roles, ' ');
    NonEmptyOfWords(roles);
  }

  /** "[]" is two characters long, so it is not read as an empty bracketed
      list: it becomes the single role "[]". */
  lemma EmptyBracketsIsARole()
    ensures NonEmpty(RawRoles("[]")) == ["[]"]
  {
    SplitWithoutSeparator("[]", ' ');
    assert NonEmpty([""]) == [];
  }

  /** A header without brackets is split at single spaces, dropping the
      empty pieces doubled spaces leave; no header means no roles. */
  lemma UnbracketedRolesRule(header: string)
    requires header == "" || |header| <= 2 || header[0] != '[' || header[|header| - 1] != ']'
    ensures NonEmpty(RawRoles(header)) == (if header == "" then [] else NonEmpty(Split(header, ' ')))
  {
  }

  // ------------------------------------------------------------ replies

  datatype Body =
    | ErrorText(text: string)
    | Created(id: int, message: string)
    | Done(message: string)
    | SurveyBody(survey: Survey)

  datatype Reply = Reply(status: int, body: Body)

  const InvalidSurveyID: Reply := Reply(400, ErrorText("Invalid survey ID"))

  /** The error chain of the handlers: "not found" is looked for first, then
      "forbidden"; each handler words the three replies its own way. */
  function Classify(err: Error, notFound: string, forbidden: string, otherwise: string): (reply: Reply)
    ensures reply.status in {404, 403, 500}
  {
    if Contains(Message(err), "not found") then Reply(404, ErrorText(notFound))
    else if Contains(Message(err), "forbidden") then Reply(403, ErrorText(forbidden))
    else Reply(500, ErrorText(otherwise))
  }

  /** A handler's reply to what its service call returned. */
  function Outcome(err: Option<Error>, success: Reply, notFound: string, forbidden: string, otherwise: string): Reply
  {
    match err
    case None => success
    case Some(e) => Classify(e, notFound, forbidden, otherwise)
  }

  lemma ForbiddenIsNotNotFound()
    ensures !Contains("forbidden", "not found")
  {
    if Contains("forbidden", "not found") {
      assert "forbidden"[0] != "not found"[0];
      assert !HasPrefix("forbidden", "not found");
      ContainsNeedsRoom("forbidden"[1..], "not found");
    }
  }

  /** The sentinels land on their own codes, through any wrapping: a
      not-found error is 404, a forbidden one 403 unless its wrappers say
      "not found". */
  lemma ClassifySentinels(err: Error, notFound: string, forbidden: string, otherwise: string)
    ensures ErrorIs(err, ErrNotFound) ==> Classify(err, notFound, forbidden, otherwise).status == 404
    ensures ErrorIs(err, ErrForbidden) && !Contains(Message(err), "not found") ==>
      Classify(err, notFound, forbidden, otherwise).status == 403
    ensures err == ErrForbidden ==> Classify(err, notFound, forbidden, otherwise) == Reply(403, ErrorText(forbidden))
  {
    assert HasPrefix("not found", "not found");
    assert HasPrefix("forbidden", "forbidden");
    if ErrorIs(err, ErrNotFound) {
      WrappedMessageContains(err, ErrNotFound, "not found");
    }
    if ErrorIs(err, ErrForbidden) {
      WrappedMessageContains(err, ErrForbidden, "forbidden");
    }
    ForbiddenIsNotNotFound();
  }

  /** Both context-error messages contain "not found". */
  lemma ContextMessagesSayNotFound(e: Error)
    requires e == UserIDMissing || e == RolesMissing
    ensures Contains(Message(e), "not found")
  {
    if e == UserIDMissing {
      ContainsInside("user ID ", "not found", " or invalid type in context");
    } else {
      ContainsInside("user roles ", "not found", " or invalid type in context");
    }
  }

  /** A context error would read as a missing survey; `HandlerContextIsComplete`
      shows the handlers never hand the service such a context. */
  lemma ContextErrorsReadAsNotFound(ctx: Context, fetched: Result<Option<Survey>>, notFound: string, forbidden: string, otherwise: string)
    requires UserAndRoles(ctx).Err?
    ensures Classify(Gate(ctx, fetched).err, notFound, forbidden, otherwise).status == 404
  {
    var e := UserAndRoles(ctx).error;
    ContextMessagesSayNotFound(e);
    assert Gate(ctx, fetched) == Denied(Wrapped("authorization context error: ", e));
    WrappedMessageContains(Gate(ctx, fetched).err, e, "not found");
  }

  /** Behind a header-built context the gate's refusals are exactly 404 for
      a survey the repository did not return and 403 for someone else's. */
  lemma DenialStatus(h: Headers, fetched: Result<Option<Survey>>, notFound: string, forbidden: string, otherwise: string)
    requires UserContext(h).Ok?
    ensures Gate(UserContext(h).value, fetched).Denied? ==>
      Classify(Gate(UserContext(h).value, fetched).err, notFound, forbidden, otherwise) ==
      (if fetched.Ok? && fetched.value.Some? then Reply(403, ErrorText(forbidden)) else Reply(404, ErrorText(notFound)))
  {
    HandlerContextIsComplete(h);
    if Gate(UserContext(h).value, fetched).Denied? {
      ClassifySentinels(Gate(UserContext(h).value, fetched).err, notFound, forbidden, otherwise);
    }
  }

  /** `AddQuestion` wraps the gate's refusal in its own words, which still
      say "not found" when the survey is missing. */
  lemma AddQuestionMissingSurvey(h: Headers, fetched: Result<Option<Survey>>, surveyID: int)
    requires UserContext(h).Ok?
    ensures fetched.Err? || fetched.value.None? ==>
      Gate(UserContext(h).value, fetched) == Denied(ErrNotFound) &&
      Classify(Wrapped("AddQuestion: not authorized for survey " + Itoa(surveyID) + ": ", ErrNotFound),
               "Survey not found or not authorized", "Forbidden to add question to this survey", "Failed to add question").status == 404
  {
    HandlerContextIsComplete(h);
    var e := Wrapped("AddQuestion: not authorized for survey " + Itoa(surveyID) + ": ", ErrNotFound);
    assert ErrorIs(e, ErrNotFound);
    ClassifySentinels(e, "Survey not found or not authorized", "Forbidden to add question to this survey", "Failed to add question");
  }

  /** The reply of `GetSurvey` to what the read check decided. */
  function ReadReply(r: Result<Survey>): Reply
  {
    match r
    case Ok(s) => Reply(200, SurveyBody(s))
    case Err(e) => Classify(e, "Survey not found", "Forbidden", "Failed to retrieve survey")
  }

  /** With valid headers, a survey is served exactly when it exists and the
      caller is an admin, its creator, or it is active; a missing survey is
      404 and someone else's inactive survey 403. */
  lemma ReadReplyStatus(h: Headers, fetched: Result<Option<Survey>>)
    requires UserContext(h).Ok?
    ensures var who := UserAndRoles(UserContext(h).value).value;
      var reply := ReadReply(ReadAccess(UserContext(h).value, fetched));
      var found := fetched.Ok? && fetched.value.Some?;
      (reply.status == 200 <==> (found &&
        ("admin" in who.roles || fetched.value.value.creatorID == who.userID || fetched.value.value.isActive))) &&
      (reply.status == 200 ==> reply.body == SurveyBody(fetched.value.value)) &&
      (reply.status == 404 <==> !found) &&
      (reply.status == 403 <==> (found &&
        !("admin" in who.roles || fetched.value.value.creatorID == who.userID || fetched.value.value.isActive)))
  {
    var ctx := UserContext(h).value;
    HandlerContextIsComplete(h);
    ReadAccessRule(ctx, fetched);
    var r := ReadAccess(ctx, fetched);
    if r.Err? {
      ClassifySentinels(r.error, "Survey not found", "Forbidden", "Failed to retrieve survey");
    }
  }

  // ------------------------------------------------------------ requests

  /** The body of a survey create or update. */
  datatype SurveyRequest = SurveyRequest(
    title: string,
    description: string,
    isActive: bool,
    startDate: Time,
    endDate: Time,
    questions: seq<QuestionUpdateRequest>)

  /** The record the handlers hand to the service; the creator is left for
      the service to fill in. */
  function RequestedSurvey(id: int, req: SurveyRequest): Survey
  {
    Survey(id, 0, req.title, req.description, req.isActive, req.startDate, req.endDate)
  }

  // ------------------------------------------------------------ handlers

  class SurveyHandler {
    const service: SurveyService

    constructor (service: SurveyService)
      ensures this.service == service
    {
      this.service := service;
    }

    /** GET /surveys/:id. */
    method GetSurvey(idParam: string, h: Headers) returns (reply: Reply)
      ensures Atoi(idParam).None? ==> reply == InvalidSurveyID
      ensures Atoi(idParam).Some? && UserContext(h).Err? ==>
        reply == Reply(401, ErrorText("Authentication context error: " + Message(UserContext(h).error)))
      ensures Atoi(idParam).Some? && UserContext(h).Ok? ==>
        reply == ReadReply(ReadAccess(UserContext(h).value, service.repo.GetSurvey(Atoi(idParam).value)))
    {
      var id := Atoi(idParam);
      if id.None? {
        return InvalidSurveyID;
      }
      var ctx := GetUserContext(h);
      if ctx.Err? {
        return Reply(401, ErrorText("Authentication context error: " + Message(ctx.error)));
      }
      var r := service.GetSurvey(ctx.value, id.value);
      reply := ReadReply(r);
    }

    /** POST /surveys: the body is bound before the headers are read. */
    method CreateSurvey(body: Result<SurveyRequest>, h: Headers, fault: Option<Fault>)
      returns (reply: Reply, logged: Option<Error>)
      modifies service.repo
      ensures service.repo.errorMock == old(service.repo.errorMock)
      ensures body.Err? ==>
        reply == Reply(400, ErrorText(Message(body.error))) && logged.None? && service.repo.State() == old(service.repo.State())
      ensures body.Ok? && UserContext(h).Err? ==>
        reply == Reply(401, ErrorText(Message(UserContext(h).error))) && logged.None? &&
        service.repo.State() == old(service.repo.State())
      ensures body.Ok? && UserContext(h).Ok? && old(service.repo.errorMock).Some? ==>
        logged == Some(Wrapped("failed to begin transaction: ", old(service.repo.errorMock).value)) &&
        service.repo.State() == old(service.repo.State())
      ensures body.Ok? && UserContext(h).Ok? && old(service.repo.errorMock).None? ==>
        var n := 2 + Statements(body.value.questions);
        var owner := Atoi(h.userID).value;
        TxOutcome(fault, n, logged, old(service.repo.State()), service.repo.State(),
                  CreatedStore(old(service.repo.State()), RequestedSurvey(0, body.value).(creatorID := owner), body.value.questions)) &&
        (!FailsWithin(fault, 0, n) ==>
          reply == Reply(201, Created(|old(service.repo.surveys)| + 1, "Survey created successfully")))
      ensures body.Ok? && UserContext(h).Ok? && logged.Some? ==>
        reply == Reply(if Contains(Message(logged.value), "forbidden") then 403 else 500,
                       ErrorText(if Contains(Message(logged.value), "forbidden") then "Forbidden" else "Failed to create survey"))
    {
      if body.Err? {
        return Reply(400, ErrorText(Message(body.error))), None;
      }
      var ctx := GetUserContext(h);
      if ctx.Err? {
        return Reply(401, ErrorText(Message(ctx.error))), None;
      }
      HandlerContextIsComplete(h);
      var id;
      id, logged := service.CreateSurvey(ctx.value, RequestedSurvey(0, body.value), body.value.questions, fault);
      if logged.Some? {
        if Contains(Message(logged.value), "forbidden") {
          reply := Reply(403, ErrorText("Forbidden"));
        } else {
          reply := Reply(500, ErrorText("Failed to create survey"));
        }
        return;
      }
      reply := Reply(201, Created(id, "Survey created successfully"));
    }

    /** PUT /surveys/:id: the survey record and its whole question list are rewritten. */
    method UpdateSurvey(idParam: string, body: Result<SurveyRequest>, h: Headers, fault: Option<Fault>)
      returns (reply: Reply, logged: Option<Error>)
      modifies service.repo
      ensures service.repo.errorMock == old(service.repo.errorMock)
      ensures (Atoi(idParam).None? || body.Err? || UserContext(h).Err?) ==>
        logged.None? && service.repo.State() == old(service.repo.State()) &&
        reply == (if Atoi(idParam).None? then InvalidSurveyID
                  else if body.Err? then Reply(400, ErrorText(Message(body.error)))
                  else Reply(401, ErrorText(Message(UserContext(h).error))))
      ensures Atoi(idParam).Some? && body.Ok? && UserContext(h).Ok? ==>
        var id := Atoi(idParam).value;
        var access := Gate(UserContext(h).value, old(service.repo.GetSurvey(id)));
        reply == Outcome(logged, Reply(200, Done("Survey updated successfully")), "Survey not found", "Forbidden", "Failed to update survey") &&
        (access.Denied? ==> logged == Some(access.err) && service.repo.State() == old(service.repo.State())) &&
        (access.Granted? ==>
          TxOutcome(fault, 3 + Statements(body.value.questions), logged, old(service.repo.State()), service.repo.State(),
                    RewrittenStore(old(service.repo.State()), RequestedSurvey(id, body.value).(creatorID := access.survey.creatorID),
                                   body.value.questions)))
    {
      var id := Atoi(idParam);
      if id.None? {
        return InvalidSurveyID, None;
      }
      if body.Err? {
        return Reply(400, ErrorText(Message(body.error))), None;
      }
      var ctx := GetUserContext(h);
      if ctx.Err? {
        return Reply(401, ErrorText(Message(ctx.error))), None;
      }
      logged := service.UpdateSurveyWithQuestions(ctx.value, RequestedSurvey(id.value, body.value), body.value.questions, fault);
      reply := Outcome(logged, Reply(200, Done("Survey updated successfully")), "Survey not found", "Forbidden", "Failed to update survey");
    }

    /** DELETE /surveys/:id. */
    method DeleteSurvey(idParam: string, h: Headers) returns (reply: Reply)
      modifies service.repo
      ensures service.repo.errorMock == old(service.repo.errorMock)
      ensures (Atoi(idParam).None? || UserContext(h).Err?) ==>
        service.repo.State() == old(service.repo.State()) &&
        reply == (if Atoi(idParam).None? then InvalidSurveyID else Reply(401, ErrorText(Message(UserContext(h).error))))
      ensures Atoi(idParam).Some? && UserContext(h).Ok? ==>
        var id := Atoi(idParam).value;
        var access := Gate(UserContext(h).value, old(service.repo.GetSurvey(id)));
        (access.Denied? ==>
          service.repo.State() == old(service.repo.State()) &&
          reply == (if old(service.repo.GetSurvey(id)).Ok? && old(service.repo.GetSurvey(id)).value.Some?
                    then Reply(403, ErrorText("Forbidden")) else Reply(404, ErrorText("Survey not found")))) &&
        (access.Granted? ==>
          service.repo.State() == old(service.repo.State()).(surveys := old(service.repo.surveys) - {id}) &&
          reply == Reply(200, Done("Survey deleted successfully")))
    {
      var id := Atoi(idParam);
      if id.None? {
        return InvalidSurveyID;
      }
      var ctx := GetUserContext(h);
      if ctx.Err? {
        return Reply(401, ErrorText(Message(ctx.error)));
      }
      DenialStatus(h, service.repo.GetSurvey(id.value), "Survey not found", "Forbidden", "Failed to delete survey");
      var err := service.DeleteSurvey(ctx.value, id.value);
      reply := Outcome(err, Reply(200, Done("Survey deleted successfully")), "Survey not found", "Forbidden", "Failed to delete survey");
    }

    /** PATCH /surveys/:id/status: a body without `is_active` is refused
        before the headers are read. */
    method UpdateSurveyStatus(idParam: string, body: Result<Option<bool>>, h: Headers) returns (reply: Reply)
      modifies service.repo
      ensures service.repo.errorMock == old(service.repo.errorMock)
      ensures (Atoi(idParam).None? || body.Err? || body.value.None? || UserContext(h).Err?) ==>
        service.repo.State() == old(service.repo.State()) &&
        reply == (if Atoi(idParam).None? then InvalidSurveyID
                  else if body.Err? then Reply(400, ErrorText(Message(body.error)))
                  else if body.value.None? then Reply(400, ErrorText("is_active field is required"))
                  else Reply(401, ErrorText(Message(UserContext(h).error))))
      ensures Atoi(idParam).Some? && body.Ok? && body.value.Some? && UserContext(h).Ok? ==>
        var id := Atoi(idParam).value;
        var access := Gate(UserContext(h).value, old(service.repo.GetSurvey(id)));
        (access.Denied? ==>
          service.repo.State() == old(service.repo.State()) &&
          reply == (if old(service.repo.GetSurvey(id)).Ok? && old(service.repo.GetSurvey(id)).value.Some?
                    then Reply(403, ErrorText("Forbidden")) else Reply(404, ErrorText("Survey not found")))) &&
        (access.Granted? ==>
          service.repo.State() == SetActive(old(service.repo.State()), id, body.value.value) &&
          reply == Reply(200, Done("Survey status updated successfully")))
    {
      var id := Atoi(idParam);
      if id.None? {
        return InvalidSurveyID;
      }
      if body.Err? {
        return Reply(400, ErrorText(Message(body.error)));
      }
      if body.value.None? {
        return Reply(400, ErrorText("is_active field is required"));
      }
      var ctx := GetUserContext(h);
      if ctx.Err? {
        return Reply(401, ErrorText(Message(ctx.error)));
      }
      DenialStatus(h, service.repo.GetSurvey(id.value), "Survey not found", "Forbidden", "Failed to update survey status");
      var err := service.UpdateSurveyStatus(ctx.value, id.value, body.value.value);
      reply := Outcome(err, Reply(200, Done("Survey status updated successfully")), "Survey not found", "Forbidden", "Failed to update survey status");
    }

    /** POST /surveys/:id/questions: the survey ID of the path replaces the body's. */
    method AddQuestion(idParam: string, body: Result<CreateQuestionRequest>, h: Headers, fault: Option<Fault>)
      returns (reply: Reply, logged: Option<Error>)
      modifies service.repo
      ensures service.repo.errorMock == old(service.repo.errorMock)
      ensures (Atoi(idParam).None? || body.Err? || UserContext(h).Err?) ==>
        logged.None? && service.repo.State() == old(service.repo.State()) &&
        reply == (if Atoi(idParam).None? then InvalidSurveyID
                  else if body.Err? then Reply(400, ErrorText(Message(body.error)))
                  else Reply(401, ErrorText(Message(UserContext(h).error))))
      ensures Atoi(idParam).Some? && body.Ok? && UserContext(h).Ok? ==>
        var req := body.value.(surveyID := Atoi(idParam).value);
        var access := Gate(UserContext(h).value, old(service.repo.GetSurvey(req.surveyID)));
        var n := 2 + |req.options|;
        (logged.Some? ==>
          reply == Classify(logged.value, "Survey not found or not authorized", "Forbidden to add question to this survey", "Failed to add question")) &&
        (access.Denied? ==>
          logged.Some? && service.repo.State() == old(service.repo.State()) &&
          (old(service.repo.GetSurvey(req.surveyID)).Err? || old(service.repo.GetSurvey(req.surveyID)).value.None? ==>
            reply.status == 404)) &&
        (access.Granted? ==>
          TxOutcome(fault, n, logged, old(service.repo.State()), service.repo.State(), AddedQuestionStore(old(service.repo.State()), req)) &&
          (!FailsWithin(fault, 0, n) ==>
            reply == Reply(201, Created(|old(service.repo.questions)| + 1, "Question added successfully"))))
    {
      var surveyID := Atoi(idParam);
      if surveyID.None? {
        return InvalidSurveyID, None;
      }
      if body.Err? {
        return Reply(400, ErrorText(Message(body.error))), None;
      }
      var ctx := GetUserContext(h);
      if ctx.Err? {
        return Reply(401, ErrorText(Message(ctx.error))), None;
      }
      var req := body.value.(surveyID := surveyID.value);
      AddQuestionMissingSurvey(h, service.repo.GetSurvey(req.surveyID), req.surveyID);
      var questionID;
      questionID, logged := service.AddQuestion(ctx.value, req, fault);
      if logged.Some? {
        reply := Classify(logged.value, "Survey not found or not authorized", "Forbidden to add question to this survey", "Failed to add question");
        return;
      }
      reply := Reply(201, Created(questionID, "Question added successfully"));
    }
  }
}
