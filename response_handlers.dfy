// The response service's submission path and its HTTP handlers: the
// roles-header parser, the user-ID precedence of a submission, and how each
// handler turns a service error into a status by looking at its message.
module ResponseHandlers {

  import opened Common
  import opened GoStrings
  import opened ResponseModels
  import ResponseAnalytics
  import ResponseExport
  import SurveyHandlers

  // -------------------------------------------------------- roles header

  const Brackets: set<char> := {'[', ']'}

  /** `parseRolesHeader`: the brackets at both ends are trimmed; what is
      left is read as space-separated fields, else as a comma-separated
      list (empty entries kept), else as one role, else as none. */
  function ParseRolesHeader(header: string): (roles: seq<string>)
    ensures var cleaned := Trim(header, Brackets);
      !Contains(cleaned, ",") || Contains(cleaned, " ") ==> forall i :: 0 <= i < |roles| ==> roles[i] != ""
  {
    var cleaned := Trim(header, Brackets);
    if Contains(cleaned, " ") then Fields(cleaned)
    else if Contains(cleaned, ",") then Split(cleaned, ',')
    else if cleaned != "" then [cleaned]
    else []
  }

  /** A role that can be written in a list header: no brackets, blanks or
      commas. */
  predicate PlainRole(role: string)
  {
    forall c :: c in role ==> c !in Brackets && c !in Whitespace && c != ','
  }

  /** The brackets `%v` prints around a non-empty list of plain roles are
      all the trimming removes. */
  lemma BracketsTrimmed(roles: seq<string>, sep: string)
    requires |roles| >= 1
    requires forall i :: 0 <= i < |roles| ==> roles[i] != "" && PlainRole(roles[i])
    ensures Trim("[" + Join(roles, sep) + "]", Brackets) == Join(roles, sep)
  {
    var joined := Join(roles, sep);
    var first, last := roles[0], roles[|roles| - 1];
    JoinEnds(roles, sep);
    assert joined[0] == joined[..|first|][0] == first[0];
    assert joined[|joined| - 1] == joined[|joined| - |last|..][|last| - 1] == last[|last| - 1];
    assert PlainRole(first) && PlainRole(last);
    assert first[0] in first && last[|last| - 1] in last;
    TrimBracketed(joined, '[', ']');
  }

  /** With a single role there is neither a blank nor a comma to split on. */
  lemma SingleRoleParse(role: string)
    requires role != "" && PlainRole(role)
    ensures ParseRolesHeader("[" + role + "]") == [role]
  {
    BracketsTrimmed([role], " ");
    assert Join([role], " ") == role;
    ContainsChar(role, ' ');
    ContainsChar(role, ',');
    assert ' ' in Whitespace;
  }

  /** The form `fmt.Sprintf("%v", roles)` prints, "[r1 r2 ...]", is read back
      as the roles it was printed from. */
  lemma PrintedRolesRoundTrip(roles: seq<string>)
    requires |roles| >= 1
    requires forall i :: 0 <= i < |roles| ==> roles[i] != "" && PlainRole(roles[i])
    ensures ParseRolesHeader("[" + Join(roles, " ") + "]") == roles
  {
    if |roles| == 1 {
      SingleRoleParse(roles[0]);
      assert roles == [roles[0]];
    } else {
      var joined := Join(roles, " ");
      BracketsTrimmed(roles, " ");
      assert joined == roles[0] + " " + Join(roles[1..], " ");
      ContainsInside(roles[0], " ", Join(roles[1..], " "));
      assert forall i :: 0 <= i < |roles| ==> forall c :: c in roles[i] ==> c !in Whitespace;
      FieldsOfJoin(roles);
    }
  }

  /** A comma-separated list of roles is split back into its entries, empty
      entries included, as long as there are two or more. */
  lemma CommaRolesRoundTrip(roles: seq<string>)
    requires |roles| >= 2
    requires forall i :: 0 <= i < |roles| ==> PlainRole(roles[i])
    ensures ParseRolesHeader(Join(roles, ",")) == roles
  {
    var joined := Join(roles, ",");
    var bad := Brackets + {' '};
    assert ' ' in Whitespace;
    assert forall i :: 0 <= i < |roles| ==> forall c :: c in roles[i] ==> c !in bad;
    JoinAvoids(roles, ",", bad);
    assert |joined| == 0 || (joined[0] !in Brackets && joined[|joined| - 1] !in Brackets) by {
      if |joined| > 0 {
        assert joined[0] in joined && joined[|joined| - 1] in joined;
      }
    }
    assert Trim(joined, Brackets) == joined;
    ContainsChar(joined, ' ');
    assert joined == roles[0] + "," + Join(roles[1..], ",");
    ContainsInside(roles[0], ",", Join(roles[1..], ","));
    assert forall i :: 0 <= i < |roles| ==> ',' !in roles[i];
    SplitJoin(roles, ',');
  }

  /** No header and an empty bracket pair both give no roles, where the
      survey service reads "[]" as the role "[]". */
  lemma EmptyBracketsAreNoRoles()
    ensures ParseRolesHeader("") == []
    ensures ParseRolesHeader("[]") == []
    ensures NonEmpty(SurveyHandlers.RawRoles("[]")) == ["[]"]
  {
    assert Trim("[]", Brackets) == "" by {
      assert "[]"[1..] == "]";
      assert "]"[1..] == "";
    }
    assert !Contains("", " ") && !Contains("", ",");
    SurveyHandlers.EmptyBracketsIsARole();
  }

  // ----------------------------------------------------------- identity

  /** The two identity headers, "" when absent. */
  datatype Headers = Headers(userID: string, roles: string)

  /** What a handler puts in the request context for the survey service. */
  datatype Identity = Identity(userID: Option<int>, roles: Option<seq<string>>)

  /** Roles go into the context only when the header parses to some. */
  function HeaderRoles(h: Headers): (roles: Option<seq<string>>)
    ensures roles.Some? <==> h.roles != "" && |ParseRolesHeader(h.roles)| > 0
  {
    if h.roles != "" && |ParseRolesHeader(h.roles)| > 0 then Some(ParseRolesHeader(h.roles)) else None
  }

  /** The context of the read handlers: a user ID only from a valid header. */
  function ReadIdentity(h: Headers): Identity
  {
    Identity(if h.userID != "" then Atoi(h.userID) else None, HeaderRoles(h))
  }

  /** The user ID a submission is stored with: a valid header overrides the
      body, anything else leaves the body's. */
  function StoredUser(h: Headers, bodyUser: Option<int>): Option<int>
  {
    if h.userID != "" && Atoi(h.userID).Some? then Atoi(h.userID) else bodyUser
  }

  /** The context of a submission: with a header, the header's ID if it is
      valid and none otherwise; without one, the body's. */
  function SubmitIdentity(h: Headers, bodyUser: Option<int>): Identity
  {
    Identity(if h.userID != "" then Atoi(h.userID) else bodyUser, HeaderRoles(h))
  }

  /** The precedence of the user ID in a submission. */
  lemma UserIDPrecedence(h: Headers, bodyUser: Option<int>)
    ensures Atoi(h.userID).Some? ==>
      StoredUser(h, bodyUser) == Atoi(h.userID) && SubmitIdentity(h, bodyUser).userID == Atoi(h.userID)
    ensures h.userID != "" && Atoi(h.userID).None? ==>
      StoredUser(h, bodyUser) == bodyUser && SubmitIdentity(h, bodyUser).userID == None
    ensures h.userID == "" ==>
      StoredUser(h, bodyUser) == bodyUser && SubmitIdentity(h, bodyUser).userID == bodyUser
  {
    assert Atoi("") == None;
  }

  // -------------------------------------------------------- submission

  /** The error of a submission to an inactive survey; spelled in pieces so
      that proofs can see the words "not active" in it. */
  const NotActive: Error := Plain("survey is " + "not active" + " and cannot accept new responses")

  /** What a submission returns and what is stored afterwards. */
  datatype Submission = Submission(err: Option<Error>, stored: seq<Response>)

  /** `SubmitResponse` of the service given the fetched survey, whether the
      insert fails, and the ID and time the store gives a new response. */
  function Submit(stored: seq<Response>, req: CreateResponseRequest, details: Result<SurveyDetails>,
                  insertFault: Option<Error>, newID: string, now: Time): Submission
  {
    if details.Err? then
      Submission(Some(Wrapped("failed to retrieve survey details (ID: " + Itoa(req.surveyID) + "): ", details.error)), stored)
    else if !details.value.isActive then Submission(Some(NotActive), stored)
    else if insertFault.Some? then
      Submission(Some(Wrapped("failed to save response to database (SurveyID: " + Itoa(req.surveyID) + "): ", insertFault.value)), stored)
    else Submission(None, stored + [Response(newID, req.surveyID, req.userID, now, req.answers)])
  }

  /** A submission stores exactly one response, the request's, and only
      when the survey is active and the insert succeeds; otherwise it
      reports an error and stores nothing. */
  lemma SubmitStoresOnlyForActiveSurveys(stored: seq<Response>, req: CreateResponseRequest, details: Result<SurveyDetails>,
                                         insertFault: Option<Error>, newID: string, now: Time)
    ensures var s := Submit(stored, req, details, insertFault, newID, now);
      (s.err == None <==> details.Ok? && details.value.isActive && insertFault.None?) &&
      (s.err == None ==> s.stored == stored + [Response(newID, req.surveyID, req.userID, now, req.answers)]) &&
      (s.err != None ==> s.stored == stored)
    ensures details.Ok? && !details.value.isActive ==>
      Contains(Message(Submit(stored, req, details, insertFault, newID, now).err.value), "not active")
  {
    ContainsInside("survey is ", "not active", " and cannot accept new responses");
  }

  /** The store of submitted responses. */
  class ResponseService {
    var stored: seq<Response>

    constructor ()
      ensures stored == []
    {
      stored := [];
    }

    method SubmitResponse(req: CreateResponseRequest, details: Result<SurveyDetails>,
                          insertFault: Option<Error>, newID: string, now: Time) returns (err: Option<Error>)
      modifies this
      ensures Submission(err, stored) == Submit(old(stored), req, details, insertFault, newID, now)
    {
      if details.Err? {
        return Some(Wrapped("failed to retrieve survey details (ID: " + Itoa(req.surveyID) + "): ", details.error));
      }
      if !details.value.isActive {
        return Some(NotActive);
      }
      var response := Response(newID, req.surveyID, req.userID, now, req.answers);
      if insertFault.Some? {
        return Some(Wrapped("failed to save response to database (SurveyID: " + Itoa(req.surveyID) + "): ", insertFault.value));
      }
      stored := stored + [response];
      err := None;
    }
  }

  // ------------------------------------------------------------ replies

  datatype Body =
    | ErrorText(text: string)
    | Note(message: string)
    | AnalyticsBody(analytics: SurveyAnalytics)
    | ResponsesBody(responses: seq<Response>)
    | CsvBody(rows: seq<seq<string>>)

  datatype Reply = Reply(status: int, body: Body)

  /** A failed submission: 403 when the message says "not active" or "not
      found", 500 otherwise. */
  function SubmitFailure(e: Error): (reply: Reply)
    ensures reply.status == 403 <==> Contains(Message(e), "not active") || Contains(Message(e), "not found")
    ensures reply.status == 403 || reply.status == 500
  {
    if Contains(Message(e), "not active") || Contains(Message(e), "not found") then Reply(403, ErrorText(Message(e)))
    else Reply(500, ErrorText("Failed to submit response: " + Message(e)))
  }

  /** The request body of a submission, or the binding error's text. */
  datatype SubmitBody = Bound(req: CreateResponseRequest) | Unbound(bindError: string)

  /** A submission to an inactive survey is refused with 403, and so is one
      whose survey lookup failed with a "not found" message. */
  lemma SubmitRefusals(stored: seq<Response>, req: CreateResponseRequest, details: Result<SurveyDetails>,
                       insertFault: Option<Error>, newID: string, now: Time)
    ensures var s := Submit(stored, req, details, insertFault, newID, now);
      (details.Ok? && !details.value.isActive) || (details.Err? && Contains(Message(details.error), "not found")) ==>
        s.err.Some? && SubmitFailure(s.err.value).status == 403
  {
    var s := Submit(stored, req, details, insertFault, newID, now);
    SubmitStoresOnlyForActiveSurveys(stored, req, details, insertFault, newID, now);
    if details.Err? && Contains(Message(details.error), "not found") {
      WrappedMessageContains(s.err.value, details.error, "not found");
    }
  }

  /** The reply of a read handler whose fetch failed. */
  function ReadFailure(e: Error, notFound: string, otherwise: string): (reply: Reply)
    ensures reply.status == 404 <==> Contains(Message(e), "not found")
    ensures reply.status == 404 || reply.status == 500
  {
    if Contains(Message(e), "not found") then Reply(404, ErrorText(notFound + Message(e)))
    else Reply(500, ErrorText(otherwise + Message(e)))
  }

  /** The analytics handler's reply. */
  function AnalyticsReply(idParam: string, details: Result<SurveyDetails>, fetched: Result<seq<Response>>): Reply
  {
    if Atoi(idParam).None? then Reply(400, ErrorText("Invalid Survey ID format in URL path"))
    else
      match ResponseAnalytics.AnalyticsFor(details, fetched)
      case Err(e) => ReadFailure(e, "Analytics not found or survey does not exist: ", "Failed to get survey analytics: ")
      case Ok(a) => Reply(200, AnalyticsBody(a))
  }

  /** A survey lookup that failed with "not found" makes the analytics
      handler answer 404; with both fetches done, it answers 200 with the
      report. */
  lemma AnalyticsStatus(idParam: string, details: Result<SurveyDetails>, fetched: Result<seq<Response>>)
    requires Atoi(idParam).Some?
    ensures details.Err? && Contains(Message(details.error), "not found") ==>
      AnalyticsReply(idParam, details, fetched).status == 404
    ensures details.Ok? && fetched.Ok? ==>
      AnalyticsReply(idParam, details, fetched) ==
        Reply(200, AnalyticsBody(ResponseAnalytics.Analytics(details.value, fetched.value)))
  {
    if details.Err? && Contains(Message(details.error), "not found") {
      var e := ResponseAnalytics.AnalyticsFor(details, fetched).error;
      WrappedMessageContains(e, details.error, "not found");
    }
  }

  /** The wide-export handler's reply. */
  function ExportReply(idParam: string, details: Result<SurveyDetails>, fetched: Result<seq<Response>>,
                       showTime: Time -> string, showNumber: real -> string): Reply
  {
    if Atoi(idParam).None? then Reply(400, ErrorText("Invalid survey_id format"))
    else
      match ResponseExport.WideExport(Atoi(idParam).value, details, fetched, showTime, showNumber)
      case Err(e) =>
        if Contains(Message(e), "not found") then Reply(404, ErrorText(Message(e)))
        else Reply(500, ErrorText("Failed to export responses: " + Message(e)))
      case Ok(rows) => Reply(200, CsvBody(rows))
  }

  /** A survey lookup that failed with "not found" makes the export handler
      answer 404; a successful export sends one row per response after the
      header. */
  lemma ExportStatus(idParam: string, details: Result<SurveyDetails>, fetched: Result<seq<Response>>,
                     showTime: Time -> string, showNumber: real -> string)
    requires Atoi(idParam).Some?
    ensures details.Err? && Contains(Message(details.error), "not found") ==>
      ExportReply(idParam, details, fetched, showTime, showNumber).status == 404
    ensures details.Ok? && fetched.Ok? ==>
      var reply := ExportReply(idParam, details, fetched, showTime, showNumber);
      reply.status == 200 && |reply.body.rows| == 1 + |fetched.value|
  {
    var id := Atoi(idParam).value;
    if details.Err? && Contains(Message(details.error), "not found") {
      var e := ResponseExport.WideExport(id, details, fetched, showTime, showNumber).error;
      WrappedMessageContains(e, details.error, "not found");
    }
    if details.Ok? && fetched.Ok? {
      ResponseExport.WideExportShape(id, details.value, fetched.value, showTime, showNumber);
    }
  }

  // ----------------------------------------------------------- handlers

  class ResponseHandler {
    const service: ResponseService

    constructor (service: ResponseService)
      ensures this.service == service
    {
      this.service := service;
    }

    /** `SubmitResponse`: the request is bound, the identity headers are
        applied, and the service's error becomes a status.  Returns the
        context the survey lookup is made with. */
    method SubmitResponse(body: SubmitBody, h: Headers, details: Result<SurveyDetails>,
                          insertFault: Option<Error>, newID: string, now: Time)
      returns (reply: Reply, ctx: Identity)
      modifies service
      ensures body.Unbound? ==>
        reply == Reply(400, ErrorText("Invalid request body: " + body.bindError)) && service.stored == old(service.stored)
      ensures body.Bound? ==>
        var req := body.req.(userID := StoredUser(h, body.req.userID));
        var s := Submit(old(service.stored), req, details, insertFault, newID, now);
        ctx == SubmitIdentity(h, body.req.userID) &&
        service.stored == s.stored &&
        reply == (if s.err.None? then Reply(201, Note("Response submitted successfully")) else SubmitFailure(s.err.value))
    {
      ctx := Identity(None, None);
      if body.Unbound? {
        return Reply(400, ErrorText("Invalid request body: " + body.bindError)), ctx;
      }
      var req: CreateResponseRequest;
      req, ctx := ApplySubmitHeaders(body.req, h);
      var err := service.SubmitResponse(req, details, insertFault, newID, now);
      if err.Some? {
        if Contains(Message(err.value), "not active") || Contains(Message(err.value), "not found") {
          reply := Reply(403, ErrorText(Message(err.value)));
        } else {
          reply := Reply(500, ErrorText("Failed to submit response: " + Message(err.value)));
        }
        return;
      }
      reply := Reply(201, Note("Response submitted successfully"));
    }

    /** The identity headers of a submission: a valid user-ID header
        replaces the body's user, and the context carries the header's ID
        when there is a header and the body's otherwise. */
    method ApplySubmitHeaders(body: CreateResponseRequest, h: Headers) returns (req: CreateResponseRequest, ctx: Identity)
      ensures req == body.(userID := StoredUser(h, body.userID))
      ensures ctx == SubmitIdentity(h, body.userID)
    {
      req, ctx := body, Identity(None, None);
      if h.userID != "" {
        var uid := Atoi(h.userID);
        if uid.Some? {
          ctx := ctx.(userID := uid);
          req := req.(userID := uid);
        }
      } else if req.userID.Some? {
        ctx := ctx.(userID := req.userID);
      }
      if h.roles != "" {
        var roles := ParseRolesHeader(h.roles);
        if |roles| > 0 {
          ctx := ctx.(roles := Some(roles));
        }
      }
    }

    /** The identity the read handlers forward. */
    method ReadContext(h: Headers) returns (ctx: Identity)
      ensures ctx == ReadIdentity(h)
    {
      ctx := Identity(None, None);
      if h.userID != "" {
        var uid := Atoi(h.userID);
        if uid.Some? {
          ctx := ctx.(userID := uid);
        }
      }
      if h.roles != "" {
        var roles := ParseRolesHeader(h.roles);
        if |roles| > 0 {
          ctx := ctx.(roles := Some(roles));
        }
      }
    }

    /** `GetSurveyResponsesHandler`, given what the response query returned. */
    method GetSurveyResponses(idParam: string, h: Headers, fetched: Result<seq<Response>>)
      returns (reply: Reply, ctx: Identity)
      ensures Atoi(idParam).None? ==> reply == Reply(400, ErrorText("Invalid survey_id format"))
      ensures Atoi(idParam).Some? ==> ctx == ReadIdentity(h)
      ensures Atoi(idParam).Some? ==>
        reply == (if fetched.Err? then Reply(500, ErrorText("Failed to get survey responses: " + Message(fetched.error)))
                  else Reply(200, ResponsesBody(fetched.value)))
    {
      ctx := Identity(None, None);
      if Atoi(idParam).None? {
        return Reply(400, ErrorText("Invalid survey_id format")), ctx;
      }
      ctx := ReadContext(h);
      if fetched.Err? {
        return Reply(500, ErrorText("Failed to get survey responses: " + Message(fetched.error))), ctx;
      }
      reply := Reply(200, ResponsesBody(fetched.value));
    }

    /** `ExportSurveyResponsesCSV` of the handler: the wide export, with the
        Authorization header forwarded along with the identity. */
    method ExportSurveyResponsesCSV(idParam: string, h: Headers, authorization: string,
                                    details: Result<SurveyDetails>, fetched: Result<seq<Response>>,
                                    showTime: Time -> string, showNumber: real -> string)
      returns (reply: Reply, ctx: Identity, forwardedAuth: Option<string>)
      ensures reply == ExportReply(idParam, details, fetched, showTime, showNumber)
      ensures Atoi(idParam).Some? ==>
        ctx == ReadIdentity(h) && forwardedAuth == (if authorization != "" then Some(authorization) else None)
    {
      ctx, forwardedAuth := Identity(None, None), None;
      var surveyID := Atoi(idParam);
      if surveyID.None? {
        return Reply(400, ErrorText("Invalid survey_id format")), ctx, forwardedAuth;
      }
      if authorization != "" {
        forwardedAuth := Some(authorization);
      }
      ctx := ReadContext(h);
      var r := ResponseExport.ExportSurveyResponsesCSV(surveyID.value, details, fetched, showTime, showNumber);
      if r.Err? {
        if Contains(Message(r.error), "not found") {
          reply := Reply(404, ErrorText(Message(r.error)));
        } else {
          reply := Reply(500, ErrorText("Failed to export responses: " + Message(r.error)));
        }
        return;
      }
      reply := Reply(200, CsvBody(r.value));
    }

    /** `GetSurveyAnalytics` of the handler. */
    method GetSurveyAnalytics(idParam: string, h: Headers, details: Result<SurveyDetails>, fetched: Result<seq<Response>>)
      returns (reply: Reply, ctx: Identity)
      ensures reply == AnalyticsReply(idParam, details, fetched)
      ensures Atoi(idParam).Some? ==> ctx == ReadIdentity(h)
    {
      ctx := Identity(None, None);
      if Atoi(idParam).None? {
        return Reply(400, ErrorText("Invalid Survey ID format in URL path")), ctx;
      }
      ctx := ReadContext(h);
      var r := ResponseAnalytics.GetSurveyAnalytics(details, fetched);
      if r.Err? {
        if Contains(Message(r.error), "not found") {
          reply := Reply(404, ErrorText("Analytics not found or survey does not exist: " + Message(r.error)));
        } else {
          reply := Reply(500, ErrorText("Failed to get survey analytics: " + Message(r.error)));
        }
        return;
      }
      reply := Reply(200, AnalyticsBody(r.value));
    }
  }
}
