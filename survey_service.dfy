// The survey service: the authorization gate every survey operation goes
// through, the public-read relaxation, and the write paths that run a
// sequence of repository statements inside one transaction.
module SurveyService {

  import opened Common
  import opened GoStrings
  import opened SurveyModels
  import opened RepositoryMock

  // ---------------------------------------------------------- identity

  /** A value stored in the request context; only `int` user IDs and
      `[]string` role lists have the types the service asserts. */
  datatype ContextValue = IntValue(n: int) | StringsValue(items: seq<string>) | OtherValue

  /** The request context: the values under the user-ID and roles keys. */
  datatype Context = Context(userID: Option<ContextValue>, roles: Option<ContextValue>)

  datatype Identity = Identity(userID: int, roles: seq<string>)

  // The two messages are spelled in pieces so that proofs can see the
  // words "not found" inside them.
  const UserIDMissing: Error := Plain("user ID " + "not found" + " or invalid type in context")
  const RolesMissing: Error := Plain("user roles " + "not found" + " or invalid type in context")

  /** Both the user ID and the roles must be present with the right types. */
  function UserAndRoles(ctx: Context): (r: Result<Identity>)
    ensures r.Ok? <==> ctx.userID.Some? && ctx.userID.value.IntValue? && ctx.roles.Some? && ctx.roles.value.StringsValue?
    ensures r.Ok? ==> r.value == Identity(ctx.userID.value.n, ctx.roles.value.items)
    ensures r.Err? ==> r.error == (if ctx.userID.Some? && ctx.userID.value.IntValue? then RolesMissing else UserIDMissing)
  {
    if !(ctx.userID.Some? && ctx.userID.value.IntValue?) then Err(UserIDMissing)
    else if !(ctx.roles.Some? && ctx.roles.value.StringsValue?) then Err(RolesMissing)
    else Ok(Identity(ctx.userID.value.n, ctx.roles.value.items))
  }

  // ------------------------------------------------------------- gate

  datatype Access = Granted(survey: Survey, isUserAdmin: bool) | Denied(err: Error)

  /** The decision `authorizeSurveyAccess` takes, given what the repository
      answered for the survey. */
  function Gate(ctx: Context, fetched: Result<Option<Survey>>): Access
  {
    match UserAndRoles(ctx)
    case Err(e) => Denied(Wrapped("authorization context error: ", e))
    case Ok(who) =>
      if fetched.Err? || fetched.value.None? then Denied(ErrNotFound)
      else if "admin" in who.roles then Granted(fetched.value.value, true)
      else if fetched.value.value.creatorID == who.userID then Granted(fetched.value.value, false)
      else Denied(ErrForbidden)
  }

  /** Access is granted exactly to admins and to the creator of a survey the
      repository returned. */
  lemma GateGrantsAdminsAndOwners(ctx: Context, fetched: Result<Option<Survey>>)
    ensures Gate(ctx, fetched).Granted? <==>
      UserAndRoles(ctx).Ok? && fetched.Ok? && fetched.value.Some? &&
      ("admin" in UserAndRoles(ctx).value.roles || fetched.value.value.creatorID == UserAndRoles(ctx).value.userID)
    ensures Gate(ctx, fetched).Granted? ==>
      Gate(ctx, fetched).survey == fetched.value.value &&
      Gate(ctx, fetched).isUserAdmin == ("admin" in UserAndRoles(ctx).value.roles)
  {
  }

  /** The survey is fetched before the roles are looked at: a missing survey
      or a failing repository is "not found" even for an admin. */
  lemma MissingSurveyIsNotFoundEvenForAdmin(ctx: Context, fetched: Result<Option<Survey>>)
    requires UserAndRoles(ctx).Ok? && "admin" in UserAndRoles(ctx).value.roles
    requires fetched.Err? || fetched == Ok(None)
    ensures Gate(ctx, fetched) == Denied(ErrNotFound)
  {
  }

  /** A found survey that is neither the caller's nor seen by an admin is forbidden. */
  lemma StrangerIsForbidden(ctx: Context, s: Survey)
    requires UserAndRoles(ctx).Ok? && "admin" !in UserAndRoles(ctx).value.roles
    requires s.creatorID != UserAndRoles(ctx).value.userID
    ensures Gate(ctx, Ok(Some(s))) == Denied(ErrForbidden)
  {
  }

  /** A bad identity is an authorization-context error, neither forbidden nor
      not-found, even for the survey's owner when only the roles are missing. */
  lemma ContextErrorIsDistinct(ctx: Context, fetched: Result<Option<Survey>>)
    requires UserAndRoles(ctx).Err?
    ensures Gate(ctx, fetched).Denied?
    ensures !ErrorIs(Gate(ctx, fetched).err, ErrForbidden) && !ErrorIs(Gate(ctx, fetched).err, ErrNotFound)
    ensures ErrorIs(Gate(ctx, fetched).err, UserAndRoles(ctx).error)
  {
  }

  /** Read access: the gate, relaxed for active surveys when it says
      forbidden (the repository is asked a second time). */
  function ReadAccess(ctx: Context, fetched: Result<Option<Survey>>): Result<Survey>
  {
    match Gate(ctx, fetched)
    case Granted(s, _) => Ok(s)
    case Denied(e) =>
      if !ErrorIs(e, ErrForbidden) then Err(e)
      else if fetched.Err? then Err(fetched.error)
      else if fetched.value.None? then Err(ErrNotFound)
      else if fetched.value.value.isActive then Ok(fetched.value.value)
      else Err(e)
  }

  /** A caller with a valid identity reads a survey exactly when it exists and
      they are an admin, its creator, or it is active; an inactive survey of
      someone else stays forbidden. */
  lemma ReadAccessRule(ctx: Context, fetched: Result<Option<Survey>>)
    requires UserAndRoles(ctx).Ok?
    ensures ReadAccess(ctx, fetched).Ok? <==>
      fetched.Ok? && fetched.value.Some? &&
      ("admin" in UserAndRoles(ctx).value.roles ||
       fetched.value.value.creatorID == UserAndRoles(ctx).value.userID ||
       fetched.value.value.isActive)
    ensures ReadAccess(ctx, fetched).Ok? ==> ReadAccess(ctx, fetched).value == fetched.value.value
    ensures ReadAccess(ctx, fetched).Err? ==>
      ReadAccess(ctx, fetched).error == (if fetched.Ok? && fetched.value.Some? then ErrForbidden else ErrNotFound)
  {
  }

  /** Not-found and context errors are never relaxed. */
  lemma ReadAccessKeepsOtherDenials(ctx: Context, fetched: Result<Option<Survey>>)
    requires Gate(ctx, fetched).Denied? && !ErrorIs(Gate(ctx, fetched).err, ErrForbidden)
    ensures ReadAccess(ctx, fetched) == Err(Gate(ctx, fetched).err)
  {
  }

  // ---------------------------------------------- the rewrite, as stores

  /** The question stored for entry `orderNum` of a requested list; the
      entry's own `id` and `orderNum` play no part. */
  function RequestedQuestion(surveyID: int, r: QuestionUpdateRequest, orderNum: int): Question
  {
    Question(0, surveyID, r.text, r.qtype, r.required, orderNum)
  }

  /** The options made from a list of texts, numbered from 1. */
  function TextOptions(texts: seq<string>): (opts: seq<QuestionOption>)
    ensures |opts| == |texts|
    ensures forall j :: 0 <= j < |texts| ==> opts[j] == QuestionOption(0, 0, texts[j], j + 1)
  {
    seq(|texts|, j requires 0 <= j < |texts| => QuestionOption(0, 0, texts[j], j + 1))
  }

  /** Stores the options in list order, each attached to `questionID`. */
  function AddGivenOptions(st: Store, questionID: int, opts: seq<QuestionOption>): Store
  {
    if |opts| == 0 then st
    else AddOption(AddGivenOptions(st, questionID, opts[..|opts| - 1]), opts[|opts| - 1].(questionID := questionID))
  }

  /** Stores each requested question, numbered from 1, followed by its options. */
  function AddRequestedQuestions(st: Store, surveyID: int, reqs: seq<QuestionUpdateRequest>): Store
  {
    if |reqs| == 0 then st
    else
      var prev := AddRequestedQuestions(st, surveyID, reqs[..|reqs| - 1]);
      var r := reqs[|reqs| - 1];
      AddGivenOptions(AddQuestion(prev, RequestedQuestion(surveyID, r, |reqs|)), NextKey(prev.questions), TextOptions(r.options))
  }

  /** The number of options over all requested questions. */
  function OptionCount(reqs: seq<QuestionUpdateRequest>): nat
  {
    if |reqs| == 0 then 0 else OptionCount(reqs[..|reqs| - 1]) + |reqs[|reqs| - 1].options|
  }

  /** The store after `CreateSurvey`: the survey, then its questions. */
  function CreatedStore(st: Store, s: Survey, reqs: seq<QuestionUpdateRequest>): Store
  {
    AddRequestedQuestions(AddSurvey(st, s), NextKey(st.surveys), reqs)
  }

  /** The store after `UpdateSurveyWithQuestions`: the survey record
      replaced, all its questions deleted, the requested ones created. */
  function RewrittenStore(st: Store, s: Survey, reqs: seq<QuestionUpdateRequest>): Store
  {
    AddRequestedQuestions(Cleared(st, s), s.id, reqs)
  }

  /** The store after `AddQuestion`. */
  function AddedQuestionStore(st: Store, req: CreateQuestionRequest): Store
  {
    var q := Question(0, req.surveyID, req.text, req.qtype, req.required, req.orderNum);
    AddGivenOptions(AddQuestion(st, q), NextKey(st.questions), TextOptions(OptionRequestTexts(req.options)))
  }

  function OptionRequestTexts(opts: seq<CreateQuestionOptionRequest>): (texts: seq<string>)
    ensures |texts| == |opts| && forall j :: 0 <= j < |opts| ==> texts[j] == opts[j].text
  {
    seq(|opts|, j requires 0 <= j < |opts| => opts[j].text)
  }

  /** The store after `UpdateQuestion`: the question record replaced, its
      options deleted, the given ones created for it. */
  function QuestionRewriteStore(st: Store, q: Question, opts: seq<QuestionOption>): Store
  {
    AddGivenOptions(OptionsCleared(st, q), q.id, opts)
  }

  // ------------------------------------------- properties of the rewrite

  /** While the option keys are dense, adding options keeps them dense, grows
      them by one key per option and leaves every earlier option in place. */
  lemma {:induction false} AddGivenOptionsGrows(st: Store, questionID: int, opts: seq<QuestionOption>)
    requires Dense(st.options)
    ensures var r := AddGivenOptions(st, questionID, opts);
      r.surveys == st.surveys && r.questions == st.questions &&
      Dense(r.options) && |r.options| == |st.options| + |opts| &&
      (forall k :: k in st.options ==> k in r.options && r.options[k] == st.options[k])
  {
    if |opts| > 0 {
      var n := |opts| - 1;
      AddGivenOptionsGrows(st, questionID, opts[..n]);
      var prev := AddGivenOptions(st, questionID, opts[..n]);
      AddKeepsDense(prev.options, opts[n].(questionID := questionID, id := NextKey(prev.options)));
    }
  }

  /** Option j of the list lands on key `|options| + j + 1`, attached to the question. */
  lemma {:induction false} AddGivenOptionAt(st: Store, questionID: int, opts: seq<QuestionOption>, j: int)
    requires Dense(st.options) && 0 <= j < |opts|
    ensures var r := AddGivenOptions(st, questionID, opts);
      var key := |st.options| + j + 1;
      key in r.options && r.options[key] == opts[j].(id := key, questionID := questionID)
  {
    var n := |opts| - 1;
    AddGivenOptionsGrows(st, questionID, opts[..n]);
    if j < n {
      AddGivenOptionAt(st, questionID, opts[..n], j);
      assert opts[..n][j] == opts[j];
    }
  }

  /** While question and option keys are dense, adding the requested
      questions keeps them dense and grows them by one key per question and
      per option. */
  lemma {:induction false} AddRequestedSizes(st: Store, surveyID: int, reqs: seq<QuestionUpdateRequest>)
    requires Dense(st.questions) && Dense(st.options)
    ensures var r := AddRequestedQuestions(st, surveyID, reqs);
      Dense(r.questions) && |r.questions| == |st.questions| + |reqs| &&
      Dense(r.options) && |r.options| == |st.options| + OptionCount(reqs)
  {
    if |reqs| > 0 {
      var n := |reqs| - 1;
      AddRequestedSizes(st, surveyID, reqs[..n]);
      var prev := AddRequestedQuestions(st, surveyID, reqs[..n]);
      var qid := NextKey(prev.questions);
      AddKeepsDense(prev.questions, RequestedQuestion(surveyID, reqs[n], |reqs|).(id := qid));
      var withQuestion := AddQuestion(prev, RequestedQuestion(surveyID, reqs[n], |reqs|));
      AddGivenOptionsGrows(withQuestion, qid, TextOptions(reqs[n].options));
    }
  }

  /** Entry i of the request becomes question `|questions| + i + 1` of the
      survey, with `OrderNum` i + 1, whatever order number it carried. */
  lemma {:induction false} RequestedQuestionAt(st: Store, surveyID: int, reqs: seq<QuestionUpdateRequest>, i: int)
    requires Dense(st.questions) && Dense(st.options) && 0 <= i < |reqs|
    ensures var r := AddRequestedQuestions(st, surveyID, reqs);
      var key := |st.questions| + i + 1;
      key in r.questions &&
      r.questions[key] == Question(key, surveyID, reqs[i].text, reqs[i].qtype, reqs[i].required, i + 1)
  {
    var n := |reqs| - 1;
    var key := |st.questions| + i + 1;
    var prev := AddRequestedQuestions(st, surveyID, reqs[..n]);
    var qid := NextKey(prev.questions);
    var withQuestion := AddQuestion(prev, RequestedQuestion(surveyID, reqs[n], |reqs|));
    var r := AddRequestedQuestions(st, surveyID, reqs);
    assert r.questions == prev.questions[qid := RequestedQuestion(surveyID, reqs[n], |reqs|).(id := qid)] by {
      AddGivenOptionsKeepsSurveys(withQuestion, qid, TextOptions(reqs[n].options));
    }
    if i < n {
      assert |prev.questions| == |st.questions| + n by {
        AddRequestedSizes(st, surveyID, reqs[..n]);
      }
      RequestedQuestionAt(st, surveyID, reqs[..n], i);
      assert reqs[..n][i] == reqs[i];
    } else {
      assert |prev.questions| == |st.questions| + n by {
        AddRequestedSizes(st, surveyID, reqs[..n]);
      }
    }
  }

  /** One more entry keeps every question and option already stored. */
  lemma AddRequestedStepKeeps(st: Store, surveyID: int, reqs: seq<QuestionUpdateRequest>)
    requires Dense(st.questions) && Dense(st.options) && |reqs| > 0
    ensures var prev := AddRequestedQuestions(st, surveyID, reqs[..|reqs| - 1]);
      var r := AddRequestedQuestions(st, surveyID, reqs);
      (forall k :: k in prev.questions ==> k in r.questions && r.questions[k] == prev.questions[k]) &&
      (forall k :: k in prev.options ==> k in r.options && r.options[k] == prev.options[k])
  {
    var n := |reqs| - 1;
    var prev := AddRequestedQuestions(st, surveyID, reqs[..n]);
    var qid := NextKey(prev.questions);
    var withQuestion := AddQuestion(prev, RequestedQuestion(surveyID, reqs[n], |reqs|));
    AddRequestedSizes(st, surveyID, reqs[..n]);
    AddKeepsDense(prev.questions, RequestedQuestion(surveyID, reqs[n], |reqs|).(id := qid));
    AddGivenOptionsGrows(withQuestion, qid, TextOptions(reqs[n].options));
  }

  /** Later entries keep every question and option stored for earlier ones. */
  lemma {:induction false} AddRequestedPrefixKept(st: Store, surveyID: int, reqs: seq<QuestionUpdateRequest>, m: int)
    requires Dense(st.questions) && Dense(st.options) && 0 <= m <= |reqs|
    ensures var p := AddRequestedQuestions(st, surveyID, reqs[..m]);
      var r := AddRequestedQuestions(st, surveyID, reqs);
      (forall k :: k in p.questions ==> k in r.questions && r.questions[k] == p.questions[k]) &&
      (forall k :: k in p.options ==> k in r.options && r.options[k] == p.options[k])
    decreases |reqs|
  {
    if m == |reqs| {
      assert reqs[..m] == reqs;
    } else {
      var n := |reqs| - 1;
      AddRequestedPrefixKept(st, surveyID, reqs[..n], m);
      assert reqs[..n][..m] == reqs[..m];
      AddRequestedStepKeeps(st, surveyID, reqs);
    }
  }

  /** Adding the requested questions keeps every record already stored. */
  lemma AddRequestedKeepsEarlier(st: Store, surveyID: int, reqs: seq<QuestionUpdateRequest>)
    requires Dense(st.questions) && Dense(st.options)
    ensures var r := AddRequestedQuestions(st, surveyID, reqs);
      |r.questions| == |st.questions| + |reqs| &&
      (forall k :: k in st.questions ==> k in r.questions && r.questions[k] == st.questions[k]) &&
      (forall k :: k in st.options ==> k in r.options && r.options[k] == st.options[k])
  {
    AddRequestedSizes(st, surveyID, reqs);
    AddRequestedPrefixKept(st, surveyID, reqs, 0);
    assert reqs[..0] == [];
    assert AddRequestedQuestions(st, surveyID, reqs[..0]) == st;
  }

  /** The options of the last entry land on the next option keys. */
  lemma LastEntryOptionAt(st: Store, surveyID: int, reqs: seq<QuestionUpdateRequest>, j: int)
    requires Dense(st.questions) && Dense(st.options)
    requires |reqs| > 0 && 0 <= j < |reqs[|reqs| - 1].options|
    ensures var n := |reqs| - 1;
      var r := AddRequestedQuestions(st, surveyID, reqs);
      var key := |st.options| + OptionCount(reqs[..n]) + j + 1;
      key in r.options &&
      r.options[key] == QuestionOption(key, |st.questions| + n + 1, reqs[n].options[j], j + 1)
  {
    var n := |reqs| - 1;
    var prev := AddRequestedQuestions(st, surveyID, reqs[..n]);
    var qid := NextKey(prev.questions);
    var withQuestion := AddQuestion(prev, RequestedQuestion(surveyID, reqs[n], |reqs|));
    AddRequestedSizes(st, surveyID, reqs[..n]);
    AddGivenOptionAt(withQuestion, qid, TextOptions(reqs[n].options), j);
  }

  /** Option j of entry i becomes option `|options| + OptionCount(reqs[..i]) + j + 1`,
      attached to the entry's new question, with `OrderNum` j + 1. */
  lemma RequestedOptionAt(st: Store, surveyID: int, reqs: seq<QuestionUpdateRequest>, i: int, j: int)
    requires Dense(st.questions) && Dense(st.options)
    requires 0 <= i < |reqs| && 0 <= j < |reqs[i].options|
    ensures var r := AddRequestedQuestions(st, surveyID, reqs);
      var key := |st.options| + OptionCount(reqs[..i]) + j + 1;
      key in r.options &&
      r.options[key] == QuestionOption(key, |st.questions| + i + 1, reqs[i].options[j], j + 1)
  {
    var upTo := reqs[..i + 1];
    assert upTo[..i] == reqs[..i] && upTo[i] == reqs[i];
    LastEntryOptionAt(st, surveyID, upTo, j);
    AddRequestedPrefixKept(st, surveyID, reqs, i + 1);
  }

  /** Earlier entries issue no more statements than the whole list. */
  lemma {:induction false} OptionCountPrefix(reqs: seq<QuestionUpdateRequest>, i: int)
    requires 0 <= i <= |reqs|
    ensures OptionCount(reqs[..i]) <= OptionCount(reqs)
    decreases |reqs|
  {
    if i < |reqs| {
      var n := |reqs| - 1;
      OptionCountPrefix(reqs[..n], i);
      assert reqs[..n][..i] == reqs[..i];
    } else {
      assert reqs[..i] == reqs;
    }
  }

  /** The request's question `id` and `orderNum` fields change nothing. */
  lemma {:induction false} RequestIdsIgnored(st: Store, surveyID: int, reqs: seq<QuestionUpdateRequest>, other: seq<QuestionUpdateRequest>)
    requires |reqs| == |other|
    requires forall i :: 0 <= i < |reqs| ==> reqs[i].(id := None, orderNum := 0) == other[i].(id := None, orderNum := 0)
    ensures AddRequestedQuestions(st, surveyID, reqs) == AddRequestedQuestions(st, surveyID, other)
  {
    if |reqs| > 0 {
      var n := |reqs| - 1;
      RequestIdsIgnored(st, surveyID, reqs[..n], other[..n]);
      assert reqs[n].(id := None, orderNum := 0) == other[n].(id := None, orderNum := 0);
      assert reqs[n].text == other[n].text && reqs[n].options == other[n].options;
    }
  }

  /** Adding questions and options never touches the surveys. */
  lemma {:induction false} AddRequestedKeepsSurveys(st: Store, surveyID: int, reqs: seq<QuestionUpdateRequest>)
    ensures AddRequestedQuestions(st, surveyID, reqs).surveys == st.surveys
  {
    if |reqs| > 0 {
      AddRequestedKeepsSurveys(st, surveyID, reqs[..|reqs| - 1]);
      var prev := AddRequestedQuestions(st, surveyID, reqs[..|reqs| - 1]);
      var r := reqs[|reqs| - 1];
      AddGivenOptionsKeepsSurveys(AddQuestion(prev, RequestedQuestion(surveyID, r, |reqs|)), NextKey(prev.questions), TextOptions(r.options));
    }
  }

  lemma {:induction false} AddGivenOptionsKeepsSurveys(st: Store, questionID: int, opts: seq<QuestionOption>)
    ensures var r := AddGivenOptions(st, questionID, opts); r.surveys == st.surveys && r.questions == st.questions
  {
    if |opts| > 0 {
      AddGivenOptionsKeepsSurveys(st, questionID, opts[..|opts| - 1]);
    }
  }

  /** After a rewrite the survey keeps its creator, whatever the request said,
      and no other survey changes. */
  lemma RewriteKeepsCreator(st: Store, existing: Survey, requested: Survey, reqs: seq<QuestionUpdateRequest>)
    requires requested.id in st.surveys && st.surveys[requested.id] == existing
    ensures var s := requested.(creatorID := existing.creatorID);
      RewrittenStore(st, s, reqs).surveys == st.surveys[requested.id := s] &&
      RewrittenStore(st, s, reqs).surveys[requested.id].creatorID == existing.creatorID
  {
    var s := requested.(creatorID := existing.creatorID);
    AddRequestedKeepsSurveys(Cleared(st, s), s.id, reqs);
  }

  /** Added to a store holding no question of the survey, the requested
      questions are exactly the survey's questions afterwards. */
  lemma RequestedAreTheSurveysQuestions(st: Store, surveyID: int, reqs: seq<QuestionUpdateRequest>)
    requires Dense(st.questions) && Dense(st.options)
    requires forall k :: k in st.questions ==> st.questions[k].surveyID != surveyID
    ensures var r := AddRequestedQuestions(st, surveyID, reqs);
      |r.questions| == |st.questions| + |reqs| &&
      forall k :: k in r.questions && r.questions[k].surveyID == surveyID <==>
        |st.questions| < k <= |st.questions| + |reqs|
  {
    var r := AddRequestedQuestions(st, surveyID, reqs);
    var b := |st.questions|;
    assert Dense(r.questions) && |r.questions| == b + |reqs| by {
      AddRequestedSizes(st, surveyID, reqs);
    }
    AddRequestedKeepsEarlier(st, surveyID, reqs);
    forall k
      ensures k in r.questions && r.questions[k].surveyID == surveyID <==> b < k <= b + |reqs|
    {
      if b < k <= b + |reqs| {
        RequestedQuestionAt(st, surveyID, reqs, k - b - 1);
      } else if k in r.questions {
        assert k in st.questions;
      }
    }
  }

  /** The store a rewrite adds the requested questions to. */
  function Cleared(st: Store, s: Survey): Store
  {
    ReplaceSurvey(st, s).(questions := QuestionsWithout(st.questions, s.id))
  }

  /** After a rewrite (keys dense once the survey's questions are deleted),
      the survey's questions are exactly the n requested ones: no earlier
      question of the survey is left. */
  lemma RewriteLeavesOnlyRequested(st: Store, s: Survey, reqs: seq<QuestionUpdateRequest>)
    requires Dense(QuestionsWithout(st.questions, s.id)) && Dense(st.options)
    ensures var r := RewrittenStore(st, s, reqs);
      var b := |QuestionsWithout(st.questions, s.id)|;
      |r.questions| == b + |reqs| &&
      forall k :: k in r.questions && r.questions[k].surveyID == s.id <==> b < k <= b + |reqs|
  {
    var cleared := Cleared(st, s);
    var r := RewrittenStore(st, s, reqs);
    var b := |QuestionsWithout(st.questions, s.id)|;
    assert ReplaceSurvey(st, s).options == st.options;
    assert r == AddRequestedQuestions(cleared, s.id, reqs);
    assert |cleared.questions| == b;
    RequestedAreTheSurveysQuestions(cleared, s.id, reqs);
    assert forall k :: k in r.questions && r.questions[k].surveyID == s.id <==> b < k <= b + |reqs|;
  }

  /** While the keys left after the delete are dense, the requested
      questions follow in request order, with `OrderNum` 1..n. */
  lemma RewritePlacesRequested(st: Store, s: Survey, reqs: seq<QuestionUpdateRequest>, i: int)
    requires Dense(QuestionsWithout(st.questions, s.id)) && Dense(st.options)
    requires 0 <= i < |reqs|
    ensures var r := RewrittenStore(st, s, reqs);
      var key := |QuestionsWithout(st.questions, s.id)| + i + 1;
      key in r.questions &&
      r.questions[key] == Question(key, s.id, reqs[i].text, reqs[i].qtype, reqs[i].required, i + 1)
  {
    assert ReplaceSurvey(st, s).options == st.options;
    RequestedQuestionAt(Cleared(st, s), s.id, reqs, i);
  }

  /** While the keys left after the delete are dense, a rewrite leaves the
      questions of other surveys untouched (`RewriteOverwritesLaterSurvey`
      shows what happens otherwise). */
  lemma RewriteKeepsOtherSurveys(st: Store, s: Survey, reqs: seq<QuestionUpdateRequest>)
    requires Dense(QuestionsWithout(st.questions, s.id)) && Dense(st.options)
    ensures var r := RewrittenStore(st, s, reqs);
      |r.questions| == |QuestionsWithout(st.questions, s.id)| + |reqs| &&
      forall k :: k in st.questions && st.questions[k].surveyID != s.id ==>
        k in r.questions && r.questions[k] == st.questions[k]
  {
    assert ReplaceSurvey(st, s).options == st.options;
    AddRequestedKeepsEarlier(Cleared(st, s), s.id, reqs);
  }

  /** Added to a store holding no option of the question, the given options
      are exactly the question's options afterwards. */
  lemma GivenAreTheQuestionsOptions(st: Store, questionID: int, opts: seq<QuestionOption>)
    requires Dense(st.options)
    requires forall k :: k in st.options ==> st.options[k].questionID != questionID
    ensures var r := AddGivenOptions(st, questionID, opts);
      |r.options| == |st.options| + |opts| &&
      forall k :: k in r.options && r.options[k].questionID == questionID <==>
        |st.options| < k <= |st.options| + |opts|
  {
    var r := AddGivenOptions(st, questionID, opts);
    var b := |st.options|;
    AddGivenOptionsGrows(st, questionID, opts);
    forall k
      ensures k in r.options && r.options[k].questionID == questionID <==> b < k <= b + |opts|
    {
      if b < k <= b + |opts| {
        AddGivenOptionAt(st, questionID, opts, k - b - 1);
      } else if k in r.options {
        assert k in st.options;
      }
    }
  }

  /** The store `UpdateQuestion` adds the given options to. */
  function OptionsCleared(st: Store, q: Question): Store
  {
    ReplaceQuestion(st, q).(options := OptionsWithout(st.options, q.id))
  }

  /** While the option keys are dense, `UpdateQuestion` leaves the question
      with exactly the given options: none of its earlier options is left. */
  lemma QuestionRewriteLeavesOnlyGiven(st: Store, q: Question, opts: seq<QuestionOption>)
    requires Dense(OptionsWithout(st.options, q.id))
    ensures var r := QuestionRewriteStore(st, q, opts);
      var b := |OptionsWithout(st.options, q.id)|;
      |r.options| == b + |opts| &&
      forall k :: k in r.options && r.options[k].questionID == q.id <==> b < k <= b + |opts|
  {
    var cleared := OptionsCleared(st, q);
    var r := QuestionRewriteStore(st, q, opts);
    var b := |OptionsWithout(st.options, q.id)|;
    assert r == AddGivenOptions(cleared, q.id, opts);
    assert |cleared.options| == b;
    GivenAreTheQuestionsOptions(cleared, q.id, opts);
    assert forall k :: k in r.options && r.options[k].questionID == q.id <==> b < k <= b + |opts|;
  }

  /** While the option keys left after the delete are dense, the given
      options follow in list order, each attached to the question. */
  lemma QuestionRewritePlacesGiven(st: Store, q: Question, opts: seq<QuestionOption>, j: int)
    requires Dense(OptionsWithout(st.options, q.id)) && 0 <= j < |opts|
    ensures var r := QuestionRewriteStore(st, q, opts);
      var key := |OptionsWithout(st.options, q.id)| + j + 1;
      key in r.options && r.options[key] == opts[j].(id := key, questionID := q.id)
  {
    AddGivenOptionAt(OptionsCleared(st, q), q.id, opts, j);
  }

  /** While the option keys left after the delete are dense, `UpdateQuestion`
      leaves the options of other questions untouched
      (`QuestionRewriteOverwritesLaterOptions` shows what happens otherwise). */
  lemma QuestionRewriteKeepsOtherOptions(st: Store, q: Question, opts: seq<QuestionOption>)
    requires Dense(OptionsWithout(st.options, q.id))
    ensures var r := QuestionRewriteStore(st, q, opts);
      |r.options| == |OptionsWithout(st.options, q.id)| + |opts| &&
      forall k :: k in st.options && st.options[k].questionID != q.id ==>
        k in r.options && r.options[k] == st.options[k]
  {
    AddGivenOptionsGrows(OptionsCleared(st, q), q.id, opts);
  }

  /** Without dense keys a rewrite destroys another survey's question: with
      question 1 in survey 1 and question 2 in survey 2, rewriting survey 1
      deletes question 1, and the `len+1` rule then stores the new question
      under key 2, over survey 2's question. */
  lemma RewriteOverwritesLaterSurvey()
    ensures var st := Store(
        map[1 := Survey(1, 10, "first", "", true, 0, 0), 2 := Survey(2, 10, "second", "", true, 0, 0)],
        map[1 := Question(1, 1, "a", "text", false, 1), 2 := Question(2, 2, "b", "text", false, 1)],
        map[]);
      var r := RewrittenStore(st, st.surveys[1], [QuestionUpdateRequest(None, "c", "text", false, 1, [])]);
      !Dense(QuestionsWithout(st.questions, 1)) &&
      r.questions == map[2 := Question(2, 1, "c", "text", false, 1)]
  {
    var st := Store(
      map[1 := Survey(1, 10, "first", "", true, 0, 0), 2 := Survey(2, 10, "second", "", true, 0, 0)],
      map[1 := Question(1, 1, "a", "text", false, 1), 2 := Question(2, 2, "b", "text", false, 1)],
      map[]);
    assert QuestionsWithout(st.questions, 1) == map[2 := st.questions[2]];
  }

  /** The same for options: question 1 with option 1 and question 2 with
      option 2; rewriting question 1 deletes option 1 and stores the new
      option under key 2, over question 2's option. */
  lemma QuestionRewriteOverwritesLaterOptions()
    ensures var st := Store(
        map[1 := Survey(1, 10, "first", "", true, 0, 0)],
        map[1 := Question(1, 1, "a", "single_choice", false, 1), 2 := Question(2, 1, "b", "single_choice", false, 2)],
        map[1 := QuestionOption(1, 1, "x", 1), 2 := QuestionOption(2, 2, "y", 1)]);
      var r := QuestionRewriteStore(st, st.questions[1], [QuestionOption(0, 0, "z", 1)]);
      !Dense(OptionsWithout(st.options, 1)) &&
      r.options == map[2 := QuestionOption(2, 1, "z", 1)]
  {
    var st := Store(
      map[1 := Survey(1, 10, "first", "", true, 0, 0)],
      map[1 := Question(1, 1, "a", "single_choice", false, 1), 2 := Question(2, 1, "b", "single_choice", false, 2)],
      map[1 := QuestionOption(1, 1, "x", 1), 2 := QuestionOption(2, 2, "y", 1)]);
    assert OptionsWithout(st.options, 1) == map[2 := st.options[2]];
  }

  // ------------------------------------------- who may move a question

  /** As written, `UpdateQuestion` lets the owner of survey 2 take question 1
      out of survey 1, which they may not edit, and delete its options: the
      gate looks only at the survey the request names. */
  lemma UpdateQuestionCrossesSurveys()
    ensures var st := Store(
        map[1 := Survey(1, 10, "theirs", "", true, 0, 0), 2 := Survey(2, 20, "mine", "", true, 0, 0)],
        map[1 := Question(1, 1, "q", "text", false, 1)],
        map[1 := QuestionOption(1, 1, "o", 1)]);
      var ctx := Context(Some(IntValue(20)), Some(StringsValue([])));
      var forged := Question(1, 2, "q", "text", false, 1);
      var r := QuestionRewriteStore(st, forged, []);
      Gate(ctx, Ok(Some(st.surveys[2]))).Granted? &&
      Gate(ctx, Ok(Some(st.surveys[1]))) == Denied(ErrForbidden) &&
      1 in r.questions && r.questions[1].surveyID == 2 && r.options == map[]
  {
    var st := Store(
      map[1 := Survey(1, 10, "theirs", "", true, 0, 0), 2 := Survey(2, 20, "mine", "", true, 0, 0)],
      map[1 := Question(1, 1, "q", "text", false, 1)],
      map[1 := QuestionOption(1, 1, "o", 1)]);
    var forged := Question(1, 2, "q", "text", false, 1);
    var cleared := OptionsCleared(st, forged);
    assert 1 !in cleared.options;
    assert cleared.options == map[];
  }

  /** With the corrected check no question ever changes survey: the rewrite
      keeps every stored question under the survey it belonged to. */
  lemma CheckedRewriteKeepsOwners(st: Store, q: Question, opts: seq<QuestionOption>)
    requires q.id in st.questions
    ensures var r := QuestionRewriteStore(st, q.(surveyID := st.questions[q.id].surveyID), opts);
      r.questions.Keys == st.questions.Keys &&
      forall k :: k in st.questions ==> r.questions[k].surveyID == st.questions[k].surveyID
  {
    var kept := q.(surveyID := st.questions[q.id].surveyID);
    AddGivenOptionsKeepsSurveys(OptionsCleared(st, kept), q.id, opts);
  }

  // ------------------------------------------------------ transactions

  /** The database rejects one of `count` statements starting at `from`. */
  predicate FailsWithin(fault: Option<Fault>, from: nat, count: nat)
  {
    fault.Some? && from <= fault.value.at < from + count
  }

  /** What a transaction of `n` statements before its COMMIT leaves behind:
      a rejected statement rolls everything back and is reported; a rejected
      COMMIT also rolls back but is not reported; otherwise `done` is stored. */
  predicate TxOutcome(fault: Option<Fault>, n: nat, err: Option<Error>, before: Store, after: Store, done: Store)
  {
    (FailsWithin(fault, 0, n) ==> err.Some? && ErrorIs(err.value, fault.value.err) && after == before) &&
    (!FailsWithin(fault, 0, n) ==> err == None && after == (if RejectsAt(fault, n) then before else done))
  }

  /** The statements the question loop issues: one per question and one per option. */
  function Statements(reqs: seq<QuestionUpdateRequest>): nat
  {
    |reqs| + OptionCount(reqs)
  }

  /** How the create and update paths word a failed insert. */
  datatype Wording = ForCreate | ForUpdate

  function QuestionFailure(w: Wording): string
  {
    match w
    case ForCreate => "failed to create new question in transaction: "
    case ForUpdate => "failed to create question in transaction: "
  }

  function OptionFailure(w: Wording, questionID: int): string
  {
    match w
    case ForCreate => "failed to create option for new question ID " + Itoa(questionID) + ": "
    case ForUpdate => "failed to create option: "
  }

  // ------------------------------------------------------------ service

  class SurveyService {
    const repo: MockRepository

    constructor (repo: MockRepository)
      ensures this.repo == repo
    {
      this.repo := repo;
    }

    /** `containsString`: a linear scan. */
    static method ContainsString(items: seq<string>, s: string) returns (found: bool)
      ensures found <==> s in items
    {
      var i := 0;
      while i < |items|
        invariant 0 <= i <= |items|
        invariant s !in items[..i]
      {
        if items[i] == s {
          return true;
        }
        assert items[..i + 1] == items[..i] + [items[i]];
        i := i + 1;
      }
      assert items[..i] == items;
      return false;
    }

    /** `authorizeSurveyAccess`. */
    method Authorize(ctx: Context, surveyID: int) returns (a: Access)
      ensures a == Gate(ctx, repo.GetSurvey(surveyID))
    {
      var who := UserAndRoles(ctx);
      if who.Err? {
        return Denied(Wrapped("authorization context error: ", who.error));
      }
      var isUserAdmin := ContainsString(who.value.roles, "admin");
      var fetched := repo.GetSurvey(surveyID);
      if fetched.Err? {
        return Denied(ErrNotFound);
      }
      if fetched.value.None? {
        return Denied(ErrNotFound);
      }
      var survey := fetched.value.value;
      if isUserAdmin {
        return Granted(survey, true);
      }
      if survey.creatorID == who.value.userID {
        return Granted(survey, false);
      }
      return Denied(ErrForbidden);
    }

    method GetSurvey(ctx: Context, id: int) returns (r: Result<Survey>)
      ensures r == ReadAccess(ctx, repo.GetSurvey(id))
    {
      var access := Authorize(ctx, id);
      if access.Granted? {
        return Ok(access.survey);
      }
      if ErrorIs(access.err, ErrForbidden) {
        var publicFetch := repo.GetSurvey(id);
        if publicFetch.Ok? && publicFetch.value.Some? && publicFetch.value.value.isActive {
          return Ok(publicFetch.value.value);
        }
        r := match publicFetch
          case Err(publicErr) => Err(publicErr)
          case Ok(None) => Err(ErrNotFound)
          case Ok(Some(_)) => Err(access.err);
        return;
      }
      return Err(access.err);
    }

    /** The deprecated update: the gate, then the record replaced as sent. */
    method UpdateSurvey(ctx: Context, survey: Survey) returns (err: Option<Error>)
      modifies repo
      ensures repo.errorMock == old(repo.errorMock)
      ensures Gate(ctx, old(repo.GetSurvey(survey.id))).Denied? ==>
        err == Some(Gate(ctx, old(repo.GetSurvey(survey.id))).err) && repo.State() == old(repo.State())
      ensures Gate(ctx, old(repo.GetSurvey(survey.id))).Granted? ==>
        err == None && repo.State() == ReplaceSurvey(old(repo.State()), survey)
    {
      var access := Authorize(ctx, survey.id);
      if access.Denied? {
        return Some(access.err);
      }
      err := repo.UpdateSurvey(survey);
    }

    method DeleteSurvey(ctx: Context, id: int) returns (err: Option<Error>)
      modifies repo
      ensures repo.errorMock == old(repo.errorMock)
      ensures Gate(ctx, old(repo.GetSurvey(id))).Denied? ==>
        err == Some(Gate(ctx, old(repo.GetSurvey(id))).err) && repo.State() == old(repo.State())
      ensures Gate(ctx, old(repo.GetSurvey(id))).Granted? ==>
        err == None && repo.State() == old(repo.State()).(surveys := old(repo.surveys) - {id})
    {
      var access := Authorize(ctx, id);
      if access.Denied? {
        return Some(access.err);
      }
      err := repo.DeleteSurvey(id);
    }

    method UpdateSurveyStatus(ctx: Context, id: int, isActive: bool) returns (err: Option<Error>)
      modifies repo
      ensures repo.errorMock == old(repo.errorMock)
      ensures Gate(ctx, old(repo.GetSurvey(id))).Denied? ==>
        err == Some(Gate(ctx, old(repo.GetSurvey(id))).err) && repo.State() == old(repo.State())
      ensures Gate(ctx, old(repo.GetSurvey(id))).Granted? ==>
        err == None && repo.State() == SetActive(old(repo.State()), id, isActive)
    {
      var access := Authorize(ctx, id);
      if access.Denied? {
        return Some(access.err);
      }
      err := repo.UpdateSurveyStatus(id, isActive);
    }

    /** Inserts the options in list order inside the transaction; `prefix`
        words the error of a failed insert. */
    method CreateOptions(tx: Tx, questionID: int, opts: seq<QuestionOption>, prefix: string) returns (err: Option<Error>)
      requires repo.errorMock.None?
      modifies repo, tx
      ensures repo.errorMock.None?
      ensures err.Some? <==> FailsWithin(tx.fault, old(tx.issued), |opts|)
      ensures err.Some? ==> ErrorIs(err.value, tx.fault.value.err)
      ensures err.None? ==>
        tx.issued == old(tx.issued) + |opts| &&
        repo.State() == AddGivenOptions(old(repo.State()), questionID, opts)
    {
      var j := 0;
      while j < |opts|
        invariant 0 <= j <= |opts|
        invariant repo.errorMock.None?
        invariant tx.issued == old(tx.issued) + j
        invariant !FailsWithin(tx.fault, old(tx.issued), j)
        invariant repo.State() == AddGivenOptions(old(repo.State()), questionID, opts[..j])
      {
        assert opts[..j + 1][..j] == opts[..j];
        var created := repo.CreateQuestionOptionTx(tx, opts[j].(questionID := questionID));
        if created.Err? {
          return Some(Wrapped(prefix, created.error));
        }
        j := j + 1;
      }
      assert opts[..|opts|] == opts;
      return None;
    }

    /** The question loop shared by the create and update paths. */
    method CreateRequested(tx: Tx, surveyID: int, reqs: seq<QuestionUpdateRequest>, w: Wording) returns (err: Option<Error>)
      requires repo.errorMock.None?
      modifies repo, tx
      ensures repo.errorMock.None?
      ensures err.Some? <==> FailsWithin(tx.fault, old(tx.issued), Statements(reqs))
      ensures err.Some? ==> ErrorIs(err.value, tx.fault.value.err)
      ensures err.None? ==>
        tx.issued == old(tx.issued) + Statements(reqs) &&
        repo.State() == AddRequestedQuestions(old(repo.State()), surveyID, reqs)
    {
      var i := 0;
      while i < |reqs|
        invariant 0 <= i <= |reqs|
        invariant repo.errorMock.None?
        invariant tx.issued == old(tx.issued) + Statements(reqs[..i])
        invariant !FailsWithin(tx.fault, old(tx.issued), Statements(reqs[..i]))
        invariant repo.State() == AddRequestedQuestions(old(repo.State()), surveyID, reqs[..i])
      {
        assert reqs[..i + 1][..i] == reqs[..i];
        OptionCountPrefix(reqs, i + 1);
        var before := repo.State();
        var created := repo.CreateQuestionTx(tx, RequestedQuestion(surveyID, reqs[i], i + 1));
        if created.Err? {
          return Some(Wrapped(QuestionFailure(w), created.error));
        }
        var questionID := created.value;
        assert questionID == NextKey(before.questions);
        err := CreateOptions(tx, questionID, TextOptions(reqs[i].options), OptionFailure(w, questionID));
        if err.Some? {
          return;
        }
        i := i + 1;
      }
      assert reqs[..|reqs|] == reqs;
      return None;
    }

    /** Creates a survey owned by the caller, with its questions and options,
        in one transaction. A refused COMMIT is not reported. */
    method CreateSurvey(ctx: Context, survey: Survey, reqs: seq<QuestionUpdateRequest>, fault: Option<Fault>)
      returns (surveyID: int, err: Option<Error>)
      modifies repo
      ensures repo.errorMock == old(repo.errorMock)
      ensures UserAndRoles(ctx).Err? ==>
        surveyID == 0 && err == Some(Wrapped("CreateSurvey: ", UserAndRoles(ctx).error)) &&
        repo.State() == old(repo.State())
      ensures UserAndRoles(ctx).Ok? && old(repo.errorMock).Some? ==>
        surveyID == 0 && err == Some(Wrapped("failed to begin transaction: ", old(repo.errorMock).value)) &&
        repo.State() == old(repo.State())
      ensures UserAndRoles(ctx).Ok? && old(repo.errorMock).None? ==>
        var n := 2 + Statements(reqs);
        surveyID == (if FailsWithin(fault, 0, n) then 0 else |old(repo.surveys)| + 1) &&
        TxOutcome(fault, n, err, old(repo.State()), repo.State(),
                  CreatedStore(old(repo.State()), survey.(creatorID := UserAndRoles(ctx).value.userID), reqs))
    {
      var who := UserAndRoles(ctx);
      if who.Err? {
        return 0, Some(Wrapped("CreateSurvey: ", who.error));
      }
      var owned := survey.(creatorID := who.value.userID);
      var begun := repo.BeginTx(fault);
      if begun.Err? {
        return 0, Some(Wrapped("failed to begin transaction: ", begun.error));
      }
      var tx := begun.value;
      var created := repo.CreateSurveyTx(tx, owned);
      if created.Err? {
        tx.Rollback(repo);
        return 0, Some(Wrapped("failed to create survey entry in transaction: ", created.error));
      }
      surveyID := created.value;
      err := CreateRequested(tx, surveyID, reqs, ForCreate);
      if err.Some? {
        tx.Rollback(repo);
        return 0, err;
      }
      var commitErr := tx.Commit(repo);
    }

    /** Replaces the survey record (keeping its creator), deletes all its
        questions and creates the requested ones, in one transaction. */
    method UpdateSurveyWithQuestions(ctx: Context, survey: Survey, reqs: seq<QuestionUpdateRequest>, fault: Option<Fault>)
      returns (err: Option<Error>)
      modifies repo
      ensures repo.errorMock == old(repo.errorMock)
      ensures Gate(ctx, old(repo.GetSurvey(survey.id))).Denied? ==>
        err == Some(Gate(ctx, old(repo.GetSurvey(survey.id))).err) && repo.State() == old(repo.State())
      ensures Gate(ctx, old(repo.GetSurvey(survey.id))).Granted? ==>
        var existing := Gate(ctx, old(repo.GetSurvey(survey.id))).survey;
        TxOutcome(fault, 3 + Statements(reqs), err, old(repo.State()), repo.State(),
                  RewrittenStore(old(repo.State()), survey.(creatorID := existing.creatorID), reqs))
    {
      var access := Authorize(ctx, survey.id);
      if access.Denied? {
        return Some(access.err);
      }
      var toStore := survey.(creatorID := access.survey.creatorID);
      var begun := repo.BeginTx(fault);
      if begun.Err? {
        return Some(Wrapped("failed to begin transaction: ", begun.error));
      }
      var tx := begun.value;
      err := repo.UpdateSurveyTx(tx, toStore);
      if err.Some? {
        tx.Rollback(repo);
        return Some(Wrapped("failed to update survey entry in transaction: ", err.value));
      }
      err := repo.DeleteQuestionsBySurveyIDTx(tx, toStore.id);
      if err.Some? {
        tx.Rollback(repo);
        return Some(Wrapped("failed to delete existing questions: ", err.value));
      }
      err := CreateRequested(tx, toStore.id, reqs, ForUpdate);
      if err.Some? {
        tx.Rollback(repo);
        return;
      }
      var commitErr := tx.Commit(repo);
    }

    /** Adds one question with its options to a survey the caller may edit. */
    method AddQuestion(ctx: Context, req: CreateQuestionRequest, fault: Option<Fault>)
      returns (questionID: int, err: Option<Error>)
      modifies repo
      ensures repo.errorMock == old(repo.errorMock)
      ensures Gate(ctx, old(repo.GetSurvey(req.surveyID))).Denied? ==>
        questionID == 0 &&
        err == Some(Wrapped("AddQuestion: not authorized for survey " + Itoa(req.surveyID) + ": ",
                            Gate(ctx, old(repo.GetSurvey(req.surveyID))).err)) &&
        repo.State() == old(repo.State())
      ensures Gate(ctx, old(repo.GetSurvey(req.surveyID))).Granted? ==>
        var n := 2 + |req.options|;
        questionID == (if FailsWithin(fault, 0, n) then 0 else |old(repo.questions)| + 1) &&
        TxOutcome(fault, n, err, old(repo.State()), repo.State(), AddedQuestionStore(old(repo.State()), req))
    {
      var access := Authorize(ctx, req.surveyID);
      if access.Denied? {
        return 0, Some(Wrapped("AddQuestion: not authorized for survey " + Itoa(req.surveyID) + ": ", access.err));
      }
      var question := Question(0, req.surveyID, req.text, req.qtype, req.required, req.orderNum);
      var begun := repo.BeginTx(fault);
      if begun.Err? {
        return 0, Some(Wrapped("failed to begin transaction: ", begun.error));
      }
      var tx := begun.value;
      var created := repo.CreateQuestionTx(tx, question);
      if created.Err? {
        tx.Rollback(repo);
        return 0, Some(Wrapped("failed to create question: ", created.error));
      }
      questionID := created.value;
      err := CreateOptions(tx, questionID, TextOptions(OptionRequestTexts(req.options)), "failed to create question option: ");
      if err.Some? {
        tx.Rollback(repo);
        return 0, err;
      }
      var commitErr := tx.Commit(repo);
    }

    /** The transaction of `UpdateQuestion`: the question record replaced, its
        options deleted and the given ones created for it. */
    method RewriteQuestion(q: Question, opts: seq<QuestionOption>, fault: Option<Fault>) returns (err: Option<Error>)
      requires repo.errorMock.None?
      modifies repo
      ensures repo.errorMock.None?
      ensures TxOutcome(fault, 3 + |opts|, err, old(repo.State()), repo.State(), QuestionRewriteStore(old(repo.State()), q, opts))
    {
      var begun := repo.BeginTx(fault);
      if begun.Err? {
        return Some(Wrapped("failed to begin transaction: ", begun.error));
      }
      var tx := begun.value;
      err := repo.UpdateQuestionTx(tx, q);
      if err.Some? {
        tx.Rollback(repo);
        return Some(Wrapped("failed to update question: ", err.value));
      }
      err := repo.DeleteQuestionOptionsTx(tx, q.id);
      if err.Some? {
        tx.Rollback(repo);
        return Some(Wrapped("failed to delete existing options: ", err.value));
      }
      err := CreateOptions(tx, q.id, opts, "failed to create option: ");
      if err.Some? {
        tx.Rollback(repo);
        return;
      }
      var commitErr := tx.Commit(repo);
    }

    /** Replaces a question record and all its options, as written: the
        caller is authorized against the survey the request names, not the
        one the stored question belongs to. */
    method UpdateQuestion(ctx: Context, question: Option<Question>, opts: seq<QuestionOption>, fault: Option<Fault>)
      returns (err: Option<Error>)
      modifies repo
      ensures repo.errorMock == old(repo.errorMock)
      ensures question.None? ==>
        err == Some(Plain("question data cannot be nil")) && repo.State() == old(repo.State())
      ensures question.Some? && Gate(ctx, old(repo.GetSurvey(question.value.surveyID))).Denied? ==>
        err == Some(Wrapped("UpdateQuestion: not authorized for survey " + Itoa(question.value.surveyID) + ": ",
                            Gate(ctx, old(repo.GetSurvey(question.value.surveyID))).err)) &&
        repo.State() == old(repo.State())
      ensures question.Some? && Gate(ctx, old(repo.GetSurvey(question.value.surveyID))).Granted? ==>
        TxOutcome(fault, 3 + |opts|, err, old(repo.State()), repo.State(),
                  QuestionRewriteStore(old(repo.State()), question.value, opts))
    {
      if question.None? {
        return Some(Plain("question data cannot be nil"));
      }
      var q := question.value;
      var access := Authorize(ctx, q.surveyID);
      if access.Denied? {
        return Some(Wrapped("UpdateQuestion: not authorized for survey " + Itoa(q.surveyID) + ": ", access.err));
      }
      err := RewriteQuestion(q, opts, fault);
    }

    /** `UpdateQuestion` as evidently intended: the stored question is fetched
        first, as `DeleteQuestion` does, the caller is authorized against the
        survey it belongs to, and it stays in that survey. */
    method UpdateQuestionChecked(ctx: Context, question: Option<Question>, opts: seq<QuestionOption>, fault: Option<Fault>)
      returns (err: Option<Error>)
      modifies repo
      ensures repo.errorMock == old(repo.errorMock)
      ensures question.None? ==>
        err == Some(Plain("question data cannot be nil")) && repo.State() == old(repo.State())
      ensures question.Some? && old(repo.GetQuestionByID(question.value.id)).Err? ==>
        err == Some(Wrapped("failed to get question " + Itoa(question.value.id) + ": ",
                            old(repo.GetQuestionByID(question.value.id)).error)) &&
        repo.State() == old(repo.State())
      ensures question.Some? && old(repo.GetQuestionByID(question.value.id)) == Ok(None) ==>
        err == Some(ErrNotFound) && repo.State() == old(repo.State())
      ensures question.Some? && old(repo.GetQuestionByID(question.value.id)).Ok? &&
              old(repo.GetQuestionByID(question.value.id)).value.Some? ==>
        var owner := old(repo.questions)[question.value.id].surveyID;
        (Gate(ctx, old(repo.GetSurvey(owner))).Denied? ==>
          err == Some(Wrapped("UpdateQuestion: not authorized for survey " + Itoa(owner) + ": ",
                              Gate(ctx, old(repo.GetSurvey(owner))).err)) &&
          repo.State() == old(repo.State())) &&
        (Gate(ctx, old(repo.GetSurvey(owner))).Granted? ==>
          TxOutcome(fault, 3 + |opts|, err, old(repo.State()), repo.State(),
                    QuestionRewriteStore(old(repo.State()), question.value.(surveyID := owner), opts)))
    {
      if question.None? {
        return Some(Plain("question data cannot be nil"));
      }
      var q := question.value;
      var fetched := repo.GetQuestionByID(q.id);
      if fetched.Err? {
        return Some(Wrapped("failed to get question " + Itoa(q.id) + ": ", fetched.error));
      }
      if fetched.value.None? {
        return Some(ErrNotFound);
      }
      var owner := fetched.value.value.surveyID;
      var access := Authorize(ctx, owner);
      if access.Denied? {
        return Some(Wrapped("UpdateQuestion: not authorized for survey " + Itoa(owner) + ": ", access.err));
      }
      err := RewriteQuestion(q.(surveyID := owner), opts, fault);
    }

    /** Deletes a question after authorizing against the survey it is stored under. */
    method DeleteQuestion(ctx: Context, id: int) returns (err: Option<Error>)
      modifies repo
      ensures repo.errorMock == old(repo.errorMock)
      ensures old(repo.GetQuestionByID(id)).Err? ==>
        err == Some(Wrapped("failed to get question " + Itoa(id) + ": ", old(repo.GetQuestionByID(id)).error)) &&
        repo.State() == old(repo.State())
      ensures old(repo.GetQuestionByID(id)) == Ok(None) ==>
        err == Some(ErrNotFound) && repo.State() == old(repo.State())
      ensures old(repo.GetQuestionByID(id)).Ok? && old(repo.GetQuestionByID(id)).value.Some? ==>
        var surveyID := old(repo.questions)[id].surveyID;
        (Gate(ctx, old(repo.GetSurvey(surveyID))).Denied? ==>
          err == Some(Wrapped("DeleteQuestion: not authorized for survey " + Itoa(surveyID) + ": ",
                              Gate(ctx, old(repo.GetSurvey(surveyID))).err)) &&
          repo.State() == old(repo.State())) &&
        (Gate(ctx, old(repo.GetSurvey(surveyID))).Granted? ==>
          err == None && repo.State() == old(repo.State()).(questions := old(repo.questions) - {id}))
    {
      var fetched := repo.GetQuestionByID(id);
      if fetched.Err? {
        return Some(Wrapped("failed to get question " + Itoa(id) + ": ", fetched.error));
      }
      if fetched.value.None? {
        return Some(ErrNotFound);
      }
      var q := fetched.value.value;
      var access := Authorize(ctx, q.surveyID);
      if access.Denied? {
        return Some(Wrapped("DeleteQuestion: not authorized for survey " + Itoa(q.surveyID) + ": ", access.err));
      }
      err := repo.DeleteQuestion(id);
    }
  }
}
