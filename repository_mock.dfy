// The in-memory survey repository: three maps keyed by identifier, an
// error switch that makes every operation fail, and the transaction handle
// the service's write paths run in.
module RepositoryMock {

  import opened Common
  import opened SurveyModels

  /** The contents of the three maps. */
  datatype Store = Store(
    surveys: map<int, Survey>,
    questions: map<int, Question>,
    options: map<int, QuestionOption>)

  // ------------------------------------------------ the store operations

  /** A create stores its record under one more than the number of records. */
  function NextKey<V>(m: map<int, V>): int
  {
    |m| + 1
  }

  function AddSurvey(st: Store, s: Survey): Store
  {
    var id := NextKey(st.surveys);
    st.(surveys := st.surveys[id := s.(id := id)])
  }

  function AddQuestion(st: Store, q: Question): Store
  {
    var id := NextKey(st.questions);
    st.(questions := st.questions[id := q.(id := id)])
  }

  function AddOption(st: Store, o: QuestionOption): Store
  {
    var id := NextKey(st.options);
    st.(options := st.options[id := o.(id := id)])
  }

  /** An update replaces the whole stored record, and does nothing for an unknown key. */
  function ReplaceSurvey(st: Store, s: Survey): Store
  {
    if s.id in st.surveys then st.(surveys := st.surveys[s.id := s]) else st
  }

  function ReplaceQuestion(st: Store, q: Question): Store
  {
    if q.id in st.questions then st.(questions := st.questions[q.id := q]) else st
  }

  function SetActive(st: Store, id: int, isActive: bool): Store
  {
    if id in st.surveys then st.(surveys := st.surveys[id := st.surveys[id].(isActive := isActive)]) else st
  }

  /** The options of every question except `questionID`. */
  function OptionsWithout(options: map<int, QuestionOption>, questionID: int): (kept: map<int, QuestionOption>)
    ensures forall k :: k in kept <==> k in options && options[k].questionID != questionID
    ensures forall k :: k in kept ==> kept[k] == options[k]
  {
    map k | k in options && options[k].questionID != questionID :: options[k]
  }

  /** The questions of every survey except `surveyID`: the survey-level twin
      of `OptionsWithout`, left by `DeleteQuestionsBySurveyID`. */
  function QuestionsWithout(questions: map<int, Question>, surveyID: int): (kept: map<int, Question>)
    ensures forall k :: k in kept <==> k in questions && questions[k].surveyID != surveyID
    ensures forall k :: k in kept ==> kept[k] == questions[k]
  {
    map k | k in questions && questions[k].surveyID != surveyID :: questions[k]
  }

  // ------------------------------------------------------ list and page

  /** The order in which Go's `range` visits a map's keys is unspecified;
      the list operations take it as an input: every key exactly once. */
  ghost predicate EnumeratesKeys<V>(order: seq<int>, m: map<int, V>)
  {
    (forall i, j :: 0 <= i < j < |order| ==> order[i] != order[j]) &&
    (forall i :: 0 <= i < |order| ==> order[i] in m) &&
    (forall k :: k in m ==> k in order)
  }

  datatype SurveyFilter = ByCreator(creatorID: int) | Visible(isUserAdmin: bool)

  predicate Keeps(f: SurveyFilter, s: Survey)
  {
    match f
    case ByCreator(creatorID) => s.creatorID == creatorID
    case Visible(isUserAdmin) => isUserAdmin || s.isActive
  }

  /** The surveys the filter keeps, in visiting order. */
  function SelectSurveys(surveys: map<int, Survey>, order: seq<int>, f: SurveyFilter): seq<Survey>
    requires forall i :: 0 <= i < |order| ==> order[i] in surveys
  {
    if |order| == 0 then []
    else
      var init := SelectSurveys(surveys, order[..|order| - 1], f);
      var s := surveys[order[|order| - 1]];
      if Keeps(f, s) then init + [s] else init
  }

  function QuestionsOf(questions: map<int, Question>, order: seq<int>, surveyID: int): seq<Question>
    requires forall i :: 0 <= i < |order| ==> order[i] in questions
  {
    if |order| == 0 then []
    else
      var init := QuestionsOf(questions, order[..|order| - 1], surveyID);
      var q := questions[order[|order| - 1]];
      if q.surveyID == surveyID then init + [q] else init
  }

  function OptionsOf(options: map<int, QuestionOption>, order: seq<int>, questionID: int): seq<QuestionOption>
    requires forall i :: 0 <= i < |order| ==> order[i] in options
  {
    if |order| == 0 then []
    else
      var init := OptionsOf(options, order[..|order| - 1], questionID);
      var o := options[order[|order| - 1]];
      if o.questionID == questionID then init + [o] else init
  }

  /** The slice `xs[offset:min(offset+limit, len)]` is only taken when
      `offset < len`; Go panics on it unless both numbers are non-negative. */
  predicate PageInBounds(n: int, offset: int, limit: int)
  {
    offset < n ==> 0 <= offset && 0 <= limit
  }

  function Paginate<T>(xs: seq<T>, offset: int, limit: int): (page: seq<T>)
    requires PageInBounds(|xs|, offset, limit)
    ensures offset >= |xs| ==> page == []
    ensures offset < |xs| ==> |page| == (if limit < |xs| - offset then limit else |xs| - offset)
    ensures forall i :: 0 <= i < |page| ==> page[i] == xs[offset + i]
  {
    if offset < |xs| then
      var end := if offset + limit > |xs| then |xs| else offset + limit;
      xs[offset..end]
    else []
  }

  /** The keys of the visited surveys that the filter keeps. */
  function KeptKeys(surveys: map<int, Survey>, order: seq<int>, f: SurveyFilter): set<int>
  {
    set k | k in order && k in surveys && Keeps(f, surveys[k])
  }

  /** The total a list reports does not depend on the visiting order: it is
      the number of stored surveys the filter keeps. */
  lemma SelectCountsKeptSurveys(surveys: map<int, Survey>, order: seq<int>, f: SurveyFilter)
    requires EnumeratesKeys(order, surveys)
    ensures |SelectSurveys(surveys, order, f)| == |set k | k in surveys && Keeps(f, surveys[k])|
  {
    SelectCountsKeptKeys(surveys, order, f);
    forall k | k in surveys
      ensures k in order
    {
    }
    assert KeptKeys(surveys, order, f) == set k | k in surveys && Keeps(f, surveys[k]);
  }

  lemma {:induction false} SelectCountsKeptKeys(surveys: map<int, Survey>, order: seq<int>, f: SurveyFilter)
    requires forall i :: 0 <= i < |order| ==> order[i] in surveys
    requires forall i, j :: 0 <= i < j < |order| ==> order[i] != order[j]
    ensures |SelectSurveys(surveys, order, f)| == |KeptKeys(surveys, order, f)|
  {
    if |order| > 0 {
      var init := order[..|order| - 1];
      var last := order[|order| - 1];
      SelectCountsKeptKeys(surveys, init, f);
      assert forall i :: 0 <= i < |init| ==> init[i] != last;
      if Keeps(f, surveys[last]) {
        assert KeptKeys(surveys, order, f) == KeptKeys(surveys, init, f) + {last};
      } else {
        assert KeptKeys(surveys, order, f) == KeptKeys(surveys, init, f);
      }
    }
  }

  /** Every listed survey is a stored survey the filter keeps. */
  lemma {:induction false} SelectKeepsOnlyMatches(surveys: map<int, Survey>, order: seq<int>, f: SurveyFilter, i: nat)
    requires forall j :: 0 <= j < |order| ==> order[j] in surveys
    requires i < |SelectSurveys(surveys, order, f)|
    ensures Keeps(f, SelectSurveys(surveys, order, f)[i])
    ensures exists k :: k in surveys && surveys[k] == SelectSurveys(surveys, order, f)[i]
  {
    var init := order[..|order| - 1];
    if i < |SelectSurveys(surveys, init, f)| {
      SelectKeepsOnlyMatches(surveys, init, f, i);
    } else {
      var k := order[|order| - 1];
      assert k in surveys && surveys[k] == SelectSurveys(surveys, order, f)[i];
    }
  }

  // --------------------------------------------------- identifier reuse

  /** The keys are exactly 1..|m|, as they are until something is deleted. */
  ghost predicate Dense<V>(m: map<int, V>)
  {
    forall k :: k in m <==> 1 <= k <= |m|
  }

  /** While the keys are dense, a create takes a fresh key and keeps them dense. */
  lemma AddKeepsDense<V>(m: map<int, V>, v: V)
    requires Dense(m)
    ensures NextKey(m) !in m
    ensures Dense(m[NextKey(m) := v]) && |m[NextKey(m) := v]| == |m| + 1
  {
  }

  /** After a delete the rule can hand out a key that is still in use: with
      question 2 stored alone, a new question is stored under 2 and the old
      one is lost. */
  lemma CreateAfterDeleteOverwrites(st: Store, old2: Question, q: Question)
    requires st.questions == map[2 := old2]
    ensures 2 in st.questions && NextKey(st.questions) == 2
    ensures AddQuestion(st, q).questions == map[2 := q.(id := 2)]
  {
  }

  /** Some key of a non-empty set, as Go's `range` would visit next. */
  method PickKey(keys: set<int>) returns (k: int)
    requires keys != {}
    ensures k in keys
  {
    NonEmptyHasMember(keys);
    k :| k in keys;
  }

  lemma NonEmptyHasMember(keys: set<int>)
    requires keys != {}
    ensures exists k :: k in keys
  {
    if forall k :: k !in keys {
      assert false;
    }
  }

  // ------------------------------------------------ transaction handle

  /** The database rejects statement number `at` of a transaction (BEGIN is
      statement 0) with `err`. */
  datatype Fault = Fault(at: nat, err: Error)

  predicate RejectsAt(fault: Option<Fault>, n: nat)
  {
    fault.Some? && fault.value.at == n
  }

  /** A transaction: the store as it was at BEGIN, which a rollback
      restores, and the number of statements issued so far. */
  class Tx {
    const snapshot: Store
    const fault: Option<Fault>
    var issued: nat

    constructor (snapshot: Store, fault: Option<Fault>)
      ensures this.snapshot == snapshot && this.fault == fault && issued == 1
    {
      this.snapshot := snapshot;
      this.fault := fault;
      issued := 1;
    }

    /** Sends the next statement, which the database may reject. */
    method Admit() returns (e: Option<Error>)
      modifies this
      ensures issued == old(issued) + 1
      ensures RejectsAt(fault, old(issued)) ==> e == Some(fault.value.err)
      ensures !RejectsAt(fault, old(issued)) ==> e == None
    {
      e := if RejectsAt(fault, issued) then Some(fault.value.err) else None;
      issued := issued + 1;
    }

    /** COMMIT: on rejection the database discards the transaction's work. */
    method Commit(db: MockRepository) returns (e: Option<Error>)
      modifies this, db
      ensures issued == old(issued) + 1 && db.errorMock == old(db.errorMock)
      ensures RejectsAt(fault, old(issued)) ==> e == Some(fault.value.err) && db.State() == snapshot
      ensures !RejectsAt(fault, old(issued)) ==> e == None && db.State() == old(db.State())
    {
      e := Admit();
      if e.Some? {
        db.Restore(snapshot);
      }
    }

    /** ROLLBACK: the store returns to what it was at BEGIN. */
    method Rollback(db: MockRepository)
      modifies db
      ensures db.State() == snapshot && db.errorMock == old(db.errorMock)
    {
      db.Restore(snapshot);
    }
  }

  // ------------------------------------------------------- the repository

  class MockRepository {
    var surveys: map<int, Survey>
    var questions: map<int, Question>
    var options: map<int, QuestionOption>
    /** Declared by the mock but never read or written by it. */
    var surveyCount: int
    /** When set, every operation fails with this error. */
    var errorMock: Option<Error>

    constructor ()
      ensures State() == Store(map[], map[], map[]) && errorMock == None
    {
      surveys := map[];
      questions := map[];
      options := map[];
      surveyCount := 0;
      errorMock := None;
    }

    function State(): Store
      reads this
    {
      Store(surveys, questions, options)
    }

    method Restore(st: Store)
      modifies this
      ensures State() == st && errorMock == old(errorMock)
    {
      surveys, questions, options := st.surveys, st.questions, st.options;
    }

    method BeginTx(fault: Option<Fault>) returns (r: Result<Tx>)
      ensures errorMock.Some? ==> r == Err(errorMock.value)
      ensures errorMock.None? && RejectsAt(fault, 0) ==> r == Err(fault.value.err)
      ensures errorMock.None? && !RejectsAt(fault, 0) ==>
        r.Ok? && fresh(r.value) && r.value.snapshot == State() && r.value.fault == fault && r.value.issued == 1
    {
      if errorMock.Some? {
        return Err(errorMock.value);
      }
      if RejectsAt(fault, 0) {
        return Err(fault.value.err);
      }
      var tx := new Tx(State(), fault);
      r := Ok(tx);
    }

    /** The repository-level commit and rollback only report the error switch. */
    method CommitTx(tx: Tx) returns (e: Option<Error>)
      ensures e.Some? <==> errorMock.Some?
      ensures e.Some? ==> e.value == errorMock.value
    {
      e := errorMock;
    }

    method RollbackTx(tx: Tx) returns (e: Option<Error>)
      ensures e.Some? <==> errorMock.Some?
      ensures e.Some? ==> e.value == errorMock.value
    {
      e := errorMock;
    }

    // ---- surveys

    method CreateSurvey(s: Survey) returns (r: Result<int>)
      modifies this
      ensures errorMock == old(errorMock)
      ensures old(errorMock).Some? ==> r == Err(old(errorMock).value) && State() == old(State())
      ensures old(errorMock).None? ==> r == Ok(|old(surveys)| + 1) && State() == AddSurvey(old(State()), s)
    {
      if errorMock.Some? {
        return Err(errorMock.value);
      }
      var id := |surveys| + 1;
      surveys := surveys[id := s.(id := id)];
      r := Ok(id);
    }

    /** A missing survey is not an error: the result is then no survey. */
    function GetSurvey(id: int): (r: Result<Option<Survey>>)
      reads this
      ensures errorMock.Some? <==> r.Err?
      ensures r.Ok? ==> (r.value.Some? <==> id in surveys)
      ensures r.Ok? && r.value.Some? ==> r.value.value == surveys[id]
    {
      if errorMock.Some? then Err(errorMock.value)
      else if id in surveys then Ok(Some(surveys[id]))
      else Ok(None)
    }

    method ListSurveysByCreatorID(creatorID: int, offset: int, limit: int, order: seq<int>)
      returns (page: seq<Survey>, total: int, e: Option<Error>)
      requires EnumeratesKeys(order, surveys)
      requires errorMock.None? ==> PageInBounds(|SelectSurveys(surveys, order, ByCreator(creatorID))|, offset, limit)
      ensures errorMock.Some? ==> e == errorMock && page == [] && total == 0
      ensures errorMock.None? ==> (e == None &&
        total == |SelectSurveys(surveys, order, ByCreator(creatorID))| &&
        page == Paginate(SelectSurveys(surveys, order, ByCreator(creatorID)), offset, limit))
    {
      page, total, e := List(ByCreator(creatorID), offset, limit, order);
    }

    method ListAllSurveys(isUserAdmin: bool, offset: int, limit: int, order: seq<int>)
      returns (page: seq<Survey>, total: int, e: Option<Error>)
      requires EnumeratesKeys(order, surveys)
      requires errorMock.None? ==> PageInBounds(|SelectSurveys(surveys, order, Visible(isUserAdmin))|, offset, limit)
      ensures errorMock.Some? ==> e == errorMock && page == [] && total == 0
      ensures errorMock.None? ==> (e == None &&
        total == |SelectSurveys(surveys, order, Visible(isUserAdmin))| &&
        page == Paginate(SelectSurveys(surveys, order, Visible(isUserAdmin)), offset, limit))
    {
      page, total, e := List(Visible(isUserAdmin), offset, limit, order);
    }

    /** The filter-then-slice loop both list operations share. */
    method List(f: SurveyFilter, offset: int, limit: int, order: seq<int>)
      returns (page: seq<Survey>, total: int, e: Option<Error>)
      requires EnumeratesKeys(order, surveys)
      requires errorMock.None? ==> PageInBounds(|SelectSurveys(surveys, order, f)|, offset, limit)
      ensures errorMock.Some? ==> e == errorMock && page == [] && total == 0
      ensures errorMock.None? ==> (e == None &&
        total == |SelectSurveys(surveys, order, f)| &&
        page == Paginate(SelectSurveys(surveys, order, f), offset, limit))
    {
      if errorMock.Some? {
        return [], 0, errorMock;
      }
      var matching: seq<Survey> := [];
      var i := 0;
      while i < |order|
        invariant 0 <= i <= |order|
        invariant matching == SelectSurveys(surveys, order[..i], f)
      {
        assert order[..i + 1][..i] == order[..i];
        var s := surveys[order[i]];
        if Keeps(f, s) {
          matching := matching + [s];
        }
        i := i + 1;
      }
      assert order[..|order|] == order;
      total := |matching|;
      if offset < |matching| {
        var end := offset + limit;
        if end > |matching| {
          end := |matching|;
        }
        page := matching[offset..end];
      } else {
        page := [];
      }
      e := None;
    }

    method UpdateSurvey(s: Survey) returns (e: Option<Error>)
      modifies this
      ensures errorMock == old(errorMock) && e == old(errorMock)
      ensures old(errorMock).Some? ==> State() == old(State())
      ensures old(errorMock).None? ==> State() == ReplaceSurvey(old(State()), s)
    {
      if errorMock.Some? {
        return errorMock;
      }
      if s.id !in surveys {
        return None;
      }
      surveys := surveys[s.id := s];
      e := None;
    }

    /** Removes one survey; its questions and options stay. */
    method DeleteSurvey(id: int) returns (e: Option<Error>)
      modifies this
      ensures errorMock == old(errorMock) && e == old(errorMock)
      ensures old(errorMock).Some? ==> State() == old(State())
      ensures old(errorMock).None? ==> State() == old(State()).(surveys := old(surveys) - {id})
    {
      if errorMock.Some? {
        return errorMock;
      }
      surveys := surveys - {id};
      e := None;
    }

    method UpdateSurveyStatus(id: int, isActive: bool) returns (e: Option<Error>)
      modifies this
      ensures errorMock == old(errorMock) && e == old(errorMock)
      ensures old(errorMock).Some? ==> State() == old(State())
      ensures old(errorMock).None? ==> State() == SetActive(old(State()), id, isActive)
    {
      if errorMock.Some? {
        return errorMock;
      }
      if id !in surveys {
        return None;
      }
      surveys := surveys[id := surveys[id].(isActive := isActive)];
      e := None;
    }

    // ---- questions

    method CreateQuestion(q: Question) returns (r: Result<int>)
      modifies this
      ensures errorMock == old(errorMock)
      ensures old(errorMock).Some? ==> r == Err(old(errorMock).value) && State() == old(State())
      ensures old(errorMock).None? ==> r == Ok(|old(questions)| + 1) && State() == AddQuestion(old(State()), q)
    {
      if errorMock.Some? {
        return Err(errorMock.value);
      }
      var id := |questions| + 1;
      questions := questions[id := q.(id := id)];
      r := Ok(id);
    }

    function GetQuestionByID(id: int): (r: Result<Option<Question>>)
      reads this
      ensures errorMock.Some? <==> r.Err?
      ensures r.Ok? ==> (r.value.Some? <==> id in questions)
      ensures r.Ok? && r.value.Some? ==> r.value.value == questions[id]
    {
      if errorMock.Some? then Err(errorMock.value)
      else if id in questions then Ok(Some(questions[id]))
      else Ok(None)
    }

    method GetQuestionsBySurveyID(surveyID: int, order: seq<int>) returns (r: Result<seq<Question>>)
      requires EnumeratesKeys(order, questions)
      ensures errorMock.Some? ==> r == Err(errorMock.value)
      ensures errorMock.None? ==> r == Ok(QuestionsOf(questions, order, surveyID))
    {
      if errorMock.Some? {
        return Err(errorMock.value);
      }
      var found: seq<Question> := [];
      var i := 0;
      while i < |order|
        invariant 0 <= i <= |order|
        invariant found == QuestionsOf(questions, order[..i], surveyID)
      {
        assert order[..i + 1][..i] == order[..i];
        var q := questions[order[i]];
        if q.surveyID == surveyID {
          found := found + [q];
        }
        i := i + 1;
      }
      assert order[..|order|] == order;
      r := Ok(found);
    }

    method UpdateQuestion(q: Question) returns (e: Option<Error>)
      modifies this
      ensures errorMock == old(errorMock) && e == old(errorMock)
      ensures old(errorMock).Some? ==> State() == old(State())
      ensures old(errorMock).None? ==> State() == ReplaceQuestion(old(State()), q)
    {
      if errorMock.Some? {
        return errorMock;
      }
      if q.id !in questions {
        return None;
      }
      questions := questions[q.id := q];
      e := None;
    }

    /** Removes one question; its options stay. */
    method DeleteQuestion(id: int) returns (e: Option<Error>)
      modifies this
      ensures errorMock == old(errorMock) && e == old(errorMock)
      ensures old(errorMock).Some? ==> State() == old(State())
      ensures old(errorMock).None? ==> State() == old(State()).(questions := old(questions) - {id})
    {
      if errorMock.Some? {
        return errorMock;
      }
      questions := questions - {id};
      e := None;
    }

    // ---- options

    method CreateQuestionOption(o: QuestionOption) returns (r: Result<int>)
      modifies this
      ensures errorMock == old(errorMock)
      ensures old(errorMock).Some? ==> r == Err(old(errorMock).value) && State() == old(State())
      ensures old(errorMock).None? ==> r == Ok(|old(options)| + 1) && State() == AddOption(old(State()), o)
    {
      if errorMock.Some? {
        return Err(errorMock.value);
      }
      var id := |options| + 1;
      options := options[id := o.(id := id)];
      r := Ok(id);
    }

    method GetQuestionOptionsByQuestionID(questionID: int, order: seq<int>) returns (r: Result<seq<QuestionOption>>)
      requires EnumeratesKeys(order, options)
      ensures errorMock.Some? ==> r == Err(errorMock.value)
      ensures errorMock.None? ==> r == Ok(OptionsOf(options, order, questionID))
    {
      if errorMock.Some? {
        return Err(errorMock.value);
      }
      var found: seq<QuestionOption> := [];
      var i := 0;
      while i < |order|
        invariant 0 <= i <= |order|
        invariant found == OptionsOf(options, order[..i], questionID)
      {
        assert order[..i + 1][..i] == order[..i];
        var o := options[order[i]];
        if o.questionID == questionID {
          found := found + [o];
        }
        i := i + 1;
      }
      assert order[..|order|] == order;
      r := Ok(found);
    }

    /** Deletes, while iterating over the map, every option of the question. */
    method DeleteQuestionOptions(questionID: int) returns (e: Option<Error>)
      modifies this
      ensures errorMock == old(errorMock) && e == old(errorMock)
      ensures old(errorMock).Some? ==> State() == old(State())
      ensures old(errorMock).None? ==>
        State() == old(State()).(options := OptionsWithout(old(options), questionID))
    {
      if errorMock.Some? {
        return errorMock;
      }
      var pending := options.Keys;
      while pending != {}
        invariant pending <= old(options).Keys
        invariant forall k :: k in options <==>
          k in old(options) && (k in pending || old(options)[k].questionID != questionID)
        invariant forall k :: k in options ==> options[k] == old(options)[k]
        invariant surveys == old(surveys) && questions == old(questions) && errorMock == old(errorMock)
        decreases |pending|
      {
        var id := PickKey(pending);
        if options[id].questionID == questionID {
          options := options - {id};
        }
        pending := pending - {id};
      }
      var expected := OptionsWithout(old(options), questionID);
      forall k
        ensures k in options <==> k in expected
      {
        assert k !in pending;
      }
      assert options.Keys == expected.Keys;
      assert forall k :: k in options ==> options[k] == expected[k];
      assert options == expected;
      e := None;
    }

    /** Deletes, while iterating over the map, every question of the survey;
        the options of those questions stay. */
    method DeleteQuestionsBySurveyID(surveyID: int) returns (e: Option<Error>)
      modifies this
      ensures errorMock == old(errorMock) && e == old(errorMock)
      ensures old(errorMock).Some? ==> State() == old(State())
      ensures old(errorMock).None? ==>
        State() == old(State()).(questions := QuestionsWithout(old(questions), surveyID))
    {
      if errorMock.Some? {
        return errorMock;
      }
      var pending := questions.Keys;
      while pending != {}
        invariant pending <= old(questions).Keys
        invariant forall k :: k in questions <==>
          k in old(questions) && (k in pending || old(questions)[k].surveyID != surveyID)
        invariant forall k :: k in questions ==> questions[k] == old(questions)[k]
        invariant surveys == old(surveys) && options == old(options) && errorMock == old(errorMock)
        decreases |pending|
      {
        var id := PickKey(pending);
        if questions[id].surveyID == surveyID {
          questions := questions - {id};
        }
        pending := pending - {id};
      }
      var expected := QuestionsWithout(old(questions), surveyID);
      forall k
        ensures k in questions <==> k in expected
      {
        assert k !in pending;
      }
      assert questions.Keys == expected.Keys;
      assert forall k :: k in questions ==> questions[k] == expected[k];
      assert questions == expected;
      e := None;
    }

    // ---- transactional variants: the statement goes to the database first,
    // ---- then to the non-transactional operation

    method CreateSurveyTx(tx: Tx, s: Survey) returns (r: Result<int>)
      modifies this, tx
      ensures tx.issued == old(tx.issued) + 1 && errorMock == old(errorMock)
      ensures RejectsAt(tx.fault, old(tx.issued)) ==> r == Err(tx.fault.value.err) && State() == old(State())
      ensures !RejectsAt(tx.fault, old(tx.issued)) && errorMock.Some? ==> r == Err(errorMock.value) && State() == old(State())
      ensures !RejectsAt(tx.fault, old(tx.issued)) && errorMock.None? ==>
        r == Ok(|old(surveys)| + 1) && State() == AddSurvey(old(State()), s)
    {
      var rejected := tx.Admit();
      if rejected.Some? {
        return Err(rejected.value);
      }
      r := CreateSurvey(s);
    }

    method UpdateSurveyTx(tx: Tx, s: Survey) returns (e: Option<Error>)
      modifies this, tx
      ensures tx.issued == old(tx.issued) + 1 && errorMock == old(errorMock)
      ensures RejectsAt(tx.fault, old(tx.issued)) ==> e == Some(tx.fault.value.err) && State() == old(State())
      ensures !RejectsAt(tx.fault, old(tx.issued)) && errorMock.Some? ==> e == errorMock && State() == old(State())
      ensures !RejectsAt(tx.fault, old(tx.issued)) && errorMock.None? ==>
        e == None && State() == ReplaceSurvey(old(State()), s)
    {
      e := tx.Admit();
      if e.Some? {
        return;
      }
      e := UpdateSurvey(s);
    }

    method CreateQuestionTx(tx: Tx, q: Question) returns (r: Result<int>)
      modifies this, tx
      ensures tx.issued == old(tx.issued) + 1 && errorMock == old(errorMock)
      ensures RejectsAt(tx.fault, old(tx.issued)) ==> r == Err(tx.fault.value.err) && State() == old(State())
      ensures !RejectsAt(tx.fault, old(tx.issued)) && errorMock.Some? ==> r == Err(errorMock.value) && State() == old(State())
      ensures !RejectsAt(tx.fault, old(tx.issued)) && errorMock.None? ==>
        r == Ok(|old(questions)| + 1) && State() == AddQuestion(old(State()), q)
    {
      var rejected := tx.Admit();
      if rejected.Some? {
        return Err(rejected.value);
      }
      r := CreateQuestion(q);
    }

    method GetQuestionsBySurveyIDTx(tx: Tx, surveyID: int, order: seq<int>) returns (r: Result<seq<Question>>)
      requires EnumeratesKeys(order, questions)
      modifies tx
      ensures tx.issued == old(tx.issued) + 1
      ensures RejectsAt(tx.fault, old(tx.issued)) ==> r == Err(tx.fault.value.err)
      ensures !RejectsAt(tx.fault, old(tx.issued)) && errorMock.Some? ==> r == Err(errorMock.value)
      ensures !RejectsAt(tx.fault, old(tx.issued)) && errorMock.None? ==> r == Ok(QuestionsOf(questions, order, surveyID))
    {
      var rejected := tx.Admit();
      if rejected.Some? {
        return Err(rejected.value);
      }
      r := GetQuestionsBySurveyID(surveyID, order);
    }

    method UpdateQuestionTx(tx: Tx, q: Question) returns (e: Option<Error>)
      modifies this, tx
      ensures tx.issued == old(tx.issued) + 1 && errorMock == old(errorMock)
      ensures RejectsAt(tx.fault, old(tx.issued)) ==> e == Some(tx.fault.value.err) && State() == old(State())
      ensures !RejectsAt(tx.fault, old(tx.issued)) && errorMock.Some? ==> e == errorMock && State() == old(State())
      ensures !RejectsAt(tx.fault, old(tx.issued)) && errorMock.None? ==>
        e == None && State() == ReplaceQuestion(old(State()), q)
    {
      e := tx.Admit();
      if e.Some? {
        return;
      }
      e := UpdateQuestion(q);
    }

    method DeleteQuestionTx(tx: Tx, id: int) returns (e: Option<Error>)
      modifies this, tx
      ensures tx.issued == old(tx.issued) + 1 && errorMock == old(errorMock)
      ensures RejectsAt(tx.fault, old(tx.issued)) ==> e == Some(tx.fault.value.err) && State() == old(State())
      ensures !RejectsAt(tx.fault, old(tx.issued)) && errorMock.Some? ==> e == errorMock && State() == old(State())
      ensures !RejectsAt(tx.fault, old(tx.issued)) && errorMock.None? ==>
        e == None && State() == old(State()).(questions := old(questions) - {id})
    {
      e := tx.Admit();
      if e.Some? {
        return;
      }
      e := DeleteQuestion(id);
    }

    method CreateQuestionOptionTx(tx: Tx, o: QuestionOption) returns (r: Result<int>)
      modifies this, tx
      ensures tx.issued == old(tx.issued) + 1 && errorMock == old(errorMock)
      ensures RejectsAt(tx.fault, old(tx.issued)) ==> r == Err(tx.fault.value.err) && State() == old(State())
      ensures !RejectsAt(tx.fault, old(tx.issued)) && errorMock.Some? ==> r == Err(errorMock.value) && State() == old(State())
      ensures !RejectsAt(tx.fault, old(tx.issued)) && errorMock.None? ==>
        r == Ok(|old(options)| + 1) && State() == AddOption(old(State()), o)
    {
      var rejected := tx.Admit();
      if rejected.Some? {
        return Err(rejected.value);
      }
      r := CreateQuestionOption(o);
    }

    method DeleteQuestionOptionsTx(tx: Tx, questionID: int) returns (e: Option<Error>)
      modifies this, tx
      ensures tx.issued == old(tx.issued) + 1 && errorMock == old(errorMock)
      ensures RejectsAt(tx.fault, old(tx.issued)) ==> e == Some(tx.fault.value.err) && State() == old(State())
      ensures !RejectsAt(tx.fault, old(tx.issued)) && errorMock.Some? ==> e == errorMock && State() == old(State())
      ensures !RejectsAt(tx.fault, old(tx.issued)) && errorMock.None? ==>
        e == None && State() == old(State()).(options := OptionsWithout(old(options), questionID))
    {
      e := tx.Admit();
      if e.Some? {
        return;
      }
      e := DeleteQuestionOptions(questionID);
    }

    method DeleteQuestionsBySurveyIDTx(tx: Tx, surveyID: int) returns (e: Option<Error>)
      modifies this, tx
      ensures tx.issued == old(tx.issued) + 1 && errorMock == old(errorMock)
      ensures RejectsAt(tx.fault, old(tx.issued)) ==> e == Some(tx.fault.value.err) && State() == old(State())
      ensures !RejectsAt(tx.fault, old(tx.issued)) && errorMock.Some? ==> e == errorMock && State() == old(State())
      ensures !RejectsAt(tx.fault, old(tx.issued)) && errorMock.None? ==>
        e == None && State() == old(State()).(questions := QuestionsWithout(old(questions), surveyID))
    {
      e := tx.Admit();
      if e.Some? {
        return;
      }
      e := DeleteQuestionsBySurveyID(surveyID);
    }
  }
}
