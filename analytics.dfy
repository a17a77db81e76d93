// The analytics report of the response service: once the survey definition
// and its responses are fetched, every question gets a summary whose shape
// depends on its type — option counts for choice and checkbox questions,
// five counts for a 1–5 scale, the collected texts for free-text questions.
module ResponseAnalytics {

  import opened Common
  import opened GoStrings
  import opened ResponseModels

  // ------------------------------------------------------ question types

  predicate IsChoice(t: string)
  {
    t == "single_choice" || t == "multiple_choice" || t == "dropdown"
  }

  /** The types whose option texts are indexed up front. */
  predicate HasOptionIndex(t: string)
  {
    IsChoice(t) || t == "checkbox"
  }

  predicate IsFreeText(t: string)
  {
    t == "text" || t == "paragraph" || t == "short_answer" || t == "date"
  }

  /** A Go map read: the zero value for a missing key. */
  function Get(m: map<int, int>, k: int): int
  {
    if k in m then m[k] else 0
  }

  predicate DistinctIDs(opts: seq<OptionDetails>)
  {
    forall a, b :: 0 <= a < b < |opts| ==> opts[a].id != opts[b].id
  }

  // ------------------------------------------------- option text index

  /** Option text to option ID, filled in option order: of several options
      with the same text, the last one's ID stays. */
  function OptionTextMap(opts: seq<OptionDetails>): map<string, int>
  {
    if |opts| == 0 then map[]
    else OptionTextMap(opts[..|opts| - 1])[opts[|opts| - 1].text := opts[|opts| - 1].id]
  }

  /** The position of the last option with text `t`, or -1. */
  function LastWithText(opts: seq<OptionDetails>, t: string): (k: int)
    ensures -1 <= k < |opts|
    ensures k >= 0 ==> opts[k].text == t
  {
    if |opts| == 0 then -1
    else if opts[|opts| - 1].text == t then |opts| - 1
    else LastWithText(opts[..|opts| - 1], t)
  }

  /** The index maps each text to the ID of the last option carrying it. */
  lemma {:induction false} OptionTextMapIsLast(opts: seq<OptionDetails>, t: string)
    ensures t in OptionTextMap(opts) <==> LastWithText(opts, t) >= 0
    ensures t in OptionTextMap(opts) ==> OptionTextMap(opts)[t] == opts[LastWithText(opts, t)].id
  {
    if |opts| > 0 {
      OptionTextMapIsLast(opts[..|opts| - 1], t);
    }
  }

  /** No later option shares the text of the last one carrying it. */
  lemma {:induction false} LastWithTextIsLast(opts: seq<OptionDetails>, t: string, k: int)
    requires 0 <= k < |opts| && opts[k].text == t
    ensures k <= LastWithText(opts, t)
  {
    if opts[|opts| - 1].text != t {
      LastWithTextIsLast(opts[..|opts| - 1], t, k);
    }
  }

  /** For every indexed question, the option texts of the last question
      with its ID. */
  function TextIndex(qs: seq<QuestionDetails>): map<int, map<string, int>>
  {
    if |qs| == 0 then map[]
    else
      var q := qs[|qs| - 1];
      var prev := TextIndex(qs[..|qs| - 1]);
      if HasOptionIndex(q.qtype) then prev[q.id := OptionTextMap(q.options)] else prev
  }

  /** A lookup in a missing inner map finds nothing. */
  function TextMapOf(idx: map<int, map<string, int>>, qid: int): map<string, int>
  {
    if qid in idx then idx[qid] else map[]
  }

  /** An indexed question that no later question shares an ID with has its
      own options in the index. */
  lemma {:induction false} TextIndexOwn(qs: seq<QuestionDetails>, i: int)
    requires 0 <= i < |qs| && HasOptionIndex(qs[i].qtype)
    requires forall k :: i < k < |qs| ==> qs[k].id != qs[i].id
    ensures TextMapOf(TextIndex(qs), qs[i].id) == OptionTextMap(qs[i].options)
  {
    if i < |qs| - 1 {
      TextIndexOwn(qs[..|qs| - 1], i);
    }
  }

  // ------------------------------------------------------------ answers

  /** The value of the first answer to question `qid`: the scan stops there. */
  function FirstAnswer(answers: seq<Answer>, qid: int): Option<Value>
  {
    if |answers| == 0 then None
    else if answers[0].questionID == qid then Some(answers[0].value)
    else FirstAnswer(answers[1..], qid)
  }

  /** Answers after the first one to a question are never looked at. */
  lemma {:induction false} FirstAnswerIsFirst(answers: seq<Answer>, qid: int, i: int)
    requires 0 <= i < |answers| && answers[i].questionID == qid
    requires forall k :: 0 <= k < i ==> answers[k].questionID != qid
    ensures FirstAnswer(answers, qid) == Some(answers[i].value)
  {
    if i > 0 {
      FirstAnswerIsFirst(answers[1..], qid, i - 1);
    }
  }

  /** A response without an answer to the question has none. */
  lemma {:induction false} FirstAnswerAbsent(answers: seq<Answer>, qid: int)
    requires forall k :: 0 <= k < |answers| ==> answers[k].questionID != qid
    ensures FirstAnswer(answers, qid) == None
  {
    if |answers| > 0 {
      FirstAnswerAbsent(answers[1..], qid);
    }
  }

  // -------------------------------------------------------------- votes

  /** A choice answer votes for the option its text names. */
  function ChoiceVote(r: Response, qid: int, textMap: map<string, int>): Option<int>
  {
    match FirstAnswer(r.answers, qid)
    case Some(Str(s)) => if s in textMap then Some(textMap[s]) else None
    case _ => None
  }

  function ChoiceVotes(rs: seq<Response>, qid: int, textMap: map<string, int>): (votes: seq<Option<int>>)
    ensures |votes| == |rs|
  {
    seq(|rs|, i requires 0 <= i < |rs| => ChoiceVote(rs[i], qid, textMap))
  }

  /** `int(f)` for a float: truncation toward zero. */
  function Trunc(x: real): int
  {
    if x >= 0.0 then x.Floor else -((-x).Floor)
  }

  /** A scale answer is a number whose integer part lies in 1..5. */
  function ScaleVote(r: Response, qid: int): Option<int>
  {
    match FirstAnswer(r.answers, qid)
    case Some(Num(x)) => if 1 <= Trunc(x) <= 5 then Some(Trunc(x)) else None
    case _ => None
  }

  function ScaleVotes(rs: seq<Response>, qid: int): (votes: seq<Option<int>>)
    ensures |votes| == |rs|
  {
    seq(|rs|, i requires 0 <= i < |rs| => ScaleVote(rs[i], qid))
  }

  /** The counts after the votes, starting from `init`. */
  function Tally(init: map<int, int>, votes: seq<Option<int>>): map<int, int>
  {
    if |votes| == 0 then init
    else
      var prev := Tally(init, votes[..|votes| - 1]);
      match votes[|votes| - 1]
      case Some(k) => prev[k := Get(prev, k) + 1]
      case None => prev
  }

  /** The number of votes cast. */
  function Voters(votes: seq<Option<int>>): (n: nat)
    ensures n <= |votes|
  {
    if |votes| == 0 then 0
    else Voters(votes[..|votes| - 1]) + (if votes[|votes| - 1].Some? then 1 else 0)
  }

  /** The number of votes for `k`. */
  function Occurrences(votes: seq<Option<int>>, k: int): nat
  {
    if |votes| == 0 then 0
    else Occurrences(votes[..|votes| - 1], k) + (if votes[|votes| - 1] == Some(k) then 1 else 0)
  }

  /** A tally counts every vote once on top of its starting value. */
  lemma {:induction false} GetTally(init: map<int, int>, votes: seq<Option<int>>, k: int)
    ensures Get(Tally(init, votes), k) == Get(init, k) + Occurrences(votes, k)
  {
    if |votes| > 0 {
      GetTally(init, votes[..|votes| - 1], k);
    }
  }

  // ----------------------------------------------------------- checkbox

  /** A checkbox answer is looked at only when it is a stored list. */
  function CheckboxPick(r: Response, qid: int): Option<seq<Value>>
  {
    match FirstAnswer(r.answers, qid)
    case Some(StoredList(items)) => Some(items)
    case _ => None
  }

  function CheckboxPicks(rs: seq<Response>, qid: int): (picks: seq<Option<seq<Value>>>)
    ensures |picks| == |rs|
  {
    seq(|rs|, i requires 0 <= i < |rs| => CheckboxPick(rs[i], qid))
  }

  /** The option ID a list element names: a string holding an integer. */
  function PickedID(v: Value): Option<int>
  {
    if v.Str? then Atoi(v.s) else None
  }

  /** Counts the elements of one list that name a known option. */
  function ItemsTally(counts: map<int, int>, items: seq<Value>): map<int, int>
  {
    if |items| == 0 then counts
    else
      var prev := ItemsTally(counts, items[..|items| - 1]);
      var picked := PickedID(items[|items| - 1]);
      if picked.Some? && picked.value in prev then prev[picked.value := prev[picked.value] + 1] else prev
  }

  function CheckboxTally(counts: map<int, int>, picks: seq<Option<seq<Value>>>): map<int, int>
  {
    if |picks| == 0 then counts
    else
      var prev := CheckboxTally(counts, picks[..|picks| - 1]);
      match picks[|picks| - 1]
      case Some(items) => ItemsTally(prev, items)
      case None => prev
  }

  /** The respondents of a checkbox question: a non-empty list, whether or
      not any element names an option. */
  function ListVoters(picks: seq<Option<seq<Value>>>): (n: nat)
    ensures n <= |picks|
  {
    if |picks| == 0 then 0
    else
      var last := picks[|picks| - 1];
      ListVoters(picks[..|picks| - 1]) + (if last.Some? && |last.value| > 0 then 1 else 0)
  }

  /** How many elements of a list name option `id`. */
  function ItemMentions(items: seq<Value>, id: int): nat
  {
    if |items| == 0 then 0
    else ItemMentions(items[..|items| - 1], id) + (if PickedID(items[|items| - 1]) == Some(id) then 1 else 0)
  }

  /** How many elements of all lists name option `id`, repeats included. */
  function Mentions(picks: seq<Option<seq<Value>>>, id: int): nat
  {
    if |picks| == 0 then 0
    else
      var last := picks[|picks| - 1];
      Mentions(picks[..|picks| - 1], id) + (if last.Some? then ItemMentions(last.value, id) else 0)
  }

  lemma {:induction false} GetItemsTally(counts: map<int, int>, items: seq<Value>, id: int)
    ensures ItemsTally(counts, items).Keys == counts.Keys
    ensures id in counts ==> Get(ItemsTally(counts, items), id) == Get(counts, id) + ItemMentions(items, id)
    ensures id !in counts ==> Get(ItemsTally(counts, items), id) == 0
  {
    if |items| > 0 {
      GetItemsTally(counts, items[..|items| - 1], id);
    }
  }

  /** A known option is counted once per element naming it; nothing else is counted. */
  lemma {:induction false} GetCheckboxTally(counts: map<int, int>, picks: seq<Option<seq<Value>>>, id: int)
    ensures CheckboxTally(counts, picks).Keys == counts.Keys
    ensures id in counts ==> Get(CheckboxTally(counts, picks), id) == Get(counts, id) + Mentions(picks, id)
    ensures id !in counts ==> Get(CheckboxTally(counts, picks), id) == 0
  {
    if |picks| > 0 {
      var prev := CheckboxTally(counts, picks[..|picks| - 1]);
      GetCheckboxTally(counts, picks[..|picks| - 1], id);
      if picks[|picks| - 1].Some? {
        GetItemsTally(prev, picks[|picks| - 1].value, id);
      }
    }
  }

  // ---------------------------------------------------------- summaries

  /** `count / base * 100`, or 0 when nobody answered. */
  function Percent(count: int, base: int): real
  {
    if base > 0 then (count as real / base as real) * 100.0 else 0.0
  }

  /** Every option starts at zero. */
  function ZeroCounts(opts: seq<OptionDetails>): map<int, int>
  {
    if |opts| == 0 then map[]
    else ZeroCounts(opts[..|opts| - 1])[opts[|opts| - 1].id := 0]
  }

  lemma {:induction false} ZeroCountsKeys(opts: seq<OptionDetails>, id: int)
    ensures Get(ZeroCounts(opts), id) == 0
    ensures id in ZeroCounts(opts) <==> exists j :: 0 <= j < |opts| && opts[j].id == id
  {
    if |opts| > 0 {
      ZeroCountsKeys(opts[..|opts| - 1], id);
      if id in ZeroCounts(opts[..|opts| - 1]) {
        var j :| 0 <= j < |opts| - 1 && opts[..|opts| - 1][j].id == id;
        assert opts[j].id == id;
      }
    }
  }

  /** One summary row per option, in option order. */
  function OptionRows(opts: seq<OptionDetails>, counts: map<int, int>, base: int): (rows: seq<OptionSummary>)
    ensures |rows| == |opts|
  {
    seq(|opts|, j requires 0 <= j < |opts| =>
      OptionSummary(Some(opts[j].id), opts[j].text, Get(counts, opts[j].id), Percent(Get(counts, opts[j].id), base)))
  }

  /** The five points of the scale, "1" to "5". */
  const ScalePoints: seq<OptionDetails> :=
    [OptionDetails(1, "1"), OptionDetails(2, "2"), OptionDetails(3, "3"), OptionDetails(4, "4"), OptionDetails(5, "5")]

  /** The scale points are the numbers 1 to 5, each labelled with its
      decimal text. */
  lemma ScalePointNumbers()
    ensures |ScalePoints| == 5 && DistinctIDs(ScalePoints)
    ensures forall k :: 0 <= k < 5 ==> ScalePoints[k] == OptionDetails(k + 1, Itoa(k + 1))
  {
    assert Itoa(1) == "1" && Itoa(2) == "2" && Itoa(3) == "3" && Itoa(4) == "4" && Itoa(5) == "5";
  }

  /** Free-text answers: the first answer of each response, when it is a
      non-empty string, in response order. */
  function TextResponses(rs: seq<Response>, qid: int): (texts: seq<string>)
    ensures |texts| <= |rs|
    ensures forall k :: 0 <= k < |texts| ==> texts[k] != ""
  {
    if |rs| == 0 then []
    else
      var prev := TextResponses(rs[..|rs| - 1], qid);
      match FirstAnswer(rs[|rs| - 1].answers, qid)
      case Some(Str(s)) => if s != "" then prev + [s] else prev
      case _ => prev
  }

  // ------------------------------------------------------------- report

  function Blank(q: QuestionDetails): QuestionAnalytics
  {
    QuestionAnalytics(q.id, q.text, q.qtype, None, None)
  }

  /** The summary of one question over at least one response. */
  function QuestionReport(q: QuestionDetails, rs: seq<Response>, idx: map<int, map<string, int>>): (qa: QuestionAnalytics)
    ensures HasOptionIndex(q.qtype) ==>
      qa.optionsSummary.Some? && qa.textResponses == None && |qa.optionsSummary.value| == |q.options| &&
      forall j :: 0 <= j < |q.options| ==>
        qa.optionsSummary.value[j].optionID == Some(q.options[j].id) &&
        qa.optionsSummary.value[j].optionText == q.options[j].text
    ensures q.qtype == "linear_scale" ==>
      qa.optionsSummary.Some? && qa.textResponses == None && |qa.optionsSummary.value| == 5 &&
      forall k :: 0 <= k < 5 ==>
        qa.optionsSummary.value[k].optionID == Some(k + 1) && qa.optionsSummary.value[k].optionText == Itoa(k + 1)
    ensures IsFreeText(q.qtype) ==> qa.optionsSummary == None && qa.textResponses.Some?
    ensures !HasOptionIndex(q.qtype) && q.qtype != "linear_scale" && !IsFreeText(q.qtype) ==>
      qa.optionsSummary == None && qa.textResponses == None
  {
    ScalePointNumbers();
    if IsChoice(q.qtype) then
      var votes := ChoiceVotes(rs, q.id, TextMapOf(idx, q.id));
      Blank(q).(optionsSummary := Some(OptionRows(q.options, Tally(ZeroCounts(q.options), votes), Voters(votes))))
    else if q.qtype == "checkbox" then
      var picks := CheckboxPicks(rs, q.id);
      Blank(q).(optionsSummary := Some(OptionRows(q.options, CheckboxTally(ZeroCounts(q.options), picks), ListVoters(picks))))
    else if q.qtype == "linear_scale" then
      var votes := ScaleVotes(rs, q.id);
      Blank(q).(optionsSummary := Some(OptionRows(ScalePoints, Tally(ZeroCounts(ScalePoints), votes), Voters(votes))))
    else if IsFreeText(q.qtype) then
      Blank(q).(textResponses := Some(TextResponses(rs, q.id)))
    else Blank(q)
  }

  /** The summary of one question when there are no responses at all. */
  function ZeroReport(q: QuestionDetails): (qa: QuestionAnalytics)
    ensures qa.textResponses == None
    ensures q.qtype == "linear_scale" ==>
      qa.optionsSummary.Some? && |qa.optionsSummary.value| == 5 &&
      forall k :: 0 <= k < 5 ==> qa.optionsSummary.value[k] == OptionSummary(Some(k + 1), Itoa(k + 1), 0, 0.0)
    ensures q.qtype != "linear_scale" && HasOptionIndex(q.qtype) ==>
      qa.optionsSummary.Some? && |qa.optionsSummary.value| == |q.options| &&
      forall k :: 0 <= k < |q.options| ==>
        qa.optionsSummary.value[k] == OptionSummary(Some(q.options[k].id), q.options[k].text, 0, 0.0)
    ensures q.qtype != "linear_scale" && !HasOptionIndex(q.qtype) ==> qa.optionsSummary == None
  {
    ScalePointNumbers();
    if q.qtype == "linear_scale" then Blank(q).(optionsSummary := Some(OptionRows(ScalePoints, map[], 0)))
    else if HasOptionIndex(q.qtype) then Blank(q).(optionsSummary := Some(OptionRows(q.options, map[], 0)))
    else Blank(q)
  }

  function Reports(qs: seq<QuestionDetails>, rs: seq<Response>, idx: map<int, map<string, int>>): (out: seq<QuestionAnalytics>)
    ensures |out| == |qs|
  {
    seq(|qs|, i requires 0 <= i < |qs| => if |rs| == 0 then ZeroReport(qs[i]) else QuestionReport(qs[i], rs, idx))
  }

  /** Every question of the survey gets one entry, in question order, and
      the total is the number of responses fetched. */
  function Analytics(s: SurveyDetails, rs: seq<Response>): (a: SurveyAnalytics)
    ensures a.surveyID == s.id && a.surveyTitle == s.title && a.totalResponses == |rs|
    ensures |a.questionAnalytics| == |s.questions|
    ensures forall i :: 0 <= i < |s.questions| ==>
      var qa := a.questionAnalytics[i];
      qa.questionID == s.questions[i].id && qa.questionText == s.questions[i].text &&
      qa.questionType == s.questions[i].qtype
  {
    SurveyAnalytics(s.id, s.title, |rs|, Reports(s.questions, rs, TextIndex(s.questions)))
  }

  /** `GetSurveyAnalytics` given what the two fetches returned. */
  function AnalyticsFor(details: Result<SurveyDetails>, fetched: Result<seq<Response>>): Result<SurveyAnalytics>
  {
    if details.Err? then Err(Wrapped("failed to get survey details for analytics: ", details.error))
    else if fetched.Err? then Err(Wrapped("failed to get survey responses for analytics: ", fetched.error))
    else Ok(Analytics(details.value, fetched.value))
  }

  // ----------------------------------------------------- the computation

  /** The scan of a response's answers, which stops at the first answer to
      the question. */
  method FindAnswer(answers: seq<Answer>, qid: int) returns (found: Option<Value>)
    ensures found == FirstAnswer(answers, qid)
  {
    found := None;
    var i := 0;
    while i < |answers|
      invariant 0 <= i <= |answers|
      invariant FirstAnswer(answers, qid) == FirstAnswer(answers[i..], qid)
    {
      if answers[i].questionID == qid {
        found := Some(answers[i].value);
        return;
      }
      assert answers[i..][1..] == answers[i + 1..];
      i := i + 1;
    }
  }

  /** The option-text index built before any question is summarised. */
  method BuildTextIndex(qs: seq<QuestionDetails>) returns (idx: map<int, map<string, int>>)
    ensures idx == TextIndex(qs)
  {
    idx := map[];
    for i := 0 to |qs|
      invariant idx == TextIndex(qs[..i])
    {
      var q := qs[i];
      if HasOptionIndex(q.qtype) {
        var texts: map<string, int> := map[];
        for j := 0 to |q.options|
          invariant texts == OptionTextMap(q.options[..j])
        {
          texts := texts[q.options[j].text := q.options[j].id];
          assert q.options[..j + 1][..j] == q.options[..j];
        }
        assert q.options[..|q.options|] == q.options;
        idx := idx[q.id := texts];
      }
      assert qs[..i + 1][..i] == qs[..i];
    }
    assert qs[..|qs|] == qs;
  }

  /** Every option's count set to zero before the responses are read. */
  method ZeroCountsOf(opts: seq<OptionDetails>) returns (counts: map<int, int>)
    ensures counts == ZeroCounts(opts)
  {
    counts := map[];
    for j := 0 to |opts|
      invariant counts == ZeroCounts(opts[..j])
    {
      counts := counts[opts[j].id := 0];
      assert opts[..j + 1][..j] == opts[..j];
    }
    assert opts[..|opts|] == opts;
  }

  /** The counting loop of a choice question. */
  method CountChoice(rs: seq<Response>, q: QuestionDetails, textMap: map<string, int>)
    returns (counts: map<int, int>, responders: int)
    ensures counts == Tally(ZeroCounts(q.options), ChoiceVotes(rs, q.id, textMap))
    ensures responders == Voters(ChoiceVotes(rs, q.id, textMap))
  {
    ghost var votes := ChoiceVotes(rs, q.id, textMap);
    counts := ZeroCountsOf(q.options);
    responders := 0;
    for i := 0 to |rs|
      invariant counts == Tally(ZeroCounts(q.options), votes[..i])
      invariant responders == Voters(votes[..i])
    {
      var answer := FindAnswer(rs[i].answers, q.id);
      assert votes[..i + 1][..i] == votes[..i];
      if answer.Some? && answer.value.Str? && answer.value.s in textMap {
        var id := textMap[answer.value.s];
        counts := counts[id := Get(counts, id) + 1];
        responders := responders + 1;
      }
    }
    assert votes[..|rs|] == votes;
  }

  /** The inner loop over the elements of one checkbox list. */
  method TallyItems(start: map<int, int>, items: seq<Value>) returns (counts: map<int, int>)
    ensures counts == ItemsTally(start, items)
  {
    counts := start;
    for j := 0 to |items|
      invariant counts == ItemsTally(start, items[..j])
    {
      if items[j].Str? {
        var picked := Atoi(items[j].s);
        if picked.Some? && picked.value in counts {
          counts := counts[picked.value := counts[picked.value] + 1];
        }
      }
      assert items[..j + 1][..j] == items[..j];
    }
    assert items[..|items|] == items;
  }

  /** The counting loop of a checkbox question. */
  method CountCheckbox(rs: seq<Response>, q: QuestionDetails) returns (counts: map<int, int>, responders: int)
    ensures counts == CheckboxTally(ZeroCounts(q.options), CheckboxPicks(rs, q.id))
    ensures responders == ListVoters(CheckboxPicks(rs, q.id))
  {
    ghost var picks := CheckboxPicks(rs, q.id);
    counts := ZeroCountsOf(q.options);
    responders := 0;
    for i := 0 to |rs|
      invariant counts == CheckboxTally(ZeroCounts(q.options), picks[..i])
      invariant responders == ListVoters(picks[..i])
    {
      var answer := FindAnswer(rs[i].answers, q.id);
      assert picks[..i + 1][..i] == picks[..i];
      if answer.Some? && answer.value.StoredList? {
        var items := answer.value.items;
        if |items| > 0 {
          responders := responders + 1;
        }
        counts := TallyItems(counts, items);
      }
    }
    assert picks[..|rs|] == picks;
  }

  /** The counting loop of a 1-5 scale question. */
  method CountScale(rs: seq<Response>, qid: int) returns (counts: map<int, int>, responders: int)
    ensures counts == Tally(ZeroCounts(ScalePoints), ScaleVotes(rs, qid))
    ensures responders == Voters(ScaleVotes(rs, qid))
  {
    ScalePointNumbers();
    ghost var votes := ScaleVotes(rs, qid);
    counts := map[];
    for k := 1 to 6
      invariant counts == ZeroCounts(ScalePoints[..k - 1])
    {
      counts := counts[k := 0];
      assert ScalePoints[..k][..k - 1] == ScalePoints[..k - 1];
    }
    assert ScalePoints[..5] == ScalePoints;
    responders := 0;
    for i := 0 to |rs|
      invariant counts == Tally(ZeroCounts(ScalePoints), votes[..i])
      invariant responders == Voters(votes[..i])
    {
      var answer := FindAnswer(rs[i].answers, qid);
      assert votes[..i + 1][..i] == votes[..i];
      if answer.Some? && answer.value.Num? {
        var point := Trunc(answer.value.x);
        if 1 <= point <= 5 {
          counts := counts[point := Get(counts, point) + 1];
          responders := responders + 1;
        }
      }
    }
    assert votes[..|rs|] == votes;
  }

  /** One summary row per option, percentages taken over `base`. */
  method BuildRows(opts: seq<OptionDetails>, counts: map<int, int>, base: int) returns (rows: seq<OptionSummary>)
    ensures rows == OptionRows(opts, counts, base)
  {
    rows := [];
    for j := 0 to |opts|
      invariant |rows| == j
      invariant forall k :: 0 <= k < j ==> rows[k] == OptionRows(opts, counts, base)[k]
    {
      var count := Get(counts, opts[j].id);
      var percentage := 0.0;
      if base > 0 {
        percentage := (count as real / base as real) * 100.0;
      }
      rows := rows + [OptionSummary(Some(opts[j].id), opts[j].text, count, percentage)];
    }
  }

  /** The five scale rows, labelled "1" to "5". */
  method BuildScaleRows(counts: map<int, int>, base: int) returns (rows: seq<OptionSummary>)
    ensures rows == OptionRows(ScalePoints, counts, base)
  {
    ScalePointNumbers();
    rows := [];
    for k := 1 to 6
      invariant |rows| == k - 1
      invariant forall m :: 0 <= m < k - 1 ==> rows[m] == OptionRows(ScalePoints, counts, base)[m]
    {
      assert ScalePoints[k - 1] == OptionDetails(k, Itoa(k));
      var count := Get(counts, k);
      var percentage := 0.0;
      if base > 0 {
        percentage := (count as real / base as real) * 100.0;
      }
      rows := rows + [OptionSummary(Some(k), Itoa(k), count, percentage)];
    }
  }

  /** The non-empty texts answered to a free-text question. */
  method CollectTexts(rs: seq<Response>, qid: int) returns (texts: seq<string>)
    ensures texts == TextResponses(rs, qid)
  {
    texts := [];
    for i := 0 to |rs|
      invariant texts == TextResponses(rs[..i], qid)
    {
      var answer := FindAnswer(rs[i].answers, qid);
      assert rs[..i + 1][..i] == rs[..i];
      if answer.Some? && answer.value.Str? && answer.value.s != "" {
        texts := texts + [answer.value.s];
      }
    }
    assert rs[..|rs|] == rs;
  }

  /** The summary of one question over at least one response. */
  method SummarizeQuestion(q: QuestionDetails, rs: seq<Response>, idx: map<int, map<string, int>>)
    returns (qa: QuestionAnalytics)
    ensures qa == QuestionReport(q, rs, idx)
  {
    qa := QuestionAnalytics(q.id, q.text, q.qtype, None, None);
    if IsChoice(q.qtype) {
      var counts, responders := CountChoice(rs, q, TextMapOf(idx, q.id));
      var rows := BuildRows(q.options, counts, responders);
      qa := qa.(optionsSummary := Some(rows));
    } else if q.qtype == "checkbox" {
      var counts, responders := CountCheckbox(rs, q);
      var rows := BuildRows(q.options, counts, responders);
      qa := qa.(optionsSummary := Some(rows));
    } else if q.qtype == "linear_scale" {
      var counts, responders := CountScale(rs, q.id);
      var rows := BuildScaleRows(counts, responders);
      qa := qa.(optionsSummary := Some(rows));
    } else if IsFreeText(q.qtype) {
      var texts := CollectTexts(rs, q.id);
      qa := qa.(textResponses := Some(texts));
    }
  }

  /** The summary of one question when no response exists. */
  method SummarizeUnanswered(q: QuestionDetails) returns (qa: QuestionAnalytics)
    ensures qa == ZeroReport(q)
  {
    qa := QuestionAnalytics(q.id, q.text, q.qtype, None, None);
    if HasOptionIndex(q.qtype) || q.qtype == "linear_scale" {
      var rows: seq<OptionSummary>;
      if q.qtype == "linear_scale" {
        rows := BuildScaleRows(map[], 0);
      } else {
        rows := BuildRows(q.options, map[], 0);
      }
      qa := qa.(optionsSummary := Some(rows));
    }
  }

  /** `GetSurveyAnalytics`, given what the survey-details request and the
      response query returned. */
  method GetSurveyAnalytics(details: Result<SurveyDetails>, fetched: Result<seq<Response>>)
    returns (r: Result<SurveyAnalytics>)
    ensures r == AnalyticsFor(details, fetched)
  {
    if details.Err? {
      return Err(Wrapped("failed to get survey details for analytics: ", details.error));
    }
    if fetched.Err? {
      return Err(Wrapped("failed to get survey responses for analytics: ", fetched.error));
    }
    var s, rs := details.value, fetched.value;
    var idx := BuildTextIndex(s.questions);
    var out: seq<QuestionAnalytics> := [];
    for i := 0 to |s.questions|
      invariant |out| == i
      invariant forall k :: 0 <= k < i ==> out[k] == Reports(s.questions, rs, idx)[k]
    {
      var qa;
      if |rs| == 0 {
        qa := SummarizeUnanswered(s.questions[i]);
      } else {
        qa := SummarizeQuestion(s.questions[i], rs, idx);
      }
      out := out + [qa];
    }
    assert out == Reports(s.questions, rs, idx);
    r := Ok(SurveyAnalytics(s.id, s.title, |rs|, out));
  }

  // --------------------------------------------------------- properties

  /** The number of options with ID `k`. */
  function Hits(opts: seq<OptionDetails>, k: int): nat
  {
    if |opts| == 0 then 0
    else Hits(opts[..|opts| - 1], k) + (if opts[|opts| - 1].id == k then 1 else 0)
  }

  lemma {:induction false} HitsPositive(opts: seq<OptionDetails>, j: int)
    requires 0 <= j < |opts|
    ensures Hits(opts, opts[j].id) >= 1
  {
    if j < |opts| - 1 {
      HitsPositive(opts[..|opts| - 1], j);
    }
  }

  lemma {:induction false} HitsNone(opts: seq<OptionDetails>, k: int)
    requires forall j :: 0 <= j < |opts| ==> opts[j].id != k
    ensures Hits(opts, k) == 0
  {
    if |opts| > 0 {
      HitsNone(opts[..|opts| - 1], k);
    }
  }

  lemma {:induction false} HitsAtMostOne(opts: seq<OptionDetails>, k: int)
    requires DistinctIDs(opts)
    ensures Hits(opts, k) <= 1
  {
    if |opts| > 0 {
      var init := opts[..|opts| - 1];
      HitsAtMostOne(init, k);
      if opts[|opts| - 1].id == k {
        HitsNone(init, k);
      }
    }
  }

  /** The sum of the counts of a summary. */
  function CountSum(rows: seq<OptionSummary>): int
  {
    if |rows| == 0 then 0 else CountSum(rows[..|rows| - 1]) + rows[|rows| - 1].count
  }

  /** The sum of the percentages of a summary. */
  function PercentSum(rows: seq<OptionSummary>): real
  {
    if |rows| == 0 then 0.0 else PercentSum(rows[..|rows| - 1]) + rows[|rows| - 1].percentage
  }

  /** The sum of the counts the options read from `counts`. */
  function CountTotal(opts: seq<OptionDetails>, counts: map<int, int>): int
  {
    if |opts| == 0 then 0 else CountTotal(opts[..|opts| - 1], counts) + Get(counts, opts[|opts| - 1].id)
  }

  lemma PercentAdds(a: int, c: int, base: int)
    ensures Percent(a, base) + Percent(c, base) == Percent(a + c, base)
  {
    if base > 0 {
      var b := base as real;
      assert (a + c) as real / b == a as real / b + c as real / b;
    }
  }

  /** A summary's counts add up to the counts of its options, and its
      percentages to the percentage of that total. */
  lemma {:induction false} RowSums(opts: seq<OptionDetails>, counts: map<int, int>, base: int)
    ensures CountSum(OptionRows(opts, counts, base)) == CountTotal(opts, counts)
    ensures PercentSum(OptionRows(opts, counts, base)) == Percent(CountTotal(opts, counts), base)
  {
    var rows := OptionRows(opts, counts, base);
    if |opts| > 0 {
      var init := opts[..|opts| - 1];
      RowSums(init, counts, base);
      assert rows[..|rows| - 1] == OptionRows(init, counts, base);
      PercentAdds(CountTotal(init, counts), Get(counts, opts[|opts| - 1].id), base);
    }
  }

  /** The votes the options received, summed over the options. */
  function VotesFor(opts: seq<OptionDetails>, votes: seq<Option<int>>): nat
  {
    if |opts| == 0 then 0 else VotesFor(opts[..|opts| - 1], votes) + Occurrences(votes, opts[|opts| - 1].id)
  }

  lemma {:induction false} CountTotalTally(opts: seq<OptionDetails>, start: seq<OptionDetails>, votes: seq<Option<int>>)
    ensures CountTotal(opts, Tally(ZeroCounts(start), votes)) == VotesFor(opts, votes)
  {
    if |opts| > 0 {
      var id := opts[|opts| - 1].id;
      CountTotalTally(opts[..|opts| - 1], start, votes);
      GetTally(ZeroCounts(start), votes, id);
      ZeroCountsKeys(start, id);
    }
  }

  lemma {:induction false} VotesForNobody(opts: seq<OptionDetails>)
    ensures VotesFor(opts, []) == 0
  {
    if |opts| > 0 {
      VotesForNobody(opts[..|opts| - 1]);
    }
  }

  lemma {:induction false} VotesForStep(opts: seq<OptionDetails>, votes: seq<Option<int>>, v: Option<int>)
    ensures VotesFor(opts, votes + [v]) == VotesFor(opts, votes) + (if v.Some? then Hits(opts, v.value) else 0)
  {
    if |opts| > 0 {
      VotesForStep(opts[..|opts| - 1], votes, v);
      assert (votes + [v])[..|votes|] == votes;
    }
  }

  /** When every vote names exactly one option, the options' votes add up
      to the number of voters. */
  lemma {:induction false} VotesForVoters(opts: seq<OptionDetails>, votes: seq<Option<int>>)
    requires forall k :: 0 <= k < |votes| && votes[k].Some? ==> Hits(opts, votes[k].value) == 1
    ensures VotesFor(opts, votes) == Voters(votes)
  {
    if |votes| == 0 {
      VotesForNobody(opts);
    } else {
      var init := votes[..|votes| - 1];
      VotesForVoters(opts, init);
      VotesForStep(opts, init, votes[|votes| - 1]);
      assert init + [votes[|votes| - 1]] == votes;
    }
  }

  /** The rows of a tally whose every vote names exactly one option: the
      counts add up to the voters, who are the base of every percentage. */
  lemma TallyRowsAddUp(opts: seq<OptionDetails>, votes: seq<Option<int>>)
    requires forall k :: 0 <= k < |votes| && votes[k].Some? ==> Hits(opts, votes[k].value) == 1
    ensures var rows := OptionRows(opts, Tally(ZeroCounts(opts), votes), Voters(votes));
      CountSum(rows) == Voters(votes) &&
      (Voters(votes) > 0 ==> PercentSum(rows) == 100.0)
  {
    var n := Voters(votes);
    var counts := Tally(ZeroCounts(opts), votes);
    RowSums(opts, counts, n);
    CountTotalTally(opts, opts, votes);
    VotesForVoters(opts, votes);
    assert CountTotal(opts, counts) == n;
    if n > 0 {
      WholeIsHundred(n);
    }
  }

  lemma WholeIsHundred(n: int)
    requires n > 0
    ensures Percent(n, n) == 100.0
  {
    assert n as real / n as real == 1.0;
  }

  /** A choice vote names an option of the question whose texts it was
      looked up in. */
  lemma ChoiceVoteNamesOption(r: Response, qid: int, opts: seq<OptionDetails>)
    requires DistinctIDs(opts)
    ensures ChoiceVote(r, qid, OptionTextMap(opts)).Some? ==> Hits(opts, ChoiceVote(r, qid, OptionTextMap(opts)).value) == 1
  {
    var v := ChoiceVote(r, qid, OptionTextMap(opts));
    if v.Some? {
      var t := FirstAnswer(r.answers, qid).value.s;
      OptionTextMapIsLast(opts, t);
      HitsPositive(opts, LastWithText(opts, t));
      HitsAtMostOne(opts, v.value);
    }
  }

  /** A choice question whose option IDs are distinct and which no later
      question shares its ID with: every counted respondent picked exactly
      one option, so the counts add up to the respondents, at most one per
      response, each percentage is the share of that total, and the
      percentages add up to 100 once anyone answered. */
  lemma ChoiceRowsAddUp(qs: seq<QuestionDetails>, rs: seq<Response>, i: int)
    requires 0 <= i < |qs| && IsChoice(qs[i].qtype) && DistinctIDs(qs[i].options)
    requires forall k :: i < k < |qs| ==> qs[k].id != qs[i].id
    ensures var rows := QuestionReport(qs[i], rs, TextIndex(qs)).optionsSummary.value;
      CountSum(rows) <= |rs| &&
      (forall j :: 0 <= j < |rows| ==> rows[j].percentage == Percent(rows[j].count, CountSum(rows))) &&
      (CountSum(rows) > 0 ==> PercentSum(rows) == 100.0)
  {
    var q := qs[i];
    TextIndexOwn(qs, i);
    var votes := ChoiceVotes(rs, q.id, OptionTextMap(q.options));
    forall k | 0 <= k < |votes| && votes[k].Some?
      ensures Hits(q.options, votes[k].value) == 1
    {
      ChoiceVoteNamesOption(rs[k], q.id, q.options);
    }
    TallyRowsAddUp(q.options, votes);
  }

  lemma {:induction false} OccurrencesNone(votes: seq<Option<int>>, x: int)
    requires forall k :: 0 <= k < |votes| ==> votes[k] != Some(x)
    ensures Occurrences(votes, x) == 0
  {
    if |votes| > 0 {
      OccurrencesNone(votes[..|votes| - 1], x);
    }
  }

  lemma ShadowedOptionGetsNoVote(r: Response, qid: int, opts: seq<OptionDetails>, a: int, b: int)
    requires DistinctIDs(opts) && 0 <= a < b < |opts| && opts[a].text == opts[b].text
    ensures ChoiceVote(r, qid, OptionTextMap(opts)) != Some(opts[a].id)
  {
    var v := ChoiceVote(r, qid, OptionTextMap(opts));
    if v.Some? {
      var t := FirstAnswer(r.answers, qid).value.s;
      OptionTextMapIsLast(opts, t);
      if t == opts[a].text {
        LastWithTextIsLast(opts, t, b);
      }
    }
  }

  /** Of two options with the same text, the earlier one never receives a
      vote: the text names the later one's ID. */
  lemma DuplicateTextLosesVotes(qs: seq<QuestionDetails>, rs: seq<Response>, i: int, a: int, b: int)
    requires 0 <= i < |qs| && IsChoice(qs[i].qtype) && DistinctIDs(qs[i].options)
    requires forall k :: i < k < |qs| ==> qs[k].id != qs[i].id
    requires 0 <= a < b < |qs[i].options| && qs[i].options[a].text == qs[i].options[b].text
    ensures QuestionReport(qs[i], rs, TextIndex(qs)).optionsSummary.value[a].count == 0
  {
    var q := qs[i];
    var opts := q.options;
    TextIndexOwn(qs, i);
    var votes := ChoiceVotes(rs, q.id, OptionTextMap(opts));
    forall k | 0 <= k < |votes|
      ensures votes[k] != Some(opts[a].id)
    {
      ShadowedOptionGetsNoVote(rs[k], q.id, opts, a, b);
    }
    OccurrencesNone(votes, opts[a].id);
    GetTally(ZeroCounts(opts), votes, opts[a].id);
    ZeroCountsKeys(opts, opts[a].id);
  }

  /** A scale question: the five counts add up to the respondents whose
      answer fell in 1..5, each percentage is the share of that total, and
      the percentages add up to 100 once anyone answered. */
  lemma ScaleRowsAddUp(q: QuestionDetails, rs: seq<Response>, idx: map<int, map<string, int>>)
    requires q.qtype == "linear_scale"
    ensures var rows := QuestionReport(q, rs, idx).optionsSummary.value;
      CountSum(rows) <= |rs| &&
      (forall j :: 0 <= j < |rows| ==> rows[j].percentage == Percent(rows[j].count, CountSum(rows))) &&
      (CountSum(rows) > 0 ==> PercentSum(rows) == 100.0)
  {
    ScalePointNumbers();
    var votes := ScaleVotes(rs, q.id);
    forall k | 0 <= k < |votes| && votes[k].Some?
      ensures Hits(ScalePoints, votes[k].value) == 1
    {
      HitsPositive(ScalePoints, votes[k].value - 1);
      HitsAtMostOne(ScalePoints, votes[k].value);
    }
    TallyRowsAddUp(ScalePoints, votes);
  }

  /** A checkbox row counts every element of every counted list that names
      its option, repeats included; its percentage is taken over the
      responses that gave a non-empty list. */
  lemma CheckboxRowCounts(q: QuestionDetails, rs: seq<Response>, idx: map<int, map<string, int>>, j: int)
    requires q.qtype == "checkbox" && 0 <= j < |q.options|
    ensures var row := QuestionReport(q, rs, idx).optionsSummary.value[j];
      var picks := CheckboxPicks(rs, q.id);
      row.count == Mentions(picks, q.options[j].id) &&
      row.percentage == Percent(row.count, ListVoters(picks))
  {
    var id := q.options[j].id;
    ZeroCountsKeys(q.options, id);
    assert q.options[j].id == id;
    GetCheckboxTally(ZeroCounts(q.options), CheckboxPicks(rs, q.id), id);
  }

  /** Nothing stops a list from naming an option twice: one response with
      such a list counts it twice, at 200 percent. */
  lemma CheckboxRepeatCountsTwice()
    ensures var q := QuestionDetails(1, "Colours", "checkbox", [OptionDetails(7, "Red")]);
      var r := Response("r1", 1, None, 0, [Answer(1, StoredList([Str("7"), Str("7")]))]);
      QuestionReport(q, [r], map[]).optionsSummary == Some([OptionSummary(Some(7), "Red", 2, 200.0)])
  {
    var opts := [OptionDetails(7, "Red")];
    var items := [Str("7"), Str("7")];
    var r := Response("r1", 1, None, 0, [Answer(1, StoredList(items))]);
    assert Atoi("7") == Some(7);
    assert ZeroCounts(opts) == map[7 := 0];
    assert items[..1] == [Str("7")];
    assert ItemsTally(map[7 := 0], items[..1]) == map[7 := 1];
    assert ItemsTally(map[7 := 0], items) == map[7 := 2];
    assert CheckboxPicks([r], 1) == [Some(items)];
    assert ListVoters([Some(items)]) == 1;
    var picks := [Some(items)];
    assert picks[..0] == [];
    assert CheckboxTally(map[7 := 0], picks) == map[7 := 2];
    assert Percent(2, 1) == 200.0;
    assert OptionRows(opts, map[7 := 2], 1) == [OptionSummary(Some(7), "Red", 2, 200.0)];
  }
}
