// The two CSV exports of the response service, as tables of cells: the wide
// export of the service (one row per response, one column per question) and
// the long export of the handler (one row per answer).  How the cells are
// quoted into CSV text is not modelled.
module ResponseExport {

  import opened Common
  import opened GoStrings
  import opened ResponseModels
  import ResponseAnalytics

  // ------------------------------------------------------------ printing

  /** `fmt.Sprintf("%v", v)`, given how a number prints. */
  function Show(v: Value, showNumber: real -> string): string
  {
    match v
    case Str(s) => s
    case Num(x) => showNumber(x)
    case StoredList(items) => "[" + Join(seq(|items|, i requires 0 <= i < |items| => Show(items[i], showNumber)), " ") + "]"
    case AnyList(items) => "[" + Join(seq(|items|, i requires 0 <= i < |items| => Show(items[i], showNumber)), " ") + "]"
    case StringList(strings) => "[" + Join(strings, " ") + "]"
    case Nil => "<nil>"
    case Other(shown) => shown
  }

  /** `%v` of every element of a list. */
  function ShowEach(items: seq<Value>, showNumber: real -> string): (shown: seq<string>)
    ensures |shown| == |items|
  {
    seq(|items|, i requires 0 <= i < |items| => Show(items[i], showNumber))
  }

  function Strs(strings: seq<string>): (items: seq<Value>)
    ensures |items| == |strings|
  {
    seq(|strings|, i requires 0 <= i < |strings| => Str(strings[i]))
  }

  /** A list of strings prints its strings. */
  lemma ShowStrs(strings: seq<string>, showNumber: real -> string)
    ensures ShowEach(Strs(strings), showNumber) == strings
  {
  }

  // ---------------------------------------------------- the wide layout

  const FixedColumns: seq<string> := ["ResponseID", "SubmittedAt", "UserID"]

  /** The header: the fixed columns, then the question texts in order. */
  function Header(qs: seq<QuestionDetails>): (h: seq<string>)
    ensures |h| == 3 + |qs|
  {
    if |qs| == 0 then FixedColumns else Header(qs[..|qs| - 1]) + [qs[|qs| - 1].text]
  }

  /** The column of each question ID: the one its last question got. */
  function Columns(qs: seq<QuestionDetails>): map<int, int>
  {
    if |qs| == 0 then map[] else Columns(qs[..|qs| - 1])[qs[|qs| - 1].id := 3 + |qs| - 1]
  }

  /** The type of each question ID: the type of its last question. */
  function QuestionTypes(qs: seq<QuestionDetails>): map<int, string>
  {
    if |qs| == 0 then map[] else QuestionTypes(qs[..|qs| - 1])[qs[|qs| - 1].id := qs[|qs| - 1].qtype]
  }

  /** The position of the last question with ID `id`, or -1. */
  function LastQuestion(qs: seq<QuestionDetails>, id: int): (k: int)
    ensures -1 <= k < |qs|
    ensures k >= 0 ==> qs[k].id == id
  {
    if |qs| == 0 then -1
    else if qs[|qs| - 1].id == id then |qs| - 1
    else LastQuestion(qs[..|qs| - 1], id)
  }

  /** The header starts with the fixed columns and names question `i` in
      column `3 + i`. */
  lemma {:induction false} HeaderNames(qs: seq<QuestionDetails>, i: int)
    requires 0 <= i < |qs|
    ensures Header(qs)[..3] == FixedColumns
    ensures Header(qs)[3 + i] == qs[i].text
  {
    if i < |qs| - 1 {
      HeaderNames(qs[..|qs| - 1], i);
    } else if |qs| > 1 {
      HeaderNames(qs[..|qs| - 1], 0);
    }
  }

  /** An answer's column and formatting type both come from the last
      question with its ID: the column is headed by that question's text. */
  lemma {:induction false} ColumnsOfLast(qs: seq<QuestionDetails>, id: int)
    ensures id in Columns(qs) <==> LastQuestion(qs, id) >= 0
    ensures id in QuestionTypes(qs) <==> LastQuestion(qs, id) >= 0
    ensures id in Columns(qs) ==>
      Columns(qs)[id] == 3 + LastQuestion(qs, id) && QuestionTypes(qs)[id] == qs[LastQuestion(qs, id)].qtype
  {
    if |qs| > 0 {
      ColumnsOfLast(qs[..|qs| - 1], id);
    }
  }

  /** Every column a question ID maps to lies after the fixed columns and
      inside the header. */
  predicate ColumnsFit(cols: map<int, int>, width: int)
  {
    forall id :: id in cols ==> 3 <= cols[id] < width
  }

  lemma ColumnsInHeader(qs: seq<QuestionDetails>)
    ensures ColumnsFit(Columns(qs), 3 + |qs|)
  {
    forall id | id in Columns(qs)
      ensures 3 <= Columns(qs)[id] < 3 + |qs|
    {
      ColumnsOfLast(qs, id);
    }
  }

  // ---------------------------------------------------------- the cells

  /** The cell of an answer in the wide export as written: of the list
      types only `[]interface{}` and `[]string` are joined, so a list the
      document store decoded prints as `%v`. */
  function WideCellAsWritten(v: Value, qtype: string, showNumber: real -> string): string
  {
    if v.Nil? then ""
    else if qtype == "checkbox" then
      match v
      case AnyList(items) => Join(ShowEach(items, showNumber), "; ")
      case StringList(strings) => Join(strings, "; ")
      case _ => Show(v, showNumber)
    else Show(v, showNumber)
  }

  /** The cell of an answer in the wide export: a checkbox list of any of
      the three list types is joined with "; ". */
  function WideCell(v: Value, qtype: string, showNumber: real -> string): string
  {
    if v.Nil? then ""
    else if qtype == "checkbox" then
      match v
      case StoredList(items) => Join(ShowEach(items, showNumber), "; ")
      case AnyList(items) => Join(ShowEach(items, showNumber), "; ")
      case StringList(strings) => Join(strings, "; ")
      case _ => Show(v, showNumber)
    else Show(v, showNumber)
  }

  /** A stored checkbox list, the very list analytics counts, prints as
      "[1 2]", while the same list decoded from JSON prints as "1; 2". */
  lemma WideCellDependsOnListType(showNumber: real -> string)
    ensures var items := [Str("1"), Str("2")];
      var r := Response("r", 1, None, 0, [Answer(5, StoredList(items))]);
      ResponseAnalytics.CheckboxPick(r, 5) == Some(items) &&
      WideCellAsWritten(StoredList(items), "checkbox", showNumber) == "[1 2]" &&
      WideCellAsWritten(AnyList(items), "checkbox", showNumber) == "1; 2"
  {
    var items := [Str("1"), Str("2")];
    assert ShowEach(items, showNumber) == ["1", "2"];
    assert ["1", "2"][1..] == ["2"];
    assert Join(["1", "2"], " ") == "1 2";
    assert Join(["1", "2"], "; ") == "1; 2";
    var r := Response("r", 1, None, 0, [Answer(5, StoredList(items))]);
    assert ResponseAnalytics.FirstAnswer(r.answers, 5) == Some(StoredList(items));
  }

  /** The wide cell depends only on the elements of a list, not on which
      Go list type the decoder produced. */
  lemma WideCellIgnoresListType(items: seq<Value>, strings: seq<string>, qtype: string, showNumber: real -> string)
    ensures WideCell(StoredList(items), qtype, showNumber) == WideCell(AnyList(items), qtype, showNumber)
    ensures WideCell(StringList(strings), qtype, showNumber) == WideCell(AnyList(Strs(strings)), qtype, showNumber)
    ensures qtype == "checkbox" ==> WideCell(StoredList(items), qtype, showNumber) == Join(ShowEach(items, showNumber), "; ")
  {
    ShowStrs(strings, showNumber);
  }

  // ----------------------------------------------------------- the rows

  function UserCell(userID: Option<int>): string
  {
    if userID.Some? then Itoa(userID.value) else "Anonymous"
  }

  /** A fresh row: the fixed cells, then empty cells. */
  function StartRow(r: Response, width: int, showTime: Time -> string): (row: seq<string>)
    requires width >= 3
    ensures |row| == width
  {
    [r.id, showTime(r.submittedAt), UserCell(r.userID)] + seq(width - 3, _ => "")
  }

  /** The row after writing the answers in order into their columns;
      answers to unknown questions are skipped. */
  function Fill(row: seq<string>, answers: seq<Answer>, cols: map<int, int>, types: map<int, string>,
                showNumber: real -> string): (out: seq<string>)
    requires ColumnsFit(cols, |row|)
    ensures |out| == |row|
  {
    if |answers| == 0 then row
    else
      var prev := Fill(row, answers[..|answers| - 1], cols, types, showNumber);
      var a := answers[|answers| - 1];
      if a.questionID in cols then
        var qtype := if a.questionID in types then types[a.questionID] else "";
        prev[cols[a.questionID] := WideCell(a.value, qtype, showNumber)]
      else prev
  }

  /** The position of the last answer written into column `c`, or -1. */
  function LastInColumn(answers: seq<Answer>, cols: map<int, int>, c: int): (k: int)
    ensures -1 <= k < |answers|
    ensures k >= 0 ==> answers[k].questionID in cols && cols[answers[k].questionID] == c
  {
    if |answers| == 0 then -1
    else
      var a := answers[|answers| - 1];
      if a.questionID in cols && cols[a.questionID] == c then |answers| - 1
      else LastInColumn(answers[..|answers| - 1], cols, c)
  }

  /** A column holds the cell of the last answer written into it, and is
      left as it was when no answer goes there. */
  lemma {:induction false} FillLastWins(row: seq<string>, answers: seq<Answer>, cols: map<int, int>,
                                        types: map<int, string>, showNumber: real -> string, c: int)
    requires ColumnsFit(cols, |row|) && 0 <= c < |row|
    ensures var k := LastInColumn(answers, cols, c);
      var out := Fill(row, answers, cols, types, showNumber);
      if k >= 0 then
        var qid := answers[k].questionID;
        out[c] == WideCell(answers[k].value, if qid in types then types[qid] else "", showNumber)
      else out[c] == row[c]
  {
    if |answers| > 0 {
      FillLastWins(row, answers[..|answers| - 1], cols, types, showNumber, c);
    }
  }

  function WideRow(r: Response, qs: seq<QuestionDetails>, showTime: Time -> string, showNumber: real -> string): seq<string>
  {
    ColumnsInHeader(qs);
    Fill(StartRow(r, 3 + |qs|, showTime), r.answers, Columns(qs), QuestionTypes(qs), showNumber)
  }

  /** Every row is as wide as the header, and starts with the response ID,
      its time and its user, "Anonymous" when there is none.  A question's
      column holds the last answer to it, formatted by its type, and is
      empty when the response does not answer it. */
  lemma WideRowCells(r: Response, qs: seq<QuestionDetails>, showTime: Time -> string, showNumber: real -> string, i: int)
    requires 0 <= i < |qs|
    ensures var row := WideRow(r, qs, showTime, showNumber);
      |row| == |Header(qs)| &&
      row[0] == r.id && row[1] == showTime(r.submittedAt) &&
      (r.userID.None? ==> row[2] == "Anonymous") &&
      (r.userID.Some? ==> row[2] == Itoa(r.userID.value))
    ensures var row := WideRow(r, qs, showTime, showNumber);
      var k := LastInColumn(r.answers, Columns(qs), 3 + i);
      (k < 0 ==> row[3 + i] == "") &&
      (k >= 0 ==> LastQuestion(qs, r.answers[k].questionID) == i &&
                  row[3 + i] == WideCell(r.answers[k].value, qs[i].qtype, showNumber))
  {
    ColumnsInHeader(qs);
    var cols, types := Columns(qs), QuestionTypes(qs);
    var start := StartRow(r, 3 + |qs|, showTime);
    for c := 0 to 3
      invariant forall d :: 0 <= d < c ==> Fill(start, r.answers, cols, types, showNumber)[d] == start[d]
    {
      FillLastWins(start, r.answers, cols, types, showNumber, c);
      assert LastInColumn(r.answers, cols, c) < 0;
    }
    FillLastWins(start, r.answers, cols, types, showNumber, 3 + i);
    var k := LastInColumn(r.answers, cols, 3 + i);
    if k >= 0 {
      ColumnsOfLast(qs, r.answers[k].questionID);
    }
  }

  /** The wide export given what the two fetches returned. */
  function WideExport(surveyID: int, details: Result<SurveyDetails>, fetched: Result<seq<Response>>,
                      showTime: Time -> string, showNumber: real -> string): Result<seq<seq<string>>>
  {
    if details.Err? then
      Err(Wrapped("failed to retrieve survey details (ID: " + Itoa(surveyID) + "): ", details.error))
    else if fetched.Err? then
      Err(Wrapped("failed to retrieve responses (ID: " + Itoa(surveyID) + "): ", fetched.error))
    else
      var qs, rs := details.value.questions, fetched.value;
      Ok([Header(qs)] + seq(|rs|, i requires 0 <= i < |rs| => WideRow(rs[i], qs, showTime, showNumber)))
  }

  /** The header row, then one row per response, all as wide as the header. */
  lemma WideExportShape(surveyID: int, details: SurveyDetails, rs: seq<Response>,
                        showTime: Time -> string, showNumber: real -> string)
    ensures var t := WideExport(surveyID, Ok(details), Ok(rs), showTime, showNumber);
      t.Ok? && |t.value| == 1 + |rs| && t.value[0] == Header(details.questions) &&
      forall i :: 0 <= i < |t.value| ==> |t.value[i]| == 3 + |details.questions|
  {
    var t := WideExport(surveyID, Ok(details), Ok(rs), showTime, showNumber).value;
    forall i | 1 <= i < |t|
      ensures |t[i]| == 3 + |details.questions|
    {
      ColumnsInHeader(details.questions);
    }
  }

  // --------------------------------------------------- the wide method

  /** The header loop, which also records each question ID's column and type. */
  method BuildHeader(qs: seq<QuestionDetails>) returns (headers: seq<string>, cols: map<int, int>, types: map<int, string>)
    ensures headers == Header(qs) && cols == Columns(qs) && types == QuestionTypes(qs)
  {
    headers, cols, types := FixedColumns, map[], map[];
    for i := 0 to |qs|
      invariant headers == Header(qs[..i]) && cols == Columns(qs[..i]) && types == QuestionTypes(qs[..i])
    {
      assert qs[..i + 1][..i] == qs[..i];
      headers := headers + [qs[i].text];
      cols := cols[qs[i].id := |headers| - 1];
      types := types[qs[i].id := qs[i].qtype];
    }
    assert qs[..|qs|] == qs;
  }

  /** One row, built in a fresh array of empty cells. */
  method BuildWideRow(r: Response, qs: seq<QuestionDetails>, cols: map<int, int>, types: map<int, string>,
                      showTime: Time -> string, showNumber: real -> string) returns (cells: seq<string>)
    requires cols == Columns(qs) && types == QuestionTypes(qs)
    ensures cells == WideRow(r, qs, showTime, showNumber)
  {
    ColumnsInHeader(qs);
    var row := new string[3 + |qs|](_ => "");
    row[0] := r.id;
    row[1] := showTime(r.submittedAt);
    if r.userID.Some? {
      row[2] := Itoa(r.userID.value);
    } else {
      row[2] := "Anonymous";
    }
    ghost var start := row[..];
    assert start == StartRow(r, 3 + |qs|, showTime);
    for k := 0 to |r.answers|
      invariant row[..] == Fill(start, r.answers[..k], cols, types, showNumber)
    {
      var a := r.answers[k];
      assert r.answers[..k + 1][..k] == r.answers[..k];
      if a.questionID in cols {
        var formatted := "";
        if !a.value.Nil? {
          var qtype := if a.questionID in types then types[a.questionID] else "";
          formatted := WideCell(a.value, qtype, showNumber);
        }
        row[cols[a.questionID]] := formatted;
      }
    }
    assert r.answers[..|r.answers|] == r.answers;
    cells := row[..];
  }

  /** `ExportSurveyResponsesCSV` given what the two fetches returned: the
      table of cells the CSV writer receives. */
  method ExportSurveyResponsesCSV(surveyID: int, details: Result<SurveyDetails>, fetched: Result<seq<Response>>,
                                  showTime: Time -> string, showNumber: real -> string)
    returns (r: Result<seq<seq<string>>>)
    ensures r == WideExport(surveyID, details, fetched, showTime, showNumber)
  {
    if details.Err? {
      return Err(Wrapped("failed to retrieve survey details (ID: " + Itoa(surveyID) + "): ", details.error));
    }
    if fetched.Err? {
      return Err(Wrapped("failed to retrieve responses (ID: " + Itoa(surveyID) + "): ", fetched.error));
    }
    var qs, rs := details.value.questions, fetched.value;
    var headers, cols, types := BuildHeader(qs);
    var table := [headers];
    for i := 0 to |rs|
      invariant |table| == 1 + i && table[0] == Header(qs)
      invariant forall k :: 0 <= k < i ==> table[1 + k] == WideRow(rs[k], qs, showTime, showNumber)
    {
      var cells := BuildWideRow(rs[i], qs, cols, types, showTime, showNumber);
      table := table + [cells];
    }
    assert table == [Header(qs)] + seq(|rs|, i requires 0 <= i < |rs| => WideRow(rs[i], qs, showTime, showNumber));
    r := Ok(table);
  }

  // ---------------------------------------------------- the long layout

  const LongHeader: seq<string> := ["ResponseID", "UserID", "SubmittedAt", "QuestionID", "AnswerValue"]

  /** The value cell of the long export as written: `[]interface{}` and
      `[]string` are joined with ",", anything else prints as `%v`. */
  function LongValueAsWritten(v: Value, showNumber: real -> string): string
  {
    match v
    case Str(s) => s
    case AnyList(items) => Join(ShowEach(items, showNumber), ",")
    case StringList(strings) => Join(strings, ",")
    case _ => Show(v, showNumber)
  }

  /** The value cell of the long export: a list of any of the three list
      types is joined with ",". */
  function LongValue(v: Value, showNumber: real -> string): string
  {
    match v
    case Str(s) => s
    case StoredList(items) => Join(ShowEach(items, showNumber), ",")
    case AnyList(items) => Join(ShowEach(items, showNumber), ",")
    case StringList(strings) => Join(strings, ",")
    case _ => Show(v, showNumber)
  }

  /** A stored list prints as "[a b]" in the long export, the same list
      decoded from JSON as "a,b". */
  lemma LongValueDependsOnListType(showNumber: real -> string)
    ensures LongValueAsWritten(StoredList([Str("a"), Str("b")]), showNumber) == "[a b]"
    ensures LongValueAsWritten(AnyList([Str("a"), Str("b")]), showNumber) == "a,b"
  {
    assert ShowEach([Str("a"), Str("b")], showNumber) == ["a", "b"];
    assert ["a", "b"][1..] == ["b"];
    assert Join(["a", "b"], " ") == "a b";
    assert Join(["a", "b"], ",") == "a,b";
  }

  /** The long value cell depends only on the elements of a list; a list of
      strings is split back into its strings when none holds a comma. */
  lemma LongValueIgnoresListType(items: seq<Value>, strings: seq<string>, showNumber: real -> string)
    ensures LongValue(StoredList(items), showNumber) == LongValue(AnyList(items), showNumber)
    ensures LongValue(StringList(strings), showNumber) == LongValue(AnyList(Strs(strings)), showNumber)
    ensures |strings| > 0 && (forall i :: 0 <= i < |strings| ==> ',' !in strings[i]) ==>
      Split(LongValue(StoredList(Strs(strings)), showNumber), ',') == strings
  {
    ShowStrs(strings, showNumber);
    if |strings| > 0 && (forall i :: 0 <= i < |strings| ==> ',' !in strings[i]) {
      SplitJoin(strings, ',');
    }
  }

  /** The rows of one response: one per answer, in answer order. */
  function AnswerRows(r: Response, showTime: Time -> string, showNumber: real -> string): (rows: seq<seq<string>>)
    ensures |rows| == |r.answers|
  {
    var user := if r.userID.Some? then Itoa(r.userID.value) else "";
    seq(|r.answers|, j requires 0 <= j < |r.answers| =>
      [r.id, user, showTime(r.submittedAt), Itoa(r.answers[j].questionID), LongValue(r.answers[j].value, showNumber)])
  }

  /** The rows of all responses, in response order. */
  function LongRows(rs: seq<Response>, showTime: Time -> string, showNumber: real -> string): seq<seq<string>>
  {
    if |rs| == 0 then [] else LongRows(rs[..|rs| - 1], showTime, showNumber) + AnswerRows(rs[|rs| - 1], showTime, showNumber)
  }

  function TotalAnswers(rs: seq<Response>): nat
  {
    if |rs| == 0 then 0 else TotalAnswers(rs[..|rs| - 1]) + |rs[|rs| - 1].answers|
  }

  /** One row per answer: answer `j` of response `i` is row
      `TotalAnswers(rs[..i]) + j`, and it names the response, its user
      (empty when anonymous), its time, the question and the value. */
  lemma {:induction false} LongRowsPlace(rs: seq<Response>, showTime: Time -> string, showNumber: real -> string, i: int, j: int)
    requires 0 <= i < |rs| && 0 <= j < |rs[i].answers|
    ensures |LongRows(rs, showTime, showNumber)| == TotalAnswers(rs)
    ensures TotalAnswers(rs[..i]) + j < TotalAnswers(rs)
    ensures LongRows(rs, showTime, showNumber)[TotalAnswers(rs[..i]) + j] ==
      [rs[i].id, if rs[i].userID.Some? then Itoa(rs[i].userID.value) else "", showTime(rs[i].submittedAt),
       Itoa(rs[i].answers[j].questionID), LongValue(rs[i].answers[j].value, showNumber)]
  {
    var init := rs[..|rs| - 1];
    if i < |rs| - 1 {
      LongRowsPlace(init, showTime, showNumber, i, j);
      assert init[..i] == rs[..i];
    } else {
      assert rs[..i] == init;
      LongRowsCount(init, showTime, showNumber);
    }
  }

  lemma {:induction false} LongRowsCount(rs: seq<Response>, showTime: Time -> string, showNumber: real -> string)
    ensures |LongRows(rs, showTime, showNumber)| == TotalAnswers(rs)
  {
    if |rs| > 0 {
      LongRowsCount(rs[..|rs| - 1], showTime, showNumber);
    }
  }

  /** What the long-export handler sends. */
  datatype LongReply = Csv(rows: seq<seq<string>>) | Failure(status: int, message: string)

  /** The long export: the header and one row per answer; with no
      responses, the header alone. */
  function LongExport(surveyIDParam: string, fetched: Result<seq<Response>>,
                      showTime: Time -> string, showNumber: real -> string): (reply: LongReply)
    ensures fetched.Ok? && Atoi(surveyIDParam).Some? ==>
      reply.Csv? && |reply.rows| == 1 + TotalAnswers(fetched.value) && reply.rows[0] == LongHeader
    ensures fetched.Ok? && Atoi(surveyIDParam).Some? && |fetched.value| == 0 ==> reply == Csv([LongHeader])
    ensures Atoi(surveyIDParam).None? ==> reply == Failure(400, "Invalid survey ID format")
    ensures Atoi(surveyIDParam).Some? && fetched.Err? ==> reply == Failure(500, "Failed to retrieve responses for export")
  {
    if Atoi(surveyIDParam).None? then Failure(400, "Invalid survey ID format")
    else if fetched.Err? then Failure(500, "Failed to retrieve responses for export")
    else
      LongRowsCount(fetched.value, showTime, showNumber);
      Csv([LongHeader] + LongRows(fetched.value, showTime, showNumber))
  }

  /** The inner loop of the long export: one row per answer of a response. */
  method WriteAnswerRows(before: seq<seq<string>>, resp: Response, showTime: Time -> string, showNumber: real -> string)
    returns (rows: seq<seq<string>>)
    ensures rows == before + AnswerRows(resp, showTime, showNumber)
  {
    ghost var expected := AnswerRows(resp, showTime, showNumber);
    var user := "";
    if resp.userID.Some? {
      user := Itoa(resp.userID.value);
    }
    rows := before;
    for j := 0 to |resp.answers|
      invariant |rows| == |before| + j && rows[..|before|] == before
      invariant forall k :: 0 <= k < j ==> rows[|before| + k] == expected[k]
    {
      var a := resp.answers[j];
      rows := rows + [[resp.id, user, showTime(resp.submittedAt), Itoa(a.questionID), LongValue(a.value, showNumber)]];
    }
    assert rows == before + expected;
  }

  /** Appending the rows of response `i` to the header and the rows of the
      responses before it gives the header and the rows of the first
      `i + 1` responses. */
  lemma LongRowsStep(header: seq<seq<string>>, rows: seq<seq<string>>, rs: seq<Response>, i: int,
                     showTime: Time -> string, showNumber: real -> string)
    requires 0 <= i < |rs|
    requires rows == header + LongRows(rs[..i], showTime, showNumber)
    ensures rows + AnswerRows(rs[i], showTime, showNumber) == header + LongRows(rs[..i + 1], showTime, showNumber)
  {
    assert rs[..i + 1][..i] == rs[..i];
  }

  /** The outer loop of the long export: the header, then the rows of each
      response in turn. */
  method WriteLongRows(header: seq<seq<string>>, rs: seq<Response>, showTime: Time -> string, showNumber: real -> string)
    returns (rows: seq<seq<string>>)
    ensures rows == header + LongRows(rs, showTime, showNumber)
  {
    rows := header;
    for i := 0 to |rs|
      invariant rows == header + LongRows(rs[..i], showTime, showNumber)
    {
      LongRowsStep(header, rows, rs, i, showTime, showNumber);
      rows := WriteAnswerRows(rows, rs[i], showTime, showNumber);
    }
    assert rs[..|rs|] == rs;
  }

  /** The long-export handler: nested loops over the responses and their
      answers, writing one row at a time. */
  method ExportLongCSV(surveyIDParam: string, fetched: Result<seq<Response>>,
                       showTime: Time -> string, showNumber: real -> string) returns (reply: LongReply)
    ensures reply == LongExport(surveyIDParam, fetched, showTime, showNumber)
  {
    var surveyID := Atoi(surveyIDParam);
    if surveyID.None? {
      return Failure(400, "Invalid survey ID format");
    }
    if fetched.Err? {
      return Failure(500, "Failed to retrieve responses for export");
    }
    var rs := fetched.value;
    if |rs| == 0 {
      return Csv([LongHeader]);
    }
    var rows := WriteLongRows([LongHeader], rs, showTime, showNumber);
    reply := Csv(rows);
  }
}
