/** The PIRLS database tools of tutorials/src/submission/tools/database.py.

    The database is a parameter: `execute` maps the SQL text a tool sends to
    what the connection returned, either the rows (each cell already turned
    into its `str`) or the text of the exception it raised. */
module Database {
  import opened Wrappers

  /** One result row, its cells as text. */
  type Row = seq<string>

  /** What executing a query gave: the rows, or the exception's text. */
  type Execute = string -> Result<seq<Row>, string>

  // ---------------------------------------------------------------------
  // Character counting

  function CountChar(c: char, s: string): nat {
    if s == [] then 0 else CountChar(c, s[..|s| - 1]) + (if s[|s| - 1] == c then 1 else 0)
  }

  lemma {:induction false} CountCharAppend(c: char, a: string, b: string)
    ensures CountChar(c, a + b) == CountChar(c, a) + CountChar(c, b)
    decreases |b|
  {
    if b == [] {
      assert a + b == a;
    } else {
      assert (a + b)[..|a + b| - 1] == a + b[..|b| - 1];
      CountCharAppend(c, a, b[..|b| - 1]);
    }
  }

  lemma {:induction false} CountCharNone(c: char, s: string)
    ensures CountChar(c, s) == 0 <==> c !in s
  {
    if s != [] {
      CountCharNone(c, s[..|s| - 1]);
      assert s == s[..|s| - 1] + [s[|s| - 1]];
      assert c in s <==> c in s[..|s| - 1] || c == s[|s| - 1];
    }
  }

  // ---------------------------------------------------------------------
  // Entity id

  function LowerChar(c: char): char {
    if IsUpper(c) then (c as int + 32) as char else c
  }

  predicate IsUpper(c: char) {
    'A' <= c <= 'Z'
  }

  /** `str.lower`, on ASCII letters: no capital is left, each capital becomes
      the small letter of the same place in the alphabet, and every other
      character is kept where it was. */
  function Lower(s: string): (r: string)
    ensures |r| == |s|
    ensures forall i :: 0 <= i < |r| ==> !IsUpper(r[i])
    ensures forall i :: 0 <= i < |s| && !IsUpper(s[i]) ==> r[i] == s[i]
    ensures forall i :: 0 <= i < |s| && IsUpper(s[i]) ==> r[i] as int - 'a' as int == s[i] as int - 'A' as int
  {
    seq(|s|, i requires 0 <= i < |s| => LowerChar(s[i]))
  }

  /** Lowering twice is lowering once. */
  lemma LowerIdempotent(s: string)
    ensures Lower(Lower(s)) == Lower(s)
  {
  }

  /** The key column joining a general table to its answers table; it
      always ends in `_id`. */
  function EntityId(generalTable: string): (r: string)
    ensures |r| >= 3 && r[|r| - 3..] == "_id"
  {
    var name := Lower(generalTable);
    if name == "curricula" then "curriculum_id"
    else (if name == [] then "" else name[..|name| - 1]) + "_id"
  }

  /** `Curricula` keys on `curriculum_id`; any other table keys on its
      lowercased name without the last character, followed by `_id`. The
      id does not depend on the table name's case. */
  lemma EntityIdSpec(generalTable: string)
    ensures Lower(generalTable) == "curricula" ==> EntityId(generalTable) == "curriculum_id"
    ensures Lower(generalTable) != "curricula" && |generalTable| >= 1 ==>
      EntityId(generalTable) == Lower(generalTable)[..|generalTable| - 1] + "_id"
    ensures EntityId(Lower(generalTable)) == EntityId(generalTable)
  {
    LowerIdempotent(generalTable);
  }

  /** The five general tables the tools accept key on the singular id. */
  lemma EntityIdOfTables()
    ensures EntityId("Students") == "student_id"
    ensures EntityId("Curricula") == "curriculum_id"
    ensures EntityId("Homes") == "home_id"
    ensures EntityId("Teachers") == "teacher_id"
    ensures EntityId("Schools") == "school_id"
  {
    PluralEntityId("Students", "students");
    LowerSpelled("Curricula", "curricula");
    PluralEntityId("Homes", "homes");
    PluralEntityId("Teachers", "teachers");
    PluralEntityId("Schools", "schools");
  }

  lemma LowerSpelled(s: string, t: string)
    requires |s| == |t| && forall i :: 0 <= i < |s| ==> LowerChar(s[i]) == t[i]
    ensures Lower(s) == t
  {
  }

  lemma PluralEntityId(table: string, lower: string)
    requires |table| == |lower| && forall i :: 0 <= i < |table| ==> LowerChar(table[i]) == lower[i]
    requires lower != "curricula" && |lower| >= 1
    ensures EntityId(table) == lower[..|lower| - 1] + "_id"
  {
    LowerSpelled(table, lower);
  }

  // ---------------------------------------------------------------------
  // Sanitising user text put inside a SQL literal

  predicate IsQuote(c: char) {
    c == '\'' || c == '"'
  }

  predicate QuoteFree(s: string) {
    forall i :: 0 <= i < |s| ==> !IsQuote(s[i])
  }

  /** `s.replace(c, "")`: no `c` is left, and nothing that was not in `s`
      is added. */
  function RemoveAll(s: string, c: char): (r: string)
    ensures c !in r
    ensures forall x :: x in r ==> x in s
    ensures |r| <= |s|
  {
    if s == [] then [] else RemoveAll(s[..|s| - 1], c) + (if s[|s| - 1] == c then [] else [s[|s| - 1]])
  }

  /** `s.replace("'", "").replace('"', '')`: the text is left without quotes. */
  function Sanitise(s: string): (r: string)
    ensures QuoteFree(r)
    ensures |r| <= |s|
  {
    RemoveAll(RemoveAll(s, '\''), '"')
  }

  /** Reference definition: keep every character that is not a quote. */
  function DropQuotes(s: string): string {
    if s == [] then [] else DropQuotes(s[..|s| - 1]) + (if IsQuote(s[|s| - 1]) then [] else [s[|s| - 1]])
  }

  lemma {:induction false} RemoveAllAppend(a: string, b: string, c: char)
    ensures RemoveAll(a + b, c) == RemoveAll(a, c) + RemoveAll(b, c)
    decreases |b|
  {
    if b == [] {
      assert a + b == a;
    } else {
      assert (a + b)[..|a + b| - 1] == a + b[..|b| - 1];
      RemoveAllAppend(a, b[..|b| - 1], c);
    }
  }

  /** The two `replace` calls remove exactly the quote characters, keeping
      every other character in order. */
  lemma {:induction false} SanitiseIsDropQuotes(s: string)
    ensures Sanitise(s) == DropQuotes(s)
  {
    if s != [] {
      var init, last := s[..|s| - 1], s[|s| - 1];
      SanitiseIsDropQuotes(init);
      var once := RemoveAll(init, '\'') + (if last == '\'' then [] else [last]);
      assert RemoveAll(s, '\'') == once;
      RemoveAllAppend(RemoveAll(init, '\''), if last == '\'' then [] else [last], '"');
      if last != '\'' {
        assert RemoveAll([last], '"') == RemoveAll([], '"') + (if last == '"' then [] else [last]);
      }
    }
  }

  lemma {:induction false} DropQuotesFree(s: string)
    ensures QuoteFree(DropQuotes(s))
    ensures QuoteFree(s) ==> DropQuotes(s) == s
  {
    if s != [] {
      DropQuotesFree(s[..|s| - 1]);
      if QuoteFree(s) {
        assert QuoteFree(s[..|s| - 1]);
        assert s == s[..|s| - 1] + [s[|s| - 1]];
      }
    }
  }

  /** The sanitised text holds no quote, leaves quote-free text as it was,
      and sanitising twice is sanitising once. */
  lemma SanitiseSpec(s: string)
    ensures QuoteFree(Sanitise(s))
    ensures QuoteFree(s) ==> Sanitise(s) == s
    ensures Sanitise(Sanitise(s)) == Sanitise(s)
  {
    SanitiseIsDropQuotes(s);
    DropQuotesFree(s);
    SanitiseIsDropQuotes(Sanitise(s));
    DropQuotesFree(Sanitise(s));
  }

  // ---------------------------------------------------------------------
  // Row formatting

  /** `sep.join(parts)`. */
  function Join(sep: string, parts: seq<string>): string {
    if |parts| == 0 then ""
    else if |parts| == 1 then parts[0]
    else Join(sep, parts[..|parts| - 1]) + sep + parts[|parts| - 1]
  }

  /** `", ".join(map(str, row))`. */
  function FormatRow(row: Row): string {
    Join(", ", row)
  }

  function FormatRowsList(rows: seq<Row>): seq<string> {
    seq(|rows|, i requires 0 <= i < |rows| => FormatRow(rows[i]))
  }

  /** No cell of any row holds a newline. */
  predicate CellsOneLine(rows: seq<Row>) {
    forall r, i :: 0 <= r < |rows| && 0 <= i < |rows[r]| ==> NoNewline(rows[r][i])
  }

  /** `'\n'.join(", ".join(map(str, result)) for result in res)`: no rows give
      the empty text, and rows whose cells hold no newline give one line per
      row, so one newline fewer than there are rows. */
  function FormatRows(rows: seq<Row>): (r: string)
    ensures rows == [] ==> r == ""
    ensures |rows| >= 1 && CellsOneLine(rows) ==> CountChar('\n', r) == |rows| - 1
  {
    JoinedRowsLines(rows);
    Join("\n", FormatRowsList(rows))
  }

  /** The text is on a single line. */
  predicate NoNewline(s: string) {
    '\n' !in s
  }

  lemma {:induction false} JoinCount(c: char, sep: string, parts: seq<string>)
    requires |parts| >= 1
    requires forall i :: 0 <= i < |parts| ==> CountChar(c, parts[i]) == 0
    ensures CountChar(c, sep) == 0 ==> CountChar(c, Join(sep, parts)) == 0
    ensures CountChar(c, sep) == 1 ==> CountChar(c, Join(sep, parts)) == |parts| - 1
  {
    if |parts| > 1 {
      var init := parts[..|parts| - 1];
      JoinCount(c, sep, init);
      CountCharAppend(c, Join(sep, init), sep);
      CountCharAppend(c, Join(sep, init) + sep, parts[|parts| - 1]);
    }
  }

  /** A row whose cells hold no newline is formatted on one line. */
  lemma FormatRowOneLine(row: Row)
    requires forall i :: 0 <= i < |row| ==> NoNewline(row[i])
    ensures NoNewline(FormatRow(row))
  {
    if |row| >= 1 {
      forall i | 0 <= i < |row| ensures CountChar('\n', row[i]) == 0 {
        CountCharNone('\n', row[i]);
      }
      JoinCount('\n', ", ", row);
      assert CountChar('\n', ", ") == 0 by { CountCharNone('\n', ", "); }
      CountCharNone('\n', FormatRow(row));
    }
  }

  /** When no cell holds a newline, joining the formatted rows by newlines
      gives one newline fewer than there are rows. */
  lemma JoinedRowsLines(rows: seq<Row>)
    ensures |rows| >= 1 && CellsOneLine(rows) ==> CountChar('\n', Join("\n", FormatRowsList(rows))) == |rows| - 1
  {
    if |rows| >= 1 && CellsOneLine(rows) {
      var lines := FormatRowsList(rows);
      forall r | 0 <= r < |lines| ensures CountChar('\n', lines[r]) == 0 {
        FormatRowOneLine(rows[r]);
        CountCharNone('\n', lines[r]);
      }
      JoinCount('\n', "\n", lines);
      assert CountChar('\n', "\n") == 1 by {
        assert "\n"[..0] == [];
      }
    }
  }

  // ---------------------------------------------------------------------
  // query_database

  const MAX_RESULT_LEN: nat := 3000

  const TRUNCATION_SUFFIX: string := "...\n(results too long. Output truncated.)"

  /** The result text cut to its first 3000 characters, with a notice: the
      text is at most 3000 characters plus the notice, and begins as the
      result does. */
  function Truncate(ret: string): (r: string)
    ensures |r| <= MAX_RESULT_LEN + |TRUNCATION_SUFFIX|
    ensures var k := if |ret| < MAX_RESULT_LEN then |ret| else MAX_RESULT_LEN;
      |r| >= k && r[..k] == ret[..k]
  {
    if |ret| > MAX_RESULT_LEN then ret[..MAX_RESULT_LEN] + TRUNCATION_SUFFIX else ret
  }

  /** A result of at most 3000 characters is kept whole; a longer one keeps
      its first 3000 characters and gains the notice; truncating again
      changes nothing. */
  lemma TruncateSpec(ret: string)
    ensures |ret| <= MAX_RESULT_LEN ==> Truncate(ret) == ret
    ensures |ret| > MAX_RESULT_LEN ==> Truncate(ret) == ret[..MAX_RESULT_LEN] + TRUNCATION_SUFFIX
    ensures Truncate(Truncate(ret)) == Truncate(ret)
  {
    if |ret| > MAX_RESULT_LEN {
      var t := Truncate(ret);
      assert t[..MAX_RESULT_LEN] == ret[..MAX_RESULT_LEN];
    }
  }

  /** The answer when executing the query raised. */
  function WrongQuery(error: string): string {
    "Wrong query, encountered exception " + error + "."
  }

  /** The text `query_database` puts before the result. */
  function ResultHeader(query: string): string {
    "Query: " + query + "\nResult: "
  }

  /** `query_database`: the query and its truncated, formatted result, or the
      exception's text. A successful answer is never longer than its header,
      3000 characters and the truncation notice. */
  function QueryDatabase(query: string, execute: Execute): (r: string)
    ensures execute(query).Success? ==> |r| <= |ResultHeader(query)| + MAX_RESULT_LEN + |TRUNCATION_SUFFIX|
  {
    match execute(query)
    case Failure(e) => WrongQuery(e)
    case Success(rows) => ResultHeader(query) + Truncate(FormatRows(rows))
  }

  /** A failed query gives the exception notice instead of raising, and the
      two kinds of answer are told apart by their first letter. A successful
      answer whose formatted rows fit in 3000 characters carries them whole
      after the header; when no cell holds a newline, that answer has one
      line for the header and one more per row, besides the query's own
      newlines. A longer result is cut to exactly 3000 characters followed by
      the notice. */
  lemma QueryDatabaseSpec(query: string, execute: Execute)
    ensures execute(query).Failure? ==> QueryDatabase(query, execute) == WrongQuery(execute(query).error)
    ensures QueryDatabase(query, execute)[..1] == (if execute(query).Success? then "Q" else "W")
    ensures execute(query).Success? && |FormatRows(execute(query).value)| <= MAX_RESULT_LEN ==>
      var out := QueryDatabase(query, execute);
      var rows := execute(query).value;
      && |out| >= |ResultHeader(query)|
      && out[..|ResultHeader(query)|] == ResultHeader(query)
      && out[|ResultHeader(query)|..] == FormatRows(rows)
      && (|rows| >= 1 && CellsOneLine(rows) ==> CountChar('\n', out) == CountChar('\n', query) + |rows|)
    ensures execute(query).Success? && |FormatRows(execute(query).value)| > MAX_RESULT_LEN ==>
      var out := QueryDatabase(query, execute);
      var head := ResultHeader(query);
      && |out| == |head| + MAX_RESULT_LEN + |TRUNCATION_SUFFIX|
      && out[..|head|] == head
      && out[|head|..|head| + MAX_RESULT_LEN] == FormatRows(execute(query).value)[..MAX_RESULT_LEN]
      && out[|head| + MAX_RESULT_LEN..] == TRUNCATION_SUFFIX
  {
    var out := QueryDatabase(query, execute);
    if execute(query).Success? {
      var rows := execute(query).value;
      var head := ResultHeader(query);
      var f := FormatRows(rows);
      TruncateSpec(f);
      assert out == head + Truncate(f);
      assert out[..|head|] == head;
      assert out[0] == 'Q';
      if |f| <= MAX_RESULT_LEN {
        assert out[|head|..] == f;
        if |rows| >= 1 && CellsOneLine(rows) {
          HeaderLines(query);
          CountCharAppend('\n', head, f);
        }
      } else {
        assert out == head + f[..MAX_RESULT_LEN] + TRUNCATION_SUFFIX;
      }
    } else {
      assert out[0] == 'W';
    }
  }

  /** The header holds the query's newlines and one more. */
  lemma HeaderLines(query: string)
    ensures CountChar('\n', ResultHeader(query)) == CountChar('\n', query) + 1
  {
    CountCharNone('\n', "Query: ");
    CountCharNone('\n', "Result: ");
    assert CountChar('\n', "\nResult: ") == 1 by {
      assert "\nResult: " == "\n" + "Result: ";
      CountCharAppend('\n', "\n", "Result: ");
      assert "\n"[..0] == [];
    }
    CountCharAppend('\n', "Query: ", query);
    CountCharAppend('\n', "Query: " + query, "\nResult: ");
  }

  // ---------------------------------------------------------------------
  // The questionnaire queries

  /** The join of a general table with its answers and questions, as far as
      the `WHERE` clause's opening quote. */
  function JoinClause(generalTable: string, answersTable: string, entriesTable: string): string {
    var id := EntityId(generalTable);
    "        FROM " + generalTable + " AS GTab\n"
    + "        JOIN " + answersTable + " AS ATab ON ATab." + id + " = GTab." + id + "\n"
    + "        JOIN " + entriesTable + " AS ETab ON ETab.Code = ATab.Code\n"
  }

  /** The query of `get_possible_answers_to_question`. */
  function AnswersQuery(generalTable: string, answersTable: string, entriesTable: string, questionCode: string): string {
    "\n        SELECT DISTINCT ATab.Answer\n" + JoinClause(generalTable, answersTable, entriesTable)
    + "        WHERE ETab.Code = '" + Sanitise(questionCode) + "'\n    "
  }

  /** The query of `get_questions_of_given_type`. */
  function QuestionsQuery(generalTable: string, answersTable: string, entriesTable: string, questionType: string): string {
    "\n        SELECT DISTINCT ETab.Question, ETab.Code\n" + JoinClause(generalTable, answersTable, entriesTable)
    + "        WHERE ETab.Type = '" + Sanitise(questionType) + "'\n    "
  }

  lemma QuoteFreeCount(s: string)
    requires QuoteFree(s)
    ensures CountChar('\'', s) == 0
  {
    CountCharNone('\'', s);
  }

  /** The user's code or type cannot close the SQL literal it is put in: the
      query holds exactly as many single quotes as it would for an empty code,
      and the code lands between the literal's two quotes free of quotes. */
  lemma QueriesKeepLiteralClosed(g: string, a: string, e: string, text: string)
    ensures CountChar('\'', AnswersQuery(g, a, e, text)) == CountChar('\'', AnswersQuery(g, a, e, ""))
    ensures CountChar('\'', QuestionsQuery(g, a, e, text)) == CountChar('\'', QuestionsQuery(g, a, e, ""))
    ensures QuoteFree(Sanitise(text))
  {
    SanitiseSpec(text);
    SanitiseSpec("");
    QuoteFreeCount(Sanitise(text));
    QuoteFreeCount(Sanitise(""));
    var tail := "'\n    ";
    var ah := "\n        SELECT DISTINCT ATab.Answer\n" + JoinClause(g, a, e) + "        WHERE ETab.Code = '";
    var qh := "\n        SELECT DISTINCT ETab.Question, ETab.Code\n" + JoinClause(g, a, e) + "        WHERE ETab.Type = '";
    assert AnswersQuery(g, a, e, text) == ah + Sanitise(text) + tail;
    assert AnswersQuery(g, a, e, "") == ah + Sanitise("") + tail;
    assert QuestionsQuery(g, a, e, text) == qh + Sanitise(text) + tail;
    assert QuestionsQuery(g, a, e, "") == qh + Sanitise("") + tail;
    CountCharAppend('\'', ah, Sanitise(text));
    CountCharAppend('\'', ah + Sanitise(text), tail);
    CountCharAppend('\'', ah, Sanitise(""));
    CountCharAppend('\'', ah + Sanitise(""), tail);
    CountCharAppend('\'', qh, Sanitise(text));
    CountCharAppend('\'', qh + Sanitise(text), tail);
    CountCharAppend('\'', qh, Sanitise(""));
    CountCharAppend('\'', qh + Sanitise(""), tail);
  }

  // ---------------------------------------------------------------------
  // get_possible_answers_to_question

  /** Each row's cells joined by `, `, each followed by a newline. */
  function AnswerLines(rows: seq<Row>): string {
    if rows == [] then "" else AnswerLines(rows[..|rows| - 1]) + FormatRow(rows[|rows| - 1]) + "\n"
  }

  /** The answers are the rows formatted as `query_database` formats them,
      with a newline after the last row as well. */
  lemma {:induction false} AnswerLinesAreFormatRows(rows: seq<Row>)
    ensures rows == [] ==> AnswerLines(rows) == ""
    ensures rows != [] ==> AnswerLines(rows) == FormatRows(rows) + "\n"
  {
    if rows != [] {
      AnswerLinesAreJoined(rows);
    }
  }

  lemma {:induction false} AnswerLinesAreJoined(rows: seq<Row>)
    requires rows != []
    ensures AnswerLines(rows) == Join("\n", FormatRowsList(rows)) + "\n"
  {
    if |rows| > 1 {
      var init := rows[..|rows| - 1];
      AnswerLinesAreJoined(init);
      assert FormatRowsList(rows)[..|rows| - 1] == FormatRowsList(init);
    } else {
      assert rows[..0] == [];
    }
  }

  lemma AnswerLinesSnoc(rows: seq<Row>, i: nat)
    requires i < |rows|
    ensures AnswerLines(rows[..i + 1]) == AnswerLines(rows[..i]) + FormatRow(rows[i]) + "\n"
  {
    assert rows[..i + 1][..i] == rows[..i];
  }

  /** `get_possible_answers_to_question`: run the answers query and list the
      rows one per line, or give the exception notice. */
  method GetPossibleAnswersToQuestion(generalTable: string, answersTable: string, entriesTable: string,
                                      questionCode: string, execute: Execute)
    returns (out: string)
    ensures var res := execute(AnswersQuery(generalTable, answersTable, entriesTable, questionCode));
      && (res.Failure? ==> out == WrongQuery(res.error))
      && (res.Success? ==> out == AnswerLines(res.value))
  {
    var query := AnswersQuery(generalTable, answersTable, entriesTable, questionCode);
    var res := execute(query);
    if res.Failure? {
      return WrongQuery(res.error);
    }
    var rows := res.value;
    var ret := "";
    for i := 0 to |rows|
      invariant ret == AnswerLines(rows[..i])
    {
      AnswerLinesSnoc(rows, i);
      ret := ret + FormatRow(rows[i]) + "\n";
    }
    assert rows[..|rows|] == rows;
    return ret;
  }

  // ---------------------------------------------------------------------
  // get_questions_of_given_type

  /** One question of the result: `(Code: <code>) <question>` and a newline. */
  function QuestionLine(question: string, code: string): string {
    "(Code: " + code + ") " + question + "\n"
  }

  /** The questions' lines, in row order. */
  function QuestionLines(rows: seq<(string, string)>): string {
    if rows == [] then "" else QuestionLines(rows[..|rows| - 1]) + QuestionLine(rows[|rows| - 1].0, rows[|rows| - 1].1)
  }

  /** `''.join(parts)`. */
  function Concat(parts: seq<string>): string {
    if parts == [] then "" else Concat(parts[..|parts| - 1]) + parts[|parts| - 1]
  }

  /** Listing two batches of rows is listing each in turn. */
  lemma {:induction false} QuestionLinesAppend(a: seq<(string, string)>, b: seq<(string, string)>)
    ensures QuestionLines(a + b) == QuestionLines(a) + QuestionLines(b)
    decreases |b|
  {
    if b == [] {
      assert a + b == a;
    } else {
      var init, last := b[..|b| - 1], b[|b| - 1];
      assert (a + b)[..|a + b| - 1] == a + init;
      assert (a + b)[|a + b| - 1] == last;
      QuestionLinesAppend(a, init);
      assert QuestionLines(b) == QuestionLines(init) + QuestionLine(last.0, last.1);
    }
  }

  /** When no question or code holds a newline, every row is exactly one line. */
  lemma {:induction false} QuestionLinesCount(rows: seq<(string, string)>)
    requires forall i :: 0 <= i < |rows| ==> NoNewline(rows[i].0) && NoNewline(rows[i].1)
    ensures CountChar('\n', QuestionLines(rows)) == |rows|
  {
    if rows != [] {
      var init, last := rows[..|rows| - 1], rows[|rows| - 1];
      QuestionLinesCount(init);
      CountCharNone('\n', last.0);
      CountCharNone('\n', last.1);
      CountCharNone('\n', "(Code: ");
      CountCharNone('\n', ") ");
      assert CountChar('\n', "\n") == 1 by { assert "\n"[..0] == []; }
      CountCharAppend('\n', "(Code: ", last.1);
      CountCharAppend('\n', "(Code: " + last.1, ") ");
      CountCharAppend('\n', "(Code: " + last.1 + ") ", last.0);
      CountCharAppend('\n', "(Code: " + last.1 + ") " + last.0, "\n");
      CountCharAppend('\n', QuestionLines(init), QuestionLine(last.0, last.1));
    }
  }

  /** `get_questions_of_given_type`: run the questions query and list each
      question after its code, or give the exception notice. The query selects
      two columns, so every row unpacks into a question and a code. */
  method GetQuestionsOfGivenType(generalTable: string, answersTable: string, entriesTable: string,
                                 questionType: string, execute: string -> Result<seq<(string, string)>, string>)
    returns (out: string)
    ensures var res := execute(QuestionsQuery(generalTable, answersTable, entriesTable, questionType));
      && (res.Failure? ==> out == WrongQuery(res.error))
      && (res.Success? ==> out == QuestionLines(res.value))
  {
    var query := QuestionsQuery(generalTable, answersTable, entriesTable, questionType);
    var res := execute(query);
    if res.Failure? {
      return WrongQuery(res.error);
    }
    var rows := res.value;
    var questions: seq<string> := [];
    for i := 0 to |rows|
      invariant Concat(questions) == QuestionLines(rows[..i])
    {
      var (question, code) := rows[i];
      ghost var before := questions;
      questions := questions + ["(Code: " + code + ") " + question + "\n"];
      assert questions[..|questions| - 1] == before;
      assert rows[..i + 1][..i] == rows[..i];
    }
    assert rows[..|rows|] == rows;
    return Concat(questions);
  }
}
