/**
 * The summary computed when the quiz is complete: accuracy, XP, the list
 * of categories that scored, and the eleven-cell row appended to the
 * results sheet.
 */
module Results {
  import opened Wrappers
  import opened Bank
  import opened Engine

  /** Accuracy in percent: the share of the N questions answered correctly, times 100 (kept exact). */
  function Accuracy(correct: nat): real
  {
    (correct as real) / (N as real) * 100.0
  }

  /** Accuracy is zero only with no correct answer, 100 exactly when all N are correct, and grows with every correct answer. */
  lemma AccuracyRange(correct: nat, more: nat)
    ensures Accuracy(correct) * (N as real) == (correct as real) * 100.0
    ensures Accuracy(correct) == 0.0 <==> correct == 0
    ensures Accuracy(correct) == 100.0 <==> correct == N
    ensures correct <= N ==> 0.0 <= Accuracy(correct) <= 100.0
    ensures correct < more ==> Accuracy(correct) < Accuracy(more)
  {
  }

  /** XP: the score plus the accuracy. */
  function Xp(score: nat, accuracy: real): real
  {
    score as real + accuracy
  }

  /** The categories of `cs`, in their order, whose tally count is positive. */
  function Scoring(m: map<Category, nat>, cs: seq<Category>): (r: seq<Category>)
    requires forall c: Category :: c in m
    ensures forall c :: c in r <==> c in cs && m[c] > 0
    ensures |r| <= |cs|
  {
    if cs == [] then []
    else if m[cs[0]] > 0 then [cs[0]] + Scoring(m, cs[1..])
    else Scoring(m, cs[1..])
  }

  /** Strictly increasing in the tally's key order, so in particular without repeats. */
  predicate Ascending(r: seq<Category>)
  {
    forall i, j :: 0 <= i < j < |r| ==> OrderIndex(r[i]) < OrderIndex(r[j])
  }

  /** The tail of an ascending list is ascending and lies above its head. */
  lemma AscendingTail(cs: seq<Category>)
    requires cs != [] && Ascending(cs)
    ensures Ascending(cs[1..])
    ensures forall c :: c in cs[1..] ==> OrderIndex(cs[0]) < OrderIndex(c)
  {
    var tail := cs[1..];
    forall i, j | 0 <= i < j < |tail| ensures OrderIndex(tail[i]) < OrderIndex(tail[j]) {
      assert tail[i] == cs[i + 1] && tail[j] == cs[j + 1];
    }
    forall c | c in tail ensures OrderIndex(cs[0]) < OrderIndex(c) {
      var k :| 0 <= k < |tail| && tail[k] == c;
      assert cs[k + 1] == c;
    }
  }

  /** Keeping some of an ascending list keeps it ascending. */
  lemma {:induction false} ScoringAscending(m: map<Category, nat>, cs: seq<Category>)
    requires forall c: Category :: c in m
    requires Ascending(cs)
    ensures Ascending(Scoring(m, cs))
    decreases |cs|
  {
    if cs != [] {
      AscendingTail(cs);
      ScoringAscending(m, cs[1..]);
    }
  }

  /** The categories with a positive count, in the tally's order. */
  function AchievedSkills(m: map<Category, nat>): seq<Category>
    requires forall c: Category :: c in m
  {
    Scoring(m, CategoryOrder)
  }

  /** The achieved list names exactly the scoring categories, each once, in Tracing, Debug, Concept, DS order. */
  lemma AchievedSkillsExact(m: map<Category, nat>)
    requires forall c: Category :: c in m
    ensures forall c :: c in AchievedSkills(m) <==> m[c] > 0
    ensures Ascending(AchievedSkills(m))
    ensures AchievedSkills(m) == [] <==> m[Tracing] + m[Debug] + m[Concept] + m[DS] == 0
  {
    var cs := CategoryOrder;
    assert forall c: Category :: c in cs by {
      forall c: Category ensures c in cs {
        if c.Tracing? { assert cs[0] == c; }
        else if c.Debug? { assert cs[1] == c; }
        else if c.Concept? { assert cs[2] == c; }
        else { assert cs[3] == c; }
      }
    }
    assert Ascending(cs) by {
      forall i, j | 0 <= i < j < |cs| ensures OrderIndex(cs[i]) < OrderIndex(cs[j]) {
        assert OrderIndex(cs[i]) == i && OrderIndex(cs[j]) == j;
      }
    }
    ScoringAscending(m, cs);
    var r := AchievedSkills(m);
    if r == [] {
      assert Tracing !in r && Debug !in r && Concept !in r && DS !in r;
    } else {
      assert r[0] in r;
    }
  }

  /** The key names joined with commas, as `",".join(...)` does. */
  function Join(parts: seq<string>): string
  {
    if parts == [] then ""
    else if |parts| == 1 then parts[0]
    else parts[0] + "," + Join(parts[1..])
  }

  /** The pieces between commas, as Python's `s.split(",")`: the empty string gives one empty piece. */
  function Split(s: string): (parts: seq<string>)
    ensures |parts| >= 1
  {
    if s == [] then [""]
    else if s[0] == ',' then [""] + Split(s[1..])
    else
      var rest := Split(s[1..]);
      [[s[0]] + rest[0]] + rest[1..]
  }

  /** A text without commas is one piece. */
  predicate CommaFree(s: string)
  {
    forall i :: 0 <= i < |s| ==> s[i] != ','
  }

  /** Splitting a comma-free text, or one that continues after a comma, puts it whole in the first piece. */
  lemma {:induction false} SplitPrefix(a: string, b: string)
    requires CommaFree(a)
    ensures Split(a) == [a]
    ensures Split(a + "," + b) == [a] + Split(b)
    decreases |a|
  {
    if a == [] {
      assert a + "," + b == [','] + b;
      assert ([','] + b)[1..] == b;
    } else {
      var t := a[1..];
      assert CommaFree(t) by {
        forall i | 0 <= i < |t| ensures t[i] != ',' { assert t[i] == a[i + 1]; }
      }
      SplitPrefix(t, b);
      assert a == [a[0]] + t;
      assert (a + "," + b)[0] == a[0] && (a + "," + b)[1..] == t + "," + b;
    }
  }

  /** Splitting a join of comma-free pieces gives the pieces back (for a non-empty list). */
  lemma {:induction false} SplitJoin(parts: seq<string>)
    requires |parts| >= 1
    requires forall i :: 0 <= i < |parts| ==> CommaFree(parts[i])
    ensures Split(Join(parts)) == parts
    decreases |parts|
  {
    if |parts| == 1 {
      SplitPrefix(parts[0], "");
    } else {
      SplitPrefix(parts[0], Join(parts[1..]));
      SplitJoin(parts[1..]);
      assert parts == [parts[0]] + parts[1..];
    }
  }

  /** Joining the pieces of a split gives the text back, for every text. */
  lemma {:induction false} JoinSplit(s: string)
    ensures Join(Split(s)) == s
    decreases |s|
  {
    if s != [] {
      JoinSplit(s[1..]);
      var rest := Split(s[1..]);
      if s[0] == ',' {
        assert Split(s) == [""] + rest;
        assert s == "," + s[1..];
      } else {
        var parts := Split(s);
        assert parts == [[s[0]] + rest[0]] + rest[1..];
        if |rest| == 1 {
          assert Join(parts) == [s[0]] + rest[0];
          assert s == [s[0]] + s[1..];
        } else {
          assert parts[1..] == rest[1..];
          assert Join(rest) == rest[0] + "," + Join(rest[1..]);
          assert Join(parts) == [s[0]] + rest[0] + "," + Join(rest[1..]);
          assert s == [s[0]] + s[1..];
        }
      }
    }
  }

  /** The skills column: the achieved categories' names joined with commas. */
  function SkillsCsv(m: map<Category, nat>): string
    requires forall c: Category :: c in m
  {
    Join(Names(AchievedSkills(m)))
  }

  /** The key names of a list of categories. */
  function Names(cs: seq<Category>): (r: seq<string>)
    ensures |r| == |cs|
    ensures forall i :: 0 <= i < |cs| ==> r[i] == CategoryName(cs[i])
  {
    if cs == [] then [] else [CategoryName(cs[0])] + Names(cs[1..])
  }

  /** The category a key name stands for, if any. */
  function CategoryOf(name: string): Option<Category>
  {
    if name == "Tracing" then Some(Tracing)
    else if name == "Debug" then Some(Debug)
    else if name == "Concept" then Some(Concept)
    else if name == "DS" then Some(DS)
    else None
  }

  /** Key names read back: `CategoryOf` inverts `CategoryName`, and no key name holds a comma. */
  lemma CategoryNames(c: Category)
    ensures CategoryOf(CategoryName(c)) == Some(c)
    ensures CommaFree(CategoryName(c)) && CategoryName(c) != ""
  {
  }

  /** Read a skills column back into categories; the empty column lists none. */
  function ParseSkills(csv: string): Option<seq<Category>>
  {
    if csv == "" then Some([]) else ParseNames(Split(csv))
  }

  /** The categories named by a list of key names, failing on a name that is not a key. */
  function ParseNames(names: seq<string>): Option<seq<Category>>
  {
    if names == [] then Some([])
    else match (CategoryOf(names[0]), ParseNames(names[1..]))
      case (Some(c), Some(cs)) => Some([c] + cs)
      case _ => None
  }

  /** Key names read back into the categories they came from. */
  lemma {:induction false} ParseNamesOfNames(cs: seq<Category>)
    ensures ParseNames(Names(cs)) == Some(cs)
    decreases |cs|
  {
    if cs != [] {
      CategoryNames(cs[0]);
      ParseNamesOfNames(cs[1..]);
      assert Names(cs)[1..] == Names(cs[1..]);
      assert cs == [cs[0]] + cs[1..];
    }
  }

  /** The skills column determines which categories scored: reading it back gives the achieved list. */
  lemma SkillsCsvRoundTrip(m: map<Category, nat>)
    requires forall c: Category :: c in m
    ensures ParseSkills(SkillsCsv(m)) == Some(AchievedSkills(m))
    ensures SkillsCsv(m) == "" <==> AchievedSkills(m) == []
  {
    var cs := AchievedSkills(m);
    var names := Names(cs);
    ParseNamesOfNames(cs);
    if cs != [] {
      forall i | 0 <= i < |names| ensures CommaFree(names[i]) {
        CategoryNames(cs[i]);
      }
      SplitJoin(names);
      CategoryNames(cs[0]);
      if |names| == 1 {
        assert Join(names) == names[0];
      } else {
        assert Join(names) == names[0] + "," + Join(names[1..]);
        assert |Join(names)| >= 1;
      }
    }
  }

  /** The values appended to the results sheet. */
  datatype ResultRecord = ResultRecord(
    name: string,
    score: nat,
    accuracy: real,
    totalTime: int,
    debug: nat,
    tracing: nat,
    concept: nat,
    ds: nat,
    xp: real,
    skills: string,
    timestamp: string)

  /**
   * The record of a session; `totalTime` is the whole number of seconds
   * since the start and `timestamp` the current date and time as text,
   * both supplied by the clock.
   */
  function MakeResult(s: Session, totalTime: int, timestamp: string): ResultRecord
    requires WellFormed(s)
  {
    var accuracy := Accuracy(s.correct);
    ResultRecord(s.name, s.score, accuracy, totalTime,
      s.skills[Debug], s.skills[Tracing], s.skills[Concept], s.skills[DS],
      Xp(s.score, accuracy), SkillsCsv(s.skills), timestamp)
  }

  /** One cell of a sheet row. */
  datatype Cell = Text(text: string) | Whole(n: int) | Decimal(x: real)

  /** The row in the sheet's column order. */
  function ToRow(r: ResultRecord): seq<Cell>
  {
    [Text(r.name), Whole(r.score), Decimal(r.accuracy), Whole(r.totalTime),
     Whole(r.debug), Whole(r.tracing), Whole(r.concept), Whole(r.ds),
     Decimal(r.xp), Text(r.skills), Text(r.timestamp)]
  }

  /** Read a row of the sheet back into a record; any other shape is rejected. */
  function FromRow(row: seq<Cell>): Option<ResultRecord>
  {
    if |row| == 11
      && row[0].Text? && row[1].Whole? && row[1].n >= 0 && row[2].Decimal? && row[3].Whole?
      && row[4].Whole? && row[4].n >= 0 && row[5].Whole? && row[5].n >= 0
      && row[6].Whole? && row[6].n >= 0 && row[7].Whole? && row[7].n >= 0
      && row[8].Decimal? && row[9].Text? && row[10].Text?
    then
      Some(ResultRecord(row[0].text, row[1].n, row[2].x, row[3].n,
        row[4].n, row[5].n, row[6].n, row[7].n, row[8].x, row[9].text, row[10].text))
    else None
  }

  /** Every record survives being written as a row and read back. */
  lemma FromRowToRow(r: ResultRecord)
    ensures FromRow(ToRow(r)) == Some(r)
  {
  }

  /** A row that reads back as a record is exactly that record's row. */
  lemma ToRowFromRow(row: seq<Cell>)
    ensures FromRow(row).Some? ==> ToRow(FromRow(row).value) == row
  {
    if FromRow(row).Some? {
      var r := FromRow(row).value;
      assert |ToRow(r)| == |row|;
      forall i | 0 <= i < 11 ensures ToRow(r)[i] == row[i] {
      }
    }
  }

  /**
   * The row of a session has eleven cells: name, score, accuracy, time,
   * then the Debug, Tracing, Concept and DS counts, XP, the skills column
   * and the timestamp.
   */
  lemma RowColumns(s: Session, totalTime: int, timestamp: string)
    requires WellFormed(s)
    ensures var row := ToRow(MakeResult(s, totalTime, timestamp));
      && |row| == 11
      && row[0] == Text(s.name) && row[1] == Whole(s.score)
      && row[2] == Decimal(Accuracy(s.correct)) && row[3] == Whole(totalTime)
      && row[4] == Whole(s.skills[Debug]) && row[5] == Whole(s.skills[Tracing])
      && row[6] == Whole(s.skills[Concept]) && row[7] == Whole(s.skills[DS])
      && row[8] == Decimal(s.score as real + Accuracy(s.correct))
      && row[9] == Text(SkillsCsv(s.skills)) && row[10] == Text(timestamp)
  {
  }

  /**
   * The record of a completed quiz on the page's bank: the four counts sum
   * to the correct count, at most 5 are DS and at most 25 in all, so the
   * accuracy stays below 100; XP is 30 points per correct answer plus the
   * accuracy; and the skills column names exactly the scoring categories,
   * empty exactly when nothing was answered correctly.
   */
  lemma CompletedResult(s: Session, totalTime: int, timestamp: string)
    requires Inv(QuizBank(), s) && s.complete
    ensures var r := MakeResult(s, totalTime, timestamp);
      && r.debug + r.tracing + r.concept + r.ds == s.correct
      && r.ds <= 5 && s.correct <= 25
      && r.score == 30 * s.correct
      && r.accuracy * (N as real) == (s.correct as real) * 100.0
      && 0.0 <= r.accuracy < 100.0
      && r.xp == (30 * s.correct) as real + r.accuracy
      && ParseSkills(r.skills) == Some(AchievedSkills(s.skills))
      && (forall c :: c in AchievedSkills(s.skills) <==> s.skills[c] > 0)
      && (r.skills == "" <==> s.correct == 0)
  {
    InvBounds(QuizBank(), s);
    AccuracyRange(s.correct, N);
    AchievedSkillsExact(s.skills);
    SkillsCsvRoundTrip(s.skills);
  }
}
