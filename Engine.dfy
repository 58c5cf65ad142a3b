/**
 * The quiz session as a value, and the three button handlers of the page
 * (start, submit an answer, re-entry) as transitions on it.  The page that
 * is shown, and so the button that exists, is decided by the `started` and
 * `complete` flags; a press of a button that is not on screen cannot happen,
 * so a transition on any other page leaves the session as it is.
 *
 * The transitions take the question bank as a parameter `bank`; the page
 * itself always passes `Bank.Questions`.  The lemmas hold for every bank
 * with the layout of that one (`Bank.Layout`), which `Bank.BankLayout`
 * proves of it.
 */
module Engine {
  import opened Wrappers
  import opened Bank

  /** The session record the page keeps between reruns. */
  datatype Session = Session(
    started: bool,
    qIndex: QuestionIndex,
    score: nat,
    correct: nat,
    skills: map<Category, nat>,
    startTime: Option<real>,
    name: string,
    complete: bool)

  /** The record installed on the first run of the page and after re-entry. */
  function Initial(): (r: Session)
    ensures WellFormed(r) && PageOf(r) == Landing
  {
    var tally := map[Tracing := 0, Debug := 0, Concept := 0, DS := 0];
    assert forall c: Category :: c in tally by {
      forall c: Category ensures c in tally {
        if c.Tracing? {} else if c.Debug? {} else if c.Concept? {} else {}
      }
    }
    Session(false, 0, 0, 0, tally, None, "", false)
  }

  /** The three pages of the application. */
  datatype Page = Landing | QuizPage | Results

  /** Which page a session renders: landing, quiz, or the results summary. */
  function PageOf(s: Session): Page
  {
    if !s.started && !s.complete then Landing
    else if s.started && !s.complete then QuizPage
    else Results
  }

  /** The tally has a count for every category. */
  predicate WellFormed(s: Session)
  {
    forall c: Category :: c in s.skills
  }

  /** The sum of the four tally counts. */
  function TallySum(m: map<Category, nat>): nat
    requires forall c: Category :: c in m
  {
    m[Tracing] + m[Debug] + m[Concept] + m[DS]
  }

  /** Python truthiness of the radio selection: nothing chosen, or the empty string, is false. */
  predicate Selected(ans: Option<string>)
  {
    ans.Some? && ans.value != ""
  }

  /** The start button: accepted on the landing page with a non-empty name. */
  function Start(s: Session, nameInput: string, now: real): Session
  {
    if PageOf(s) == Landing && nameInput != "" then
      s.(name := nameInput, started := true, startTime := Some(now))
    else
      s
  }

  /** Grade a choice against question `q`: an exact match scores, anything else changes nothing. */
  function Grade(s: Session, q: Question, choice: string): (r: Session)
    requires WellFormed(s)
    ensures WellFormed(r)
  {
    if choice == q.answer then
      s.(score := s.score + 10 * q.difficulty,
         correct := s.correct + 1,
         skills := s.skills[q.category := s.skills[q.category] + 1])
    else s
  }

  /** Move to the next question, or after the last one complete the quiz. */
  function Advance(s: Session): Session
  {
    if s.qIndex < N - 1 then s.(qIndex := s.qIndex + 1)
    else s.(complete := true, started := false)
  }

  /** The submit button on the quiz page: with a selection, grade it against the current question, then advance. */
  function Submit(bank: seq<Question>, s: Session, ans: Option<string>): (r: Session)
    requires |bank| == N && WellFormed(s)
    ensures WellFormed(r)
  {
    if PageOf(s) != QuizPage || !Selected(ans) then s
    else Advance(Grade(s, bank[s.qIndex], ans.value))
  }

  /** The re-entry button on the results page: every key is dropped and the initial record reinstalled. */
  function ReEnter(s: Session): Session
  {
    if PageOf(s) == Results then Initial() else s
  }

  /** A user action on the page. */
  datatype Event = Initiate(nameInput: string, now: real) | Execute(ans: Option<string>) | ReEntry

  /** The session after one action. */
  function Step(bank: seq<Question>, s: Session, e: Event): (r: Session)
    requires |bank| == N && WellFormed(s)
    ensures WellFormed(r)
  {
    match e
    case Initiate(nameInput, now) => Start(s, nameInput, now)
    case Execute(ans) => Submit(bank, s, ans)
    case ReEntry => ReEnter(s)
  }

  /** The session after a sequence of actions. */
  function Run(bank: seq<Question>, s: Session, es: seq<Event>): (r: Session)
    requires |bank| == N && WellFormed(s)
    ensures WellFormed(r)
    decreases |es|
  {
    if es == [] then s else Run(bank, Step(bank, s, es[0]), es[1..])
  }

  /** The radio widget offers nothing but the current question's options. */
  predicate FromWidget(bank: seq<Question>, s: Session, e: Event)
    requires |bank| == N
  {
    e.Execute? && e.ans.Some? ==> e.ans.value in bank[s.qIndex].options
  }

  /** Every action of the sequence is one the page can produce at that point. */
  predicate WidgetRun(bank: seq<Question>, s: Session, es: seq<Event>)
    requires |bank| == N && WellFormed(s)
    decreases |es|
  {
    es == [] || (FromWidget(bank, s, es[0]) && WidgetRun(bank, Step(bank, s, es[0]), es[1..]))
  }

  /** How many questions have been answered: the index, or all of them once complete. */
  function Answered(s: Session): nat
  {
    if s.complete then N else s.qIndex
  }

  /** What holds of every session reachable from the initial record. */
  ghost predicate Inv(bank: seq<Question>, s: Session)
  {
    && |bank| == N
    && WellFormed(s)
    && !(s.started && s.complete)
    && (PageOf(s) == Landing ==> s == Initial())
    && (PageOf(s) != Landing ==> s.name != "" && s.startTime.Some?)
    && (s.complete ==> s.qIndex == N - 1)
    && TallySum(s.skills) == s.correct
    && s.score == 30 * s.correct
    && (forall c :: c in s.skills ==> s.skills[c] <= Scorable(bank, c, Answered(s)))
  }

  /** The initial record is the pristine landing state, with every count zero and no name. */
  lemma InitialState(bank: seq<Question>)
    requires |bank| == N
    ensures Inv(bank, Initial()) && PageOf(Initial()) == Landing
    ensures !Initial().started && !Initial().complete && Initial().qIndex == 0
    ensures Initial().score == 0 && Initial().correct == 0 && Initial().name == ""
    ensures Initial().startTime == None
    ensures forall c :: c in Initial().skills && Initial().skills[c] == 0
  {
  }

  /** Start: ignored unless on the landing page with a name; otherwise it records the name and clock and changes no counter. */
  lemma StartEffect(s: Session, nameInput: string, now: real)
    ensures nameInput == "" || PageOf(s) != Landing ==> Start(s, nameInput, now) == s
    ensures PageOf(s) == Landing && nameInput != "" ==>
      var r := Start(s, nameInput, now);
      && r.name == nameInput && r.started && r.startTime == Some(now)
      && PageOf(r) == QuizPage
      && r.qIndex == s.qIndex && r.score == s.score && r.correct == s.correct
      && r.skills == s.skills && r.complete == s.complete
  {
  }

  /**
   * Submit on the quiz page with a selection: an exact match adds ten times
   * the difficulty to the score and one to the correct count and to the
   * question's category, anything else changes no count; then the index
   * moves on by one, or on the last question the session completes.
   * Without a selection, or off the quiz page, nothing changes.
   */
  lemma SubmitEffect(bank: seq<Question>, s: Session, ans: Option<string>)
    requires |bank| == N && WellFormed(s)
    ensures PageOf(s) != QuizPage || !Selected(ans) ==> Submit(bank, s, ans) == s
    ensures PageOf(s) == QuizPage && Selected(ans) ==>
      var q := bank[s.qIndex];
      var hit := ans.value == q.answer;
      var r := Submit(bank, s, ans);
      && r.score == s.score + (if hit then 10 * q.difficulty else 0)
      && r.correct == s.correct + (if hit then 1 else 0)
      && (forall c :: r.skills[c] == s.skills[c] + (if hit && c == q.category then 1 else 0))
      && r.name == s.name && r.startTime == s.startTime
      && (s.qIndex < N - 1 ==> r.qIndex == s.qIndex + 1 && PageOf(r) == QuizPage)
      && (s.qIndex == N - 1 ==> r.qIndex == s.qIndex && r.complete && !r.started && PageOf(r) == Results)
      && Answered(r) == Answered(s) + 1
  {
  }

  /** Once the summary is shown only re-entry changes anything, and it restores the initial record. */
  lemma ResultsAbsorbing(bank: seq<Question>, s: Session, e: Event)
    requires |bank| == N && WellFormed(s) && PageOf(s) == Results
    ensures e.ReEntry? ==> Step(bank, s, e) == Initial()
    ensures !e.ReEntry? ==> Step(bank, s, e) == s
  {
  }

  /**
   * A tally bounded by the scorable counts of the first `k` items stays
   * bounded by those of the first `k + 1` items when item `k` is graded,
   * provided a match is only possible on an answerable item.
   */
  lemma {:induction false} GradeKeepsTallyBound(bank: seq<Question>, s: Session, k: nat, choice: string)
    requires WellFormed(s) && k < |bank|
    requires forall c :: c in s.skills ==> s.skills[c] <= Scorable(bank, c, k)
    requires choice == bank[k].answer ==> Answerable(bank[k])
    ensures var r := Grade(s, bank[k], choice);
      forall c :: c in r.skills ==> r.skills[c] <= Scorable(bank, c, k + 1)
  {
    var r := Grade(s, bank[k], choice);
    forall c | c in r.skills
      ensures r.skills[c] <= Scorable(bank, c, k + 1)
    {
      ScorableMonotone(bank, c, k, k + 1);
    }
  }

  /** A submission the page can produce keeps the invariant. */
  lemma {:induction false} SubmitPreservesInv(bank: seq<Question>, s: Session, ans: Option<string>)
    requires Layout(bank) && Inv(bank, s) && FromWidget(bank, s, Execute(ans))
    ensures Inv(bank, Submit(bank, s, ans))
  {
    if PageOf(s) == QuizPage && Selected(ans) {
      var q := bank[s.qIndex];
      assert q.difficulty == 3;
      GradeKeepsTallyBound(bank, s, s.qIndex, ans.value);
      var g := Grade(s, q, ans.value);
      assert TallySum(g.skills) == g.correct && g.score == 30 * g.correct;
      assert Submit(bank, s, ans) == Advance(g);
      assert Answered(Advance(g)) == s.qIndex + 1;
    }
  }

  /** Every action the page can produce keeps the invariant. */
  lemma StepPreservesInv(bank: seq<Question>, s: Session, e: Event)
    requires Layout(bank) && Inv(bank, s) && FromWidget(bank, s, e)
    ensures Inv(bank, Step(bank, s, e))
  {
    match e
    case Initiate(nameInput, now) =>
    case Execute(ans) => SubmitPreservesInv(bank, s, ans);
    case ReEntry =>
  }

  /** The invariant holds after any sequence of actions the page can produce. */
  lemma {:induction false} RunPreservesInv(bank: seq<Question>, s: Session, es: seq<Event>)
    requires Layout(bank) && Inv(bank, s) && WidgetRun(bank, s, es)
    ensures Inv(bank, Run(bank, s, es))
    decreases |es|
  {
    if es != [] {
      StepPreservesInv(bank, s, es[0]);
      RunPreservesInv(bank, Step(bank, s, es[0]), es[1..]);
    }
  }

  /**
   * Consequences of the invariant: the tally sums to the correct count,
   * which is at most the number of answered questions; every answer is
   * worth 30 points; and since item 10 can never match, at most 25 answers
   * are correct and at most 5 of them are DS answers.
   */
  lemma InvBounds(bank: seq<Question>, s: Session)
    requires Layout(bank) && Inv(bank, s)
    ensures s.skills[Tracing] + s.skills[Debug] + s.skills[Concept] + s.skills[DS] == s.correct
    ensures s.correct <= Answered(s) <= N
    ensures s.score == 30 * s.correct
    ensures s.correct <= 25 && s.skills[DS] <= 5 && s.score <= 750
  {
    var k := Answered(s);
    ScorableSplit(bank, k);
    LayoutCounts(bank);
    ScorableMonotone(bank, DS, k, N);
    ScorableMonotone(bank, Tracing, k, N);
    ScorableMonotone(bank, Debug, k, N);
    ScorableMonotone(bank, Concept, k, N);
  }

  /** A submission with a non-empty selection. */
  predicate Accepted(e: Event)
  {
    e.Execute? && Selected(e.ans)
  }

  /**
   * From question `i` of the quiz page, `j` accepted submissions keep the
   * quiz running at question `i + j` while `i + j < N`, and reach the
   * summary exactly when `i + j == N`.
   */
  lemma {:induction false} AcceptedSubmitsAdvance(bank: seq<Question>, s: Session, es: seq<Event>)
    requires |bank| == N && WellFormed(s) && PageOf(s) == QuizPage
    requires s.qIndex + |es| <= N
    requires forall i :: 0 <= i < |es| ==> Accepted(es[i])
    ensures s.qIndex + |es| < N ==>
      PageOf(Run(bank, s, es)) == QuizPage && Run(bank, s, es).qIndex == s.qIndex + |es|
    ensures s.qIndex + |es| == N ==>
      PageOf(Run(bank, s, es)) == Results && Run(bank, s, es).complete && Run(bank, s, es).qIndex == N - 1
    decreases |es|
  {
    if es != [] {
      var t := Step(bank, s, es[0]);
      assert t == Submit(bank, s, es[0].ans);
      if s.qIndex < N - 1 {
        assert PageOf(t) == QuizPage && t.qIndex == s.qIndex + 1;
        assert forall i :: 0 <= i < |es[1..]| ==> Accepted(es[1..][i]) by {
          forall i | 0 <= i < |es[1..]| ensures Accepted(es[1..][i]) {
            assert es[1..][i] == es[i + 1];
          }
        }
        AcceptedSubmitsAdvance(bank, t, es[1..]);
      } else {
        assert |es| == 1;
        assert Run(bank, s, es) == Run(bank, t, []) == t;
      }
    }
  }

  /** After a named start, 25 accepted submissions leave the quiz running and the 26th completes it. */
  lemma ExactlyNToComplete(bank: seq<Question>, name: string, now: real, es: seq<Event>)
    requires |bank| == N && name != "" && |es| == N
    requires forall i :: 0 <= i < |es| ==> Accepted(es[i])
    ensures PageOf(Run(bank, Start(Initial(), name, now), es[..N - 1])) == QuizPage
    ensures PageOf(Run(bank, Start(Initial(), name, now), es)) == Results
  {
    var s := Start(Initial(), name, now);
    AcceptedSubmitsAdvance(bank, s, es);
    AcceptedSubmitsAdvance(bank, s, es[..N - 1]);
  }

  /** Every session the page reaches from its first run satisfies the bounds of `InvBounds`. */
  lemma ReachableBounds(es: seq<Event>)
    requires WidgetRun(QuizBank(), Initial(), es)
    ensures Inv(QuizBank(), Run(QuizBank(), Initial(), es))
    ensures Run(QuizBank(), Initial(), es).correct <= 25 && Run(QuizBank(), Initial(), es).skills[DS] <= 5
  {
    var bank := QuizBank();
    InitialState(bank);
    RunPreservesInv(bank, Initial(), es);
    InvBounds(bank, Run(bank, Initial(), es));
  }

  /** Start as "Ada" and answer the first question correctly: 30 points, one correct, on question 1. */
  lemma FirstAnswerScenario(now: real)
    ensures var r := Submit(QuizBank(), Start(Initial(), "Ada", now), Some("[1,2,3,4]"));
      r.score == 30 && r.correct == 1 && r.qIndex == 1 && r.skills[Tracing] == 1
  {
    BankShape();
  }
}
