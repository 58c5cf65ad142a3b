/**
 * The page's session store as an object whose fields the three button
 * handlers update in place.  Each handler is proved to leave the fields
 * as the matching transition of `Engine` prescribes, so every property
 * proved there about sessions holds of this object.
 */
module SessionState {
  import opened Wrappers
  import opened Bank
  import Engine

  class QuizSession {
    var started: bool
    var qIndex: QuestionIndex
    var score: nat
    var correct: nat
    var skillMap: map<Category, nat>
    var startTime: Option<real>
    var name: string
    var complete: bool
    /** The question bank; the page always serves `Bank.Questions`. */
    const bank: seq<Question>

    /** The fields as a session value. */
    function State(): Engine.Session
      reads this
    {
      Engine.Session(started, qIndex, score, correct, skillMap, startTime, name, complete)
    }

    /** The invariant of every reachable session, on a bank laid out as the page's. */
    ghost predicate Valid()
      reads this
    {
      Layout(bank) && Engine.Inv(bank, State())
    }

    /** The first run of the page: every key set to its initial value. */
    constructor ()
      ensures State() == Engine.Initial() && bank == Questions && Valid()
    {
      var qs := QuizBank();
      bank := qs;
      new;
      Reinitialise();
      Engine.InitialState(qs);
    }

    /** Install the initial value of every key, as the first run of the page does. */
    method Reinitialise()
      modifies this
      ensures State() == Engine.Initial()
    {
      started := false;
      qIndex := 0;
      score := 0;
      correct := 0;
      skillMap := map[Tracing := 0, Debug := 0, Concept := 0, DS := 0];
      startTime := None;
      name := "";
      complete := false;
    }

    /** The start button, pressed with the text in the name field and the clock reading `now`. */
    method Initiate(nameInput: string, now: real)
      requires Valid()
      modifies this
      ensures State() == Engine.Start(old(State()), nameInput, now)
      ensures Valid()
    {
      if !started && !complete {
        if nameInput != "" {
          name := nameInput;
          started := true;
          startTime := Some(now);
        }
      }
    }

    /** Grade `choice` against question `q`: an exact match adds the points and one to the correct count and to the category. */
    method GradeAnswer(q: Question, choice: string)
      requires Engine.WellFormed(State())
      modifies this
      ensures State() == Engine.Grade(old(State()), q, choice)
    {
      if choice == q.answer {
        score := score + 10 * q.difficulty;
        correct := correct + 1;
        skillMap := skillMap[q.category := skillMap[q.category] + 1];
      }
    }

    /** Move to the next question, or after the last one end the quiz. */
    method AdvanceQuestion()
      modifies this
      ensures State() == Engine.Advance(old(State()))
    {
      if qIndex < N - 1 {
        qIndex := qIndex + 1;
      } else {
        complete := true;
        started := false;
      }
    }

    /** The submit button, pressed with the radio selection `ans`. */
    method Execute(ans: Option<string>)
      requires Valid() && Engine.FromWidget(bank, State(), Engine.Execute(ans))
      modifies this
      ensures State() == Engine.Submit(bank, old(State()), ans)
      ensures Valid()
    {
      Engine.SubmitPreservesInv(bank, State(), ans);
      if started && !complete && ans.Some? && ans.value != "" {
        GradeAnswer(bank[qIndex], ans.value);
        AdvanceQuestion();
      }
    }

    /** The re-entry button on the results page: every key is deleted, and the next run reinstalls the initial values. */
    method ReEntry()
      requires Valid()
      modifies this
      ensures State() == Engine.ReEnter(old(State()))
      ensures Valid()
    {
      if complete {
        Reinitialise();
        Engine.InitialState(bank);
      }
    }
  }
}
