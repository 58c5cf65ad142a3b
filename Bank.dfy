/**
 * The fixed question bank of the assessment: 26 multiple-choice items in a
 * fixed order, each tagged with the skill category it tests.
 */
module Bank {

  /** The four skill categories (the keys of the score tally). */
  datatype Category = Tracing | Debug | Concept | DS

  /** One quiz item. `answer` is compared verbatim with the selected option. */
  datatype Question = Question(
    category: Category,
    difficulty: nat,
    prompt: string,
    options: seq<string>,
    answer: string)

  /** The category names as they appear as tally keys and in the skills CSV. */
  function CategoryName(c: Category): string
  {
    match c
    case Tracing => "Tracing"
    case Debug => "Debug"
    case Concept => "Concept"
    case DS => "DS"
  }

  /** The order in which the tally dictionary was built, hence iterated. */
  const CategoryOrder: seq<Category> := [Tracing, Debug, Concept, DS]

  /** The position of a category in `CategoryOrder`. */
  function OrderIndex(c: Category): (k: nat)
    ensures k < |CategoryOrder| && CategoryOrder[k] == c
  {
    match c
    case Tracing => 0
    case Debug => 1
    case Concept => 2
    case DS => 3
  }

  /** The questions, in the order they are asked. */
  const Questions: seq<Question> := [
    Question(Tracing, 3, "x = [1,2,3]\ny = x\nx.append(4)\nprint(y)", ["[1,2,3]", "[1,2,3,4]", "Error", "None"], "[1,2,3,4]"),
    Question(Debug, 3, "for i in range(3)\n    print(i)", ["Error", "0 1 2", "1 2 3", "0 1 2 3"], "Error"),
    Question(DS, 3, "Which structure is best for FIFO?", ["List", "Set", "Deque", "Tuple"], "Deque"),
    Question(Concept, 3, "Difference between tuple and list?", ["Tuple mutable", "List immutable", "Tuple immutable", "No difference"], "Tuple immutable"),
    Question(Tracing, 3, "def f(a=[]):\n a.append(1)\n return a\nprint(f()); print(f())", ["[1][1]", "[1][1,1]", "Error", "[]"], "[1][1,1]"),
    Question(Debug, 3, "def func():\n print(x)\nx = 5\nfunc()", ["5", "Error", "None", "0"], "Error"),
    Question(DS, 3, "Time complexity of inserting at index 0 in a list?", ["O(1)", "O(log n)", "O(n)", "O(n^2)"], "O(n)"),
    Question(Concept, 3, "What does 'is' check in Python?", ["Value equality", "Reference equality", "Type equality", "Both"], "Reference equality"),
    Question(Tracing, 3, "print(bool([]))", ["True", "False"], "False"),
    Question(Debug, 3, "if True print('Hi')", ["Error", "Hi", "True", "False"], "Error"),
    Question(DS, 3, "Which method adds an item at the end of a list?", ["add()", "append()", "insert()", "extend()"], "append"),
    Question(Concept, 3, "What is Python's GIL?", ["Global Interpreter Lock", "Graphical Interface Library", "General Input List", "None"], "Global Interpreter Lock"),
    Question(Tracing, 3, "x = 5\ny = x\nx = 7\nprint(y)", ["5", "7", "Error", "None"], "5"),
    Question(Debug, 3, "print('2'+2)", ["4", "'22'", "Error", "2+2"], "Error"),
    Question(DS, 3, "Best DS for LIFO?", ["Stack", "Queue", "Deque", "List"], "Stack"),
    Question(Concept, 3, "Difference between deep copy and shallow copy?", ["Both same", "Shallow copies objects only", "Deep copies nested objects", "Shallow copies everything"], "Deep copies nested objects"),
    Question(Tracing, 3, "print(2**3**2)", ["512", "64", "256", "Error"], "512"),
    Question(Debug, 3, "x = [1,2,3]\nx[3]", ["3", "Error", "None", "0"], "Error"),
    Question(DS, 3, "Time complexity of dict lookup?", ["O(1)", "O(n)", "O(log n)", "O(n^2)"], "O(1)"),
    Question(Concept, 3, "Mutable types in Python?", ["List, Dict, Set", "Tuple, List", "All", "None"], "List, Dict, Set"),
    Question(Tracing, 3, "print([i for i in range(3)])", ["0 1 2", "[0,1,2]", "Error", "[1,2,3]"], "[0,1,2]"),
    Question(Debug, 3, "x = 10\ny = 0\nprint(x/y)", ["Error", "0", "10", "None"], "Error"),
    Question(DS, 3, "Which DS is unordered and mutable?", ["List", "Tuple", "Dict", "String"], "Dict"),
    Question(Concept, 3, "Python functions are first-class objects?", ["Yes", "No"], "Yes"),
    Question(Tracing, 3, "a = [1,2]\nb = a*2\nprint(b)", ["[1,2,1,2]", "[1,2,2]", "Error", "[1,1,2,2]"], "[1,2,1,2]"),
    Question(Debug, 3, "print('Hello' / 2)", ["Error", "Hello2", "'Hello2'", "None"], "Error")
  ]

  /** The number of questions. */
  const N: nat := 26

  /** A valid position in the bank. */
  type QuestionIndex = i: nat | i < N

  /** An item can be scored only if its stored answer is one of its options. */
  predicate Answerable(q: Question)
  {
    q.answer in q.options
  }

  /** The bank cycles through the categories Tracing, Debug, DS, Concept. */
  function Rotation(i: nat): Category
  {
    [Tracing, Debug, DS, Concept][i % 4]
  }

  /** The position of a category within one turn of the cycle. */
  function Slot(c: Category): nat
  {
    match c
    case Tracing => 0
    case Debug => 1
    case DS => 2
    case Concept => 3
  }

  /**
   * The shape of the bank that the counting arguments rely on: 26 items of
   * difficulty 3; the first four are Tracing, Debug, DS and Concept and from
   * there the categories repeat every four items; only item 10 is
   * unanswerable.
   */
  ghost predicate Layout(qs: seq<Question>)
  {
    && |qs| == N
    && (forall i :: 0 <= i < |qs| ==> qs[i].difficulty == 3)
    && (forall i :: 0 <= i < 4 <= |qs| ==> qs[i].category == Rotation(i))
    && (forall i :: 4 <= i < |qs| ==> qs[i].category == qs[i - 4].category)
    && (forall i :: 0 <= i < |qs| ==> (Answerable(qs[i]) <==> i != 10))
  }

  /** How many of the first `k` items of `qs` are answerable items of category `c`. */
  function Scorable(qs: seq<Question>, c: Category, k: nat): nat
    requires k <= |qs|
  {
    if k == 0 then 0
    else Scorable(qs, c, k - 1) + (if qs[k - 1].category == c && Answerable(qs[k - 1]) then 1 else 0)
  }

  /** How many of the first `k` items of `qs` are answerable at all. */
  function ScorableTotal(qs: seq<Question>, k: nat): nat
    requires k <= |qs|
  {
    if k == 0 then 0
    else ScorableTotal(qs, k - 1) + (if Answerable(qs[k - 1]) then 1 else 0)
  }

  /** How many of the first `k` items of `qs` belong to category `c`. */
  function CategoryCount(qs: seq<Question>, c: Category, k: nat): nat
    requires k <= |qs|
  {
    if k == 0 then 0
    else CategoryCount(qs, c, k - 1) + (if qs[k - 1].category == c then 1 else 0)
  }

  /** How many of the first `k` positions of the cycle fall on category `c`. */
  function RotationCount(c: Category, k: nat): nat
  {
    if k == 0 then 0 else RotationCount(c, k - 1) + (if Rotation(k - 1) == c then 1 else 0)
  }

  /** The bank holds 26 items and every one of them has difficulty 3. */
  lemma BankShape()
    ensures |Questions| == N
    ensures forall i :: 0 <= i < |Questions| ==> Questions[i].difficulty == 3
  {
  }

  /** Item 10, a DS question, stores the answer "append" while its options offer "append()". */
  lemma ItemTenUnanswerable()
    ensures Questions[10].category == DS
    ensures Questions[10].answer == "append" && "append()" in Questions[10].options
    ensures !Answerable(Questions[10])
  {
  }

  /** Every other item offers its stored answer among its options (items 0 to 9). */
  lemma AnswerableBelowTen()
    ensures forall i :: 0 <= i < 10 ==> Answerable(Questions[i])
  {
  }

  /** Every other item offers its stored answer among its options (items 11 to 18). */
  lemma AnswerableEleven()
    ensures forall i :: 11 <= i < 19 ==> Answerable(Questions[i])
  {
  }

  /** Every other item offers its stored answer among its options (items 19 to 25). */
  lemma AnswerableNineteen()
    ensures forall i :: 19 <= i < N ==> Answerable(Questions[i])
  {
  }

  /** The first four items are Tracing, Debug, DS and Concept, and items 4 to 10 repeat that cycle. */
  lemma CategoryCycleStart()
    ensures forall i :: 0 <= i < 4 ==> Questions[i].category == Rotation(i)
    ensures forall i :: 4 <= i < 11 ==> Questions[i].category == Questions[i - 4].category
  {
  }

  /** Items 11 to 25 keep repeating the cycle of four categories. */
  lemma CategoryCycleRest()
    ensures forall i :: 11 <= i < 18 ==> Questions[i].category == Questions[i - 4].category
    ensures forall i :: 18 <= i < N ==> Questions[i].category == Questions[i - 4].category
  {
  }

  /** The bank has the layout the counting lemmas assume. */
  lemma BankLayout()
    ensures Layout(Questions)
  {
    BankShape();
    ItemTenUnanswerable();
    AnswerableBelowTen();
    AnswerableEleven();
    AnswerableNineteen();
    CategoryCycleStart();
    CategoryCycleRest();
  }

  /** The bank the page serves, with its layout established once for every user of it. */
  function QuizBank(): (qs: seq<Question>)
    ensures Layout(qs) && qs == Questions
  {
    BankLayout();
    Questions
  }

  /** In a bank with this layout item `i` belongs to category `Rotation(i)`. */
  lemma {:induction false} LayoutRotation(qs: seq<Question>, i: nat)
    requires Layout(qs) && i < |qs|
    ensures qs[i].category == Rotation(i)
  {
    if i >= 4 {
      LayoutRotation(qs, i - 4);
      assert (i - 4) % 4 == i % 4;
    }
  }

  /** Every four consecutive positions of the cycle hit each category once. */
  lemma RotationPeriodic(c: Category, k: nat)
    ensures RotationCount(c, k + 4) == RotationCount(c, k) + 1
  {
    var r := k % 4;
    assert (k + 1) % 4 == (r + 1) % 4 && (k + 2) % 4 == (r + 2) % 4 && (k + 3) % 4 == (r + 3) % 4;
    assert RotationCount(c, k + 4) == RotationCount(c, k + 2)
      + (if Rotation(k + 2) == c then 1 else 0) + (if Rotation(k + 3) == c then 1 else 0);
    assert RotationCount(c, k + 2) == RotationCount(c, k)
      + (if Rotation(k) == c then 1 else 0) + (if Rotation(k + 1) == c then 1 else 0);
  }

  /** After `m` full turns and `r` more positions, category `c` was hit `m` times, plus once if `r` passed its slot. */
  lemma {:induction false} RotationClosedForm(c: Category, m: nat, r: nat)
    requires r < 4
    ensures RotationCount(c, 4 * m + r) == m + (if Slot(c) < r then 1 else 0)
  {
    if m == 0 {
      assert Rotation(0) == Tracing && Rotation(1) == Debug && Rotation(2) == DS;
      if r >= 1 {
        assert RotationCount(c, 1) == (if c == Tracing then 1 else 0);
      }
      if r >= 2 {
        assert RotationCount(c, 2) == RotationCount(c, 1) + (if c == Debug then 1 else 0);
      }
      if r == 3 {
        assert RotationCount(c, 3) == RotationCount(c, 2) + (if c == DS then 1 else 0);
      }
    } else {
      RotationClosedForm(c, m - 1, r);
      RotationPeriodic(c, 4 * (m - 1) + r);
    }
  }

  /** Any bank with this layout has category `c` at exactly the positions of the cycle. */
  lemma {:induction false} CountIsRotationCount(qs: seq<Question>, c: Category, k: nat)
    requires Layout(qs) && k <= |qs|
    ensures CategoryCount(qs, c, k) == RotationCount(c, k)
  {
    if k > 0 {
      CountIsRotationCount(qs, c, k - 1);
      LayoutRotation(qs, k - 1);
    }
  }

  /** In a bank with this layout the only item lost to scoring is the DS item at position 10. */
  lemma {:induction false} ScorableIsCategoryCount(qs: seq<Question>, c: Category, k: nat)
    requires Layout(qs) && k <= |qs|
    ensures Scorable(qs, c, k) == CategoryCount(qs, c, k) - (if c == DS && k > 10 then 1 else 0)
    ensures ScorableTotal(qs, k) == k - (if k > 10 then 1 else 0)
  {
    if k > 0 {
      ScorableIsCategoryCount(qs, c, k - 1);
      assert Answerable(qs[k - 1]) <==> k - 1 != 10;
      LayoutRotation(qs, k - 1);
    }
  }

  /** A bank with this layout can score 7 Tracing, 7 Debug, 6 Concept but only 5 DS answers; 25 in all. */
  lemma LayoutCounts(qs: seq<Question>)
    requires Layout(qs)
    ensures Scorable(qs, Tracing, N) == 7 && Scorable(qs, Debug, N) == 7
    ensures Scorable(qs, Concept, N) == 6 && Scorable(qs, DS, N) == 5
    ensures ScorableTotal(qs, N) == 25
  {
    forall c: Category
      ensures Scorable(qs, c, N) == 6 + (if Slot(c) < 2 then 1 else 0) - (if c == DS then 1 else 0)
    {
      RotationClosedForm(c, 6, 2);
      CountIsRotationCount(qs, c, N);
      ScorableIsCategoryCount(qs, c, N);
    }
    ScorableIsCategoryCount(qs, DS, N);
  }

  /** So the bank itself can score at most 25 answers, and at most 5 DS answers. */
  lemma ScorableCounts()
    ensures Scorable(Questions, Tracing, N) == 7 && Scorable(Questions, Debug, N) == 7
    ensures Scorable(Questions, Concept, N) == 6 && Scorable(Questions, DS, N) == 5
    ensures ScorableTotal(Questions, N) == 25
  {
    BankLayout();
    LayoutCounts(Questions);
  }

  /** The scorable count never shrinks as more questions are taken into account. */
  lemma {:induction false} ScorableMonotone(qs: seq<Question>, c: Category, j: nat, k: nat)
    requires j <= k <= |qs|
    ensures Scorable(qs, c, j) <= Scorable(qs, c, k)
    decreases k - j
  {
    if j < k {
      ScorableMonotone(qs, c, j, k - 1);
    }
  }

  /** The per-category counts add up to the overall count, which is at most `k`. */
  lemma {:induction false} ScorableSplit(qs: seq<Question>, k: nat)
    requires k <= |qs|
    ensures Scorable(qs, Tracing, k) + Scorable(qs, Debug, k) + Scorable(qs, Concept, k) + Scorable(qs, DS, k)
      == ScorableTotal(qs, k)
    ensures ScorableTotal(qs, k) <= k
  {
    if k > 0 {
      ScorableSplit(qs, k - 1);
    }
  }
}
