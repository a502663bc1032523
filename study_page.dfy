/**
 * The state of the study page and the handlers that change it: generation
 * (replace or append), the Drive picker's text merge, the quiz session
 * (choose, submit, next, retake) and the count input.
 *
 * Each handler is one atomic step; the responses of the two HTTP endpoints
 * it calls are inputs.
 */
module Page {
  import opened Common

  datatype Flashcard = Flashcard(front: string, back: string, difficulty: string)

  datatype QuizQuestion = QuizQuestion(question: string, choices: seq<string>, correctIndex: int, explanation: string)

  datatype Mode = AnswerMode | FlashcardsMode | QuizMode

  // ---------------------------------------------------------------------
  // The quiz session
  // ---------------------------------------------------------------------

  /** The five quiz fields; `selectedChoice` is `null` as `None`. */
  datatype QuizState = QuizState(
    currentQuestion: int,
    selectedChoice: Option<int>,
    showExplanation: bool,
    score: int,
    quizFinished: bool)

  const FreshQuiz := QuizState(0, None, false, 0, false)

  /** Questions answered so far: those before the current one, plus the current one once submitted or finished. */
  function Answered(s: QuizState): int
  {
    s.currentQuestion + (if s.showExplanation || s.quizFinished then 1 else 0)
  }

  /** What every reachable quiz state satisfies. */
  predicate QuizInv(quiz: seq<QuizQuestion>, s: QuizState)
  {
    && 0 <= s.currentQuestion
    && (|quiz| > 0 ==> s.currentQuestion < |quiz|)
    && 0 <= s.score <= Answered(s) <= |quiz|
    && !(s.showExplanation && s.quizFinished)
    && (s.showExplanation ==> s.selectedChoice.Some?)
  }

  /** The question card (choices, submit, next) is on screen. */
  predicate QuestionShown(quiz: seq<QuizQuestion>, s: QuizState)
  {
    |quiz| > 0 && !s.quizFinished
  }

  predicate SubmitShown(quiz: seq<QuizQuestion>, s: QuizState)
  {
    QuestionShown(quiz, s) && !s.showExplanation && s.selectedChoice.Some?
  }

  predicate NextShown(quiz: seq<QuizQuestion>, s: QuizState)
  {
    QuestionShown(quiz, s) && s.showExplanation
  }

  predicate RetakeShown(quiz: seq<QuizQuestion>, s: QuizState)
  {
    |quiz| > 0 && s.quizFinished
  }

  /** A click on choice `index` of the current question. */
  function Choose(quiz: seq<QuizQuestion>, s: QuizState, index: int): (r: QuizState)
    requires QuizInv(quiz, s)
    ensures QuizInv(quiz, r)
  {
    if QuestionShown(quiz, s) && 0 <= index < |quiz[s.currentQuestion].choices| && !s.showExplanation
    then s.(selectedChoice := Some(index))
    else s
  }

  /** The Submit Answer button. */
  function Submit(quiz: seq<QuizQuestion>, s: QuizState): (r: QuizState)
    requires QuizInv(quiz, s)
    ensures QuizInv(quiz, r)
  {
    if SubmitShown(quiz, s) then
      var correct := s.selectedChoice.value == quiz[s.currentQuestion].correctIndex;
      s.(score := if correct then s.score + 1 else s.score, showExplanation := true)
    else s
  }

  /** The Next Question button. */
  function Next(quiz: seq<QuizQuestion>, s: QuizState): (r: QuizState)
    requires QuizInv(quiz, s)
    ensures QuizInv(quiz, r)
  {
    if NextShown(quiz, s) then
      var cleared := s.(showExplanation := false, selectedChoice := None);
      if s.currentQuestion + 1 >= |quiz| then cleared.(quizFinished := true)
      else cleared.(currentQuestion := s.currentQuestion + 1)
    else s
  }

  /** The Retake button of the completion screen. */
  function Retake(quiz: seq<QuizQuestion>, s: QuizState): (r: QuizState)
    requires QuizInv(quiz, s)
    ensures QuizInv(quiz, r)
  {
    if RetakeShown(quiz, s) then FreshQuiz else s
  }

  datatype QuizEvent = ChooseEvent(index: int) | SubmitEvent | NextEvent | RetakeEvent

  function QuizStep(quiz: seq<QuizQuestion>, s: QuizState, e: QuizEvent): (r: QuizState)
    requires QuizInv(quiz, s)
    ensures QuizInv(quiz, r)
  {
    match e
    case ChooseEvent(i) => Choose(quiz, s, i)
    case SubmitEvent => Submit(quiz, s)
    case NextEvent => Next(quiz, s)
    case RetakeEvent => Retake(quiz, s)
  }

  /** Any sequence of clicks keeps the invariant, so the score never exceeds the quiz length. */
  function QuizRun(quiz: seq<QuizQuestion>, s: QuizState, events: seq<QuizEvent>): (r: QuizState)
    requires QuizInv(quiz, s)
    ensures QuizInv(quiz, r)
    ensures 0 <= r.score <= |quiz|
    ensures |quiz| > 0 ==> 0 <= r.currentQuestion < |quiz|
    decreases |events|
  {
    if |events| == 0 then s else QuizRun(quiz, QuizStep(quiz, s, events[0]), events[1..])
  }

  /** Choosing changes the selection only while the explanation is hidden. */
  lemma ChooseOnlyBeforeSubmit(quiz: seq<QuizQuestion>, s: QuizState, index: int)
    requires QuizInv(quiz, s) && QuestionShown(quiz, s) && 0 <= index < |quiz[s.currentQuestion].choices|
    ensures Choose(quiz, s, index).selectedChoice == if s.showExplanation then s.selectedChoice else Some(index)
    ensures Choose(quiz, s, index).(selectedChoice := s.selectedChoice) == s
  {
  }

  /** Submitting adds one point exactly when the choice is the correct index, and shows the explanation. */
  lemma SubmitScoresIffCorrect(quiz: seq<QuizQuestion>, s: QuizState)
    requires QuizInv(quiz, s) && SubmitShown(quiz, s)
    ensures var r := Submit(quiz, s);
            r.showExplanation &&
            (r.score == s.score + 1 <==> s.selectedChoice.value == quiz[s.currentQuestion].correctIndex) &&
            (r.score == s.score <==> s.selectedChoice.value != quiz[s.currentQuestion].correctIndex) &&
            r.currentQuestion == s.currentQuestion && r.selectedChoice == s.selectedChoice
  {
  }

  /** A second Submit on the same question is impossible: the score rises at most once per question. */
  lemma NoSecondSubmit(quiz: seq<QuizQuestion>, s: QuizState, index: int)
    requires QuizInv(quiz, s) && SubmitShown(quiz, s)
    ensures var r := Submit(quiz, s);
            Submit(quiz, r) == r && Choose(quiz, r, index) == r
  {
  }

  /** Next hides the explanation, clears the choice, and either finishes or advances by exactly one. */
  lemma NextFinishesOrAdvances(quiz: seq<QuizQuestion>, s: QuizState)
    requires QuizInv(quiz, s) && NextShown(quiz, s)
    ensures var r := Next(quiz, s);
            !r.showExplanation && r.selectedChoice.None? && r.score == s.score &&
            (r.quizFinished <==> s.currentQuestion == |quiz| - 1) &&
            (r.quizFinished ==> r.currentQuestion == s.currentQuestion) &&
            (!r.quizFinished ==> r.currentQuestion == s.currentQuestion + 1)
  {
  }

  /** Retake on the completion screen returns to the first question with no score. */
  lemma RetakeResets(quiz: seq<QuizQuestion>, s: QuizState)
    requires QuizInv(quiz, s) && RetakeShown(quiz, s)
    ensures Retake(quiz, s) == QuizState(0, None, false, 0, false)
  {
  }

  /** The clicks that answer questions from..|quiz|-1 correctly, one question at a time. */
  function PerfectAnswers(quiz: seq<QuizQuestion>, from: nat): seq<QuizEvent>
    requires from <= |quiz|
    decreases |quiz| - from
  {
    if from == |quiz| then []
    else [ChooseEvent(quiz[from].correctIndex), SubmitEvent, NextEvent] + PerfectAnswers(quiz, from + 1)
  }

  /** Every correct index names one of its question's choices. */
  predicate WellFormed(quiz: seq<QuizQuestion>)
  {
    forall k :: 0 <= k < |quiz| ==> 0 <= quiz[k].correctIndex < |quiz[k].choices|
  }

  /**
   * Answering every remaining question correctly finishes the quiz on its last
   * question with a full score.
   */
  lemma {:induction false} PerfectRunFinishes(quiz: seq<QuizQuestion>, from: nat)
    requires WellFormed(quiz) && from < |quiz|
    ensures QuizInv(quiz, QuizState(from, None, false, from, false))
    ensures QuizRun(quiz, QuizState(from, None, false, from, false), PerfectAnswers(quiz, from))
         == QuizState(|quiz| - 1, None, false, |quiz|, true)
    decreases |quiz| - from
  {
    var s := QuizState(from, None, false, from, false);
    var events := PerfectAnswers(quiz, from);
    var s1 := Choose(quiz, s, quiz[from].correctIndex);
    var s2 := Submit(quiz, s1);
    var s3 := Next(quiz, s2);
    assert s3 == QuizState(from + 1, None, false, from + 1, from + 1 == |quiz|) || s3 == QuizState(from, None, false, from + 1, true);
    assert events[1..][1..][1..] == PerfectAnswers(quiz, from + 1);
    assert QuizRun(quiz, s, events) == QuizRun(quiz, s3, PerfectAnswers(quiz, from + 1)) by {
      assert QuizRun(quiz, s, events) == QuizRun(quiz, s1, events[1..]);
      assert QuizRun(quiz, s1, events[1..]) == QuizRun(quiz, s2, events[1..][1..]);
      assert QuizRun(quiz, s2, events[1..][1..]) == QuizRun(quiz, s3, events[1..][1..][1..]);
    }
    if from + 1 < |quiz| {
      PerfectRunFinishes(quiz, from + 1);
    }
  }

  /** Appending generated questions keeps a valid session valid. */
  lemma AppendKeepsQuizInv(quiz: seq<QuizQuestion>, more: seq<QuizQuestion>, s: QuizState)
    requires QuizInv(quiz, s)
    ensures QuizInv(quiz + more, s)
  {
    if |quiz| == 0 {
      assert Answered(s) <= 0;
    }
  }

  // ---------------------------------------------------------------------
  // The page
  // ---------------------------------------------------------------------

  /** All the state the handlers read or write. */
  datatype PageState = PageState(
    uploadedText: string,
    mode: Mode,
    answer: string,
    flashcards: seq<Flashcard>,
    quiz: seq<QuizQuestion>,
    session: QuizState,
    currentCard: int,
    isFlipped: bool,
    reviewMode: bool,
    showGenerateOptions: bool,
    generateCount: int,
    showOptionsSidebar: bool)

  const InitialPage := PageState("", AnswerMode, "", [], [], FreshQuiz, 0, false, false, false, 5, false)

  predicate PageInv(p: PageState)
  {
    QuizInv(p.quiz, p.session)
  }

  /** The parsed JSON of the ask endpoint, or a thrown fetch. */
  datatype AskReply =
    | AskThrew
    | AskData(error: Option<string>, flashcards: Option<seq<Flashcard>>, quiz: Option<seq<QuizQuestion>>, answer: string)

  /** More items are being added when the options modal or the sidebar is open. */
  predicate AddingMore(p: PageState)
  {
    p.showGenerateOptions || p.showOptionsSidebar
  }

  /** The synchronous part of handleAsk: clear the answer, reset unless adding more, close the modal. */
  function BeforeAsk(p: PageState): PageState
  {
    var q := p.(answer := "");
    var q := if AddingMore(p) then q
             else q.(flashcards := [], quiz := [], session := FreshQuiz,
                     currentCard := 0, isFlipped := false, reviewMode := false);
    q.(showGenerateOptions := false)
  }

  /** The handling of the ask endpoint's reply, after the reset; `adding` is the value computed before it. */
  function Receive(q: PageState, adding: bool, reply: AskReply): PageState
  {
    match reply
    case AskThrew => q.(answer := "Error: Network error occurred")
    case AskData(error, cards, questions, text) =>
      if Truthy(error) then q.(answer := "Error: " + error.value)
      else if q.mode == FlashcardsMode && cards.Some? then
        q.(flashcards := if adding then q.flashcards + cards.value else cards.value, showOptionsSidebar := true)
      else if q.mode == QuizMode && questions.Some? then
        q.(quiz := if adding then q.quiz + questions.value else questions.value, showOptionsSidebar := true)
      else q.(answer := text)
  }

  /** handleAsk as one step: the reset followed by the handling of the reply. */
  function Ask(p: PageState, reply: AskReply): PageState
  {
    Receive(BeforeAsk(p), AddingMore(p), reply)
  }

  /** A click on the quiz card, which is on screen only in quiz mode. */
  function QuizClick(p: PageState, e: QuizEvent): PageState
    requires PageInv(p)
  {
    if p.mode == QuizMode then p.(session := QuizStep(p.quiz, p.session, e)) else p
  }

  /** handleAsk keeps the quiz session valid, whether it resets or appends. */
  lemma AskKeepsInv(p: PageState, reply: AskReply)
    requires PageInv(p)
    ensures PageInv(Ask(p, reply))
  {
    if AddingMore(p) && reply.AskData? && reply.quiz.Some? {
      AppendKeepsQuizInv(p.quiz, reply.quiz.value, p.session);
    }
  }

  /** With neither panel open, generation starts from scratch: everything is cleared, then replaced. */
  lemma AskWithoutPanelsReplaces(p: PageState, reply: AskReply)
    requires !p.showGenerateOptions && !p.showOptionsSidebar
    ensures var r := Ask(p, reply);
            r.session == FreshQuiz && r.currentCard == 0 && !r.isFlipped && !r.reviewMode && !r.showGenerateOptions &&
            r.flashcards == (if reply.AskData? && !Truthy(reply.error) && p.mode == FlashcardsMode && reply.flashcards.Some?
                             then reply.flashcards.value else []) &&
            r.quiz == (if reply.AskData? && !Truthy(reply.error) && p.mode == QuizMode && reply.quiz.Some?
                       then reply.quiz.value else [])
  {
  }

  /** With a panel open, new cards or questions go after the existing ones and the session is kept. */
  lemma AskWithPanelAppends(p: PageState, reply: AskReply)
    requires p.showGenerateOptions || p.showOptionsSidebar
    ensures var r := Ask(p, reply);
            r.session == p.session && r.currentCard == p.currentCard && r.reviewMode == p.reviewMode &&
            p.flashcards <= r.flashcards && p.quiz <= r.quiz &&
            (reply.AskData? && !Truthy(reply.error) && p.mode == FlashcardsMode && reply.flashcards.Some? ==>
               r.flashcards == p.flashcards + reply.flashcards.value && r.showOptionsSidebar) &&
            (reply.AskData? && !Truthy(reply.error) && p.mode == QuizMode && reply.quiz.Some? ==>
               r.quiz == p.quiz + reply.quiz.value && r.showOptionsSidebar)
  {
  }

  /** An error reply leaves its message in the answer and the generated items as the reset left them. */
  lemma AskErrorShowsMessage(p: PageState, reply: AskReply)
    requires reply.AskThrew? || Truthy(reply.error)
    ensures var r := Ask(p, reply);
            r.answer == (if reply.AskThrew? then "Error: Network error occurred" else "Error: " + reply.error.value) &&
            r.flashcards == BeforeAsk(p).flashcards && r.quiz == BeforeAsk(p).quiz &&
            r.showOptionsSidebar == p.showOptionsSidebar
  {
  }

  /** The parsed JSON of the import route, or a thrown fetch. */
  datatype ImportReply = ImportThrew | ImportData(error: Option<string>, text: string)

  /** The picker's update of the uploaded text. */
  function MergeImport(uploaded: string, reply: ImportReply): string
  {
    match reply
    case ImportThrew => uploaded
    case ImportData(error, text) => if Truthy(error) then uploaded else uploaded + "\n\n" + text
  }

  /** The picker callback: only a "picked" action imports. */
  function Picked(p: PageState, action: string, reply: ImportReply): PageState
  {
    if action == "picked" then p.(uploadedText := MergeImport(p.uploadedText, reply)) else p
  }

  /** What a reply adds to the uploaded text. */
  function Contribution(reply: ImportReply): string
  {
    if reply.ImportData? && !Truthy(reply.error) then "\n\n" + reply.text else ""
  }

  function Contributions(replies: seq<ImportReply>): string
  {
    if |replies| == 0 then "" else Contribution(replies[0]) + Contributions(replies[1..])
  }

  /** The uploaded text after a series of imports. */
  function ImportAll(uploaded: string, replies: seq<ImportReply>): string
    decreases |replies|
  {
    if |replies| == 0 then uploaded else ImportAll(MergeImport(uploaded, replies[0]), replies[1..])
  }

  /** One import appends a blank line and the text on success, and changes nothing otherwise. */
  lemma MergeImportAppends(uploaded: string, reply: ImportReply)
    ensures MergeImport(uploaded, reply) == uploaded + Contribution(reply)
    ensures reply.ImportThrew? || Truthy(reply.error) ==> MergeImport(uploaded, reply) == uploaded
  {
  }

  /**
   * A series of imports keeps everything already uploaded and appends, in
   * order, a blank line and the text of each successful one.
   */
  lemma {:induction false} ImportAllAppends(uploaded: string, replies: seq<ImportReply>)
    ensures ImportAll(uploaded, replies) == uploaded + Contributions(replies)
    decreases |replies|
  {
    if |replies| > 0 {
      MergeImportAppends(uploaded, replies[0]);
      ImportAllAppends(MergeImport(uploaded, replies[0]), replies[1..]);
    }
  }

  /** `parseInt(value) || 5`: the parse result with NaN as `None`; NaN and 0 fall back to 5. */
  function CountFallback(parsed: Option<int>): (count: int)
    ensures count != 0
    ensures parsed.Some? && parsed.value != 0 ==> count == parsed.value
    ensures count == 5 <==> parsed.None? || parsed.value == 0 || parsed.value == 5
  {
    if parsed.None? || parsed.value == 0 then 5 else parsed.value
  }

  /** The page's state, with one method per handler. */
  class StudyPage {
    var uploadedText: string
    var mode: Mode
    var answer: string
    var flashcards: seq<Flashcard>
    var quiz: seq<QuizQuestion>
    var currentQuestion: int
    var selectedChoice: Option<int>
    var showExplanation: bool
    var score: int
    var quizFinished: bool
    var currentCard: int
    var isFlipped: bool
    var reviewMode: bool
    var showGenerateOptions: bool
    var generateCount: int
    var showOptionsSidebar: bool

    function Session(): QuizState
      reads this
    {
      QuizState(currentQuestion, selectedChoice, showExplanation, score, quizFinished)
    }

    function State(): PageState
      reads this
    {
      PageState(uploadedText, mode, answer, flashcards, quiz, Session(),
                currentCard, isFlipped, reviewMode, showGenerateOptions, generateCount, showOptionsSidebar)
    }

    ghost predicate Valid()
      reads this
    {
      PageInv(State())
    }

    constructor ()
      ensures State() == InitialPage && Valid()
    {
      uploadedText := "";
      mode := AnswerMode;
      answer := "";
      flashcards := [];
      quiz := [];
      currentQuestion := 0;
      selectedChoice := None;
      showExplanation := false;
      score := 0;
      quizFinished := false;
      currentCard := 0;
      isFlipped := false;
      reviewMode := false;
      showGenerateOptions := false;
      generateCount := 5;
      showOptionsSidebar := false;
    }

    /** The mode selector pills. */
    method SetMode(m: Mode)
      requires Valid()
      modifies this
      ensures Valid() && State() == old(State()).(mode := m)
    {
      mode := m;
    }

    /** Opening or closing the options sidebar. */
    method SetSidebar(open: bool)
      requires Valid()
      modifies this
      ensures Valid() && State() == old(State()).(showOptionsSidebar := open)
    {
      showOptionsSidebar := open;
    }

    /** The Review button of the card list, and the viewer's Exit Review. */
    method SetReviewMode(on: bool)
      requires Valid()
      modifies this
      ensures Valid() && State() == old(State()).(reviewMode := on)
    {
      reviewMode := on;
    }

    method HandleAsk(reply: AskReply)
      requires Valid()
      modifies this
      ensures Valid() && State() == Ask(old(State()), reply)
    {
      AskKeepsInv(State(), reply);
      var isAddingMore := BeginAsk();
      ReceiveReply(isAddingMore, reply);
    }

    /** The statements of handleAsk before the fetch. */
    method BeginAsk() returns (isAddingMore: bool)
      modifies this
      ensures isAddingMore == AddingMore(old(State()))
      ensures State() == BeforeAsk(old(State()))
    {
      answer := "";
      isAddingMore := showGenerateOptions || showOptionsSidebar;
      if !isAddingMore {
        ResetGenerated();
      }
      showGenerateOptions := false;
    }

    /** The reset of handleAsk when nothing is being added. */
    method ResetGenerated()
      modifies this
      ensures State() == old(State()).(flashcards := [], quiz := [], session := FreshQuiz,
                                       currentCard := 0, isFlipped := false, reviewMode := false)
    {
      flashcards, quiz := [], [];
      ResetQuizFields();
      currentCard, isFlipped, reviewMode := 0, false, false;
    }

    /** The five quiz setters of the reset. */
    method ResetQuizFields()
      modifies this`currentQuestion, this`selectedChoice, this`showExplanation, this`score, this`quizFinished
      ensures State() == old(State()).(session := FreshQuiz)
    {
      currentQuestion, selectedChoice, showExplanation, score, quizFinished := 0, None, false, 0, false;
    }

    /** The statements of handleAsk after the fetch. */
    method ReceiveReply(isAddingMore: bool, reply: AskReply)
      modifies this
      ensures State() == Receive(old(State()), isAddingMore, reply)
    {
      match reply {
        case AskThrew =>
          answer := "Error: Network error occurred";
        case AskData(error, cards, questions, text) =>
          if Truthy(error) {
            answer := "Error: " + error.value;
          } else if mode == FlashcardsMode && cards.Some? {
            flashcards := if isAddingMore then flashcards + cards.value else cards.value;
            showOptionsSidebar := true;
          } else if mode == QuizMode && questions.Some? {
            quiz := if isAddingMore then quiz + questions.value else questions.value;
            showOptionsSidebar := true;
          } else {
            answer := text;
          }
      }
    }

    /** The picker's callback with the import route's reply. */
    method OnPickerCallback(action: string, reply: ImportReply)
      requires Valid()
      modifies this
      ensures Valid() && State() == Picked(old(State()), action, reply)
    {
      if action == "picked" {
        match reply {
          case ImportThrew =>
          case ImportData(error, text) =>
            if !Truthy(error) {
              uploadedText := uploadedText + "\n\n" + text;
            }
        }
      }
    }

    method ChooseAnswer(index: int)
      requires Valid()
      modifies this
      ensures Valid()
      ensures State() == QuizClick(old(State()), ChooseEvent(index))
    {
      if mode == QuizMode && |quiz| > 0 && !quizFinished && 0 <= index < |quiz[currentQuestion].choices| {
        if !showExplanation {
          selectedChoice := Some(index);
        }
      }
    }

    method SubmitAnswer()
      requires Valid()
      modifies this
      ensures Valid()
      ensures State() == QuizClick(old(State()), SubmitEvent)
    {
      if mode == QuizMode && |quiz| > 0 && !quizFinished && !showExplanation && selectedChoice.Some? {
        var correct := selectedChoice.value == quiz[currentQuestion].correctIndex;
        if correct {
          score := score + 1;
        }
        showExplanation := true;
      }
    }

    method NextQuestion()
      requires Valid()
      modifies this
      ensures Valid()
      ensures State() == QuizClick(old(State()), NextEvent)
    {
      if mode == QuizMode && |quiz| > 0 && !quizFinished && showExplanation {
        showExplanation := false;
        selectedChoice := None;
        if currentQuestion + 1 >= |quiz| {
          quizFinished := true;
        } else {
          currentQuestion := currentQuestion + 1;
        }
      }
    }

    method RetakeQuiz()
      requires Valid()
      modifies this
      ensures Valid()
      ensures State() == QuizClick(old(State()), RetakeEvent)
    {
      if mode == QuizMode && |quiz| > 0 && quizFinished {
        currentQuestion := 0;
        selectedChoice := None;
        showExplanation := false;
        score := 0;
        quizFinished := false;
      }
    }

    /** The count input's change handler. */
    method SetCount(parsed: Option<int>)
      requires Valid()
      modifies this
      ensures Valid() && State() == old(State()).(generateCount := CountFallback(parsed))
    {
      generateCount := CountFallback(parsed);
    }
  }
}
