/** The trivia game: a question set is loaded, each question is answered once,
    a correct answer earns that question's points, and finishing the last
    question credits the score to the player. */
module TriviaPage {
  import opened Types
  import opened GeminiService

  /** The points one answer earns: the question's value when the chosen
      option is the correct one, otherwise nothing. A question whose points
      are missing is worth nothing. */
  function Earned(q: TriviaQuestion, pick: Option<int>): (e: int)
    ensures pick != Some(q.correctAnswer) ==> e == 0
    ensures pick == Some(q.correctAnswer) && q.points.Some? ==> e == q.points.value
    ensures q.points.None? ==> e == 0
  {
    if pick == Some(q.correctAnswer) then PointValue(q) else 0
  }

  /** The score of a game in which question `i` got answer `picks[i]`
      (`None` when it was passed over without an answer). */
  function ScoreOf(qs: seq<TriviaQuestion>, picks: seq<Option<int>>): int
    requires |picks| <= |qs|
  {
    if picks == [] then 0
    else ScoreOf(qs, picks[..|picks| - 1]) + Earned(qs[|picks| - 1], picks[|picks| - 1])
  }

  predicate NonNegativePoints(qs: seq<TriviaQuestion>)
  {
    forall i :: 0 <= i < |qs| ==> PointValue(qs[i]) >= 0
  }

  /** The answers that are all correct. */
  function CorrectPicks(qs: seq<TriviaQuestion>): (picks: seq<Option<int>>)
    ensures |picks| == |qs|
    ensures forall i :: 0 <= i < |qs| ==> picks[i] == Some(qs[i].correctAnswer)
  {
    seq(|qs|, i requires 0 <= i < |qs| => Some(qs[i].correctAnswer))
  }

  /** With points that are never negative, the score lies between 0 and the
      total value of the questions answered so far. */
  lemma {:induction false} ScoreBounds(qs: seq<TriviaQuestion>, picks: seq<Option<int>>)
    requires |picks| <= |qs| && NonNegativePoints(qs)
    ensures 0 <= ScoreOf(qs, picks) <= TotalPoints(qs[..|picks|])
  {
    if picks != [] {
      var n := |picks|;
      ScoreBounds(qs, picks[..n - 1]);
      assert qs[..n][..n - 1] == qs[..n - 1];
    }
  }

  /** Answering every question correctly earns the total of their points. */
  lemma {:induction false} AllCorrectPrefix(qs: seq<TriviaQuestion>, n: nat)
    requires n <= |qs|
    ensures ScoreOf(qs, CorrectPicks(qs)[..n]) == TotalPoints(qs[..n])
  {
    if n > 0 {
      AllCorrectPrefix(qs, n - 1);
      assert CorrectPicks(qs)[..n][..n - 1] == CorrectPicks(qs)[..n - 1];
      assert qs[..n][..n - 1] == qs[..n - 1];
    }
  }

  lemma AllCorrectScore(qs: seq<TriviaQuestion>)
    ensures ScoreOf(qs, CorrectPicks(qs)) == TotalPoints(qs)
  {
    AllCorrectPrefix(qs, |qs|);
    assert CorrectPicks(qs)[..|qs|] == CorrectPicks(qs);
    assert qs[..|qs|] == qs;
  }

  /** Answering no question correctly earns nothing. */
  lemma {:induction false} NoneCorrectScore(qs: seq<TriviaQuestion>, picks: seq<Option<int>>)
    requires |picks| <= |qs|
    requires forall i :: 0 <= i < |picks| ==> picks[i] != Some(qs[i].correctAnswer)
    ensures ScoreOf(qs, picks) == 0
  {
    if picks != [] {
      NoneCorrectScore(qs, picks[..|picks| - 1]);
    }
  }

  /** A set whose questions all lack their points, as an unchecked reply can,
      scores nothing whatever the answers. */
  lemma {:induction false} MissingPointsScoreNothing(qs: seq<TriviaQuestion>, picks: seq<Option<int>>)
    requires |picks| <= |qs|
    requires forall i :: 0 <= i < |qs| ==> qs[i].points.None?
    ensures ScoreOf(qs, picks) == 0
  {
    if picks != [] {
      MissingPointsScoreNothing(qs, picks[..|picks| - 1]);
    }
  }

  /** On the fallback set a perfect game scores 50 and a game with every answer
      wrong scores 0. */
  lemma FallbackExtremes(picks: seq<Option<int>>)
    requires |picks| == 7
    requires forall i :: 0 <= i < 7 ==> picks[i] != Some(FallbackQuestions()[i].correctAnswer)
    ensures ScoreOf(FallbackQuestions(), CorrectPicks(FallbackQuestions())) == 50
    ensures ScoreOf(FallbackQuestions(), picks) == 0
  {
    AllCorrectScore(FallbackQuestions());
    NoneCorrectScore(FallbackQuestions(), picks);
  }

  /** What the trivia page shows: the game, or the Hall of Faith. */
  datatype TriviaView = Play | Board

  /** The state of the trivia page. */
  class TriviaState {
    var questions: seq<TriviaQuestion>
    var currentIdx: int
    var score: int
    var loading: bool
    var gameOver: bool
    var selectedOption: Option<int>
    var answered: bool
    var view: TriviaView
    /** The answer given to each question reached so far. */
    ghost var answers: seq<Option<int>>

    ghost predicate Valid()
      reads this
    {
      && 0 <= currentIdx
      && (|questions| == 0 ==> currentIdx == 0 && answers == [])
      && (|questions| > 0 ==>
            && currentIdx < |questions|
            && |answers| == currentIdx + 1
            && answers[currentIdx] == selectedOption)
      && (answered <==> selectedOption.Some?)
      && score == ScoreOf(questions, answers)
    }

    /** The page as first shown: loading, with no questions yet. */
    constructor ()
      ensures Valid()
      ensures questions == [] && currentIdx == 0 && score == 0
      ensures loading && !gameOver && !answered && selectedOption == None && view == Play
    {
      view := Play;
      questions := [];
      currentIdx := 0;
      score := 0;
      loading := true;
      gameOver := false;
      selectedOption := None;
      answered := false;
      answers := [];
    }

    /** `loadQuestions`: takes the gateway's set and starts a fresh game. */
    method LoadQuestions(reply: TriviaReply)
      modifies this
      ensures Valid()
      ensures questions == GenerateBibleTrivia(reply)
      ensures reply.TriviaFailed? ==> IsQuizSet(questions)
      ensures currentIdx == 0 && score == 0
      ensures !loading && !gameOver && !answered && selectedOption == None
      ensures view == old(view)
    {
      loading := true;
      var qs := GenerateBibleTrivia(reply);
      questions := qs;
      loading := false;
      currentIdx := 0;
      score := 0;
      gameOver := false;
      answered := false;
      selectedOption := None;
      answers := if |qs| == 0 then [] else [None];
    }

    /** `handleAnswer(idx)`: the first answer to the current question is kept
        and scored; any later one is ignored. */
    method HandleAnswer(idx: int)
      requires Valid() && !loading && !gameOver && |questions| > 0
      modifies this
      ensures Valid()
      ensures questions == old(questions) && currentIdx == old(currentIdx)
      ensures old(answered) ==> unchanged(this)
      ensures !old(answered) ==>
        && answered && selectedOption == Some(idx)
        && score == old(score) + Earned(questions[currentIdx], Some(idx))
      ensures loading == old(loading) && gameOver == old(gameOver) && view == old(view)
      ensures NonNegativePoints(questions) ==> old(score) <= score
    {
      if answered {
        return;
      }
      selectedOption := Some(idx);
      answered := true;
      var q := questions[currentIdx];
      if idx == q.correctAnswer {
        score := score + PointValue(q);
      }
      ghost var before := answers[..currentIdx];
      assert answers == before + [None];
      answers := before + [Some(idx)];
      assert answers[..|answers| - 1] == before;
    }

    /** `handleNext`: moves to the next question, or after the last one ends
        the game and reports the player with the score added to the points. */
    method HandleNext(user: User) returns (reported: Option<User>)
      requires Valid() && !loading && !gameOver
      modifies this
      ensures Valid()
      ensures questions == old(questions) && score == old(score) && !loading && view == old(view)
      ensures old(currentIdx) < |questions| - 1 ==>
        && currentIdx == old(currentIdx) + 1
        && !answered && selectedOption == None && !gameOver
        && reported == None
      ensures old(currentIdx) >= |questions| - 1 ==>
        && gameOver && currentIdx == old(currentIdx)
        && answered == old(answered) && selectedOption == old(selectedOption)
        && reported == Some(user.(points := user.points + score))
    {
      if currentIdx < |questions| - 1 {
        assert answers[..|answers|] == answers;
        currentIdx := currentIdx + 1;
        selectedOption := None;
        answered := false;
        answers := answers + [None];
        assert answers[..|answers| - 1] == old(answers);
        reported := None;
      } else {
        gameOver := true;
        reported := Some(user.(points := user.points + score));
      }
    }

    /** The buttons that switch between the game and the Hall of Faith. */
    method SetView(v: TriviaView)
      requires Valid()
      modifies this
      ensures Valid() && view == v
      ensures questions == old(questions) && currentIdx == old(currentIdx) && score == old(score)
      ensures gameOver == old(gameOver) && answered == old(answered) && loading == old(loading)
      ensures selectedOption == old(selectedOption)
    {
      view := v;
    }
  }

  /** While a game is running the score never exceeds the value of the
      questions reached so far, and is never negative when no question is
      worth a negative amount. */
  lemma ScoreWithinReached(g: TriviaState)
    requires g.Valid() && NonNegativePoints(g.questions)
    ensures 0 <= g.score <= TotalPoints(g.questions[..|g.answers|])
  {
    ScoreBounds(g.questions, g.answers);
  }
}
