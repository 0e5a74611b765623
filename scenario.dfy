/** One session end to end: a student registers, plays the offline quiz
    answering the first three questions correctly, and ends up alone
    at the top of the Hall of Faith. */
module Scenario {
  import opened Types
  import StorageService
  import GeminiService
  import TriviaPage
  import AuthPage
  import App
  import Leaderboard

  /** The fallback quiz played through with the first three answers right
      and the other four wrong: the finished game reports 15 more points. */
  method PlayFallbackQuiz(player: User) returns (reported: Option<User>)
    ensures reported == Some(player.(points := player.points + 15))
  {
    var game := new TriviaPage.TriviaState();
    game.LoadQuestions(GeminiService.TriviaFailed);
    assert game.questions[0].points == Some(5) && game.questions[1].points == Some(5) && game.questions[2].points == Some(5);
    reported := None;
    var k := 0;
    while k < 7
      invariant 0 <= k <= 7
      invariant game.Valid() && game.questions == GeminiService.FallbackQuestions() && !game.loading
      invariant k < 7 ==> game.currentIdx == k && !game.answered && !game.gameOver
      invariant game.score == 5 * (if k < 3 then k else 3)
      invariant k == 7 ==> game.gameOver && reported == Some(player.(points := player.points + 15))
      modifies game
    {
      var correct := game.questions[k].correctAnswer;
      game.HandleAnswer(if k < 3 then correct else (correct + 1) % 4);
      reported := game.HandleNext(player);
      k := k + 1;
    }
  }

  method RegisterPlayAndRank(email: string, password: string, admission: string, id: string, now: string)
    returns (board: seq<Leaderboard.Entry>)
    ensures |board| == 1
    ensures board[0].rank == 1 && board[0].hasMedal && board[0].isCurrentUser
    ensures board[0].user.name == "Alice" && board[0].user.role == Student
    ensures board[0].user.points == 15
  {
    var store := new StorageService.RecordStore();
    var app := new App.AppState(store);

    // Registration against the empty users collection.
    var form := AuthPage.AuthForm("Alice", email, password, admission);
    AuthPage.RegistrationNeverGuest(store.Users(), form, Student, id, now);
    var submitted := AuthPage.Submit(store.Users(), false, form, Student, id, now);
    assert !AuthPage.NameRegistered(store.Users(), "Alice");
    var alice := submitted.value;
    app.HandleLogin(alice, "welcome");

    // The quiz, with the generator unavailable.
    var reported := PlayFallbackQuiz(alice);

    // `onPointsUpdate` saves the new total; the board reads the collection.
    app.HandleUpdateUser(reported.value);
    var scored := reported.value;
    assert store.Users() == [scored] by {
      assert StorageService.IsFirstMatch([alice], scored, 0);
    }
    var users := Leaderboard.LoadUsers(store.SavedUsers(), app.user, []);
    Leaderboard.SortedTiesUnique(users, [scored]);
    board := Leaderboard.Entries(users, app.user);
  }
}
