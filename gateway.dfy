/** The gateway to the remote text generator: the trivia set and the spiritual
    insight, each with its offline fallback. The remote call itself is not
    modelled; its outcome is a parameter. */
module GeminiService {
  import opened Types

  /** `points || 0`: the value a question is worth, nothing when its points
      are missing. */
  function PointValue(q: TriviaQuestion): int
  {
    match q.points
    case Some(p) => p
    case None => 0
  }

  /** The sum of the point values of a question set. */
  function TotalPoints(qs: seq<TriviaQuestion>): int
  {
    if qs == [] then 0 else TotalPoints(qs[..|qs| - 1]) + PointValue(qs[|qs| - 1])
  }

  /** The contract a full quiz is meant to meet: seven questions of four
      options each, a correct index in 0..3, positive points summing to 50. */
  predicate IsQuizSet(qs: seq<TriviaQuestion>)
  {
    && |qs| == 7
    && (forall i :: 0 <= i < |qs| ==> |qs[i].options| == 4)
    && (forall i :: 0 <= i < |qs| ==> 0 <= qs[i].correctAnswer <= 3)
    && (forall i :: 0 <= i < |qs| ==> qs[i].points.Some? && qs[i].points.value > 0)
    && TotalPoints(qs) == 50
  }

  /** The static set used whenever generation fails. */
  function FallbackQuestions(): (qs: seq<TriviaQuestion>)
    ensures IsQuizSet(qs)
  {
    var qs := [
      TriviaQuestion("How many books are in the New Testament?", ["24", "27", "39", "66"], 1,
                     "The New Testament consists of 27 books.", Some(5)),
      TriviaQuestion("Who was the first martyr of the Church?", ["Peter", "Paul", "Stephen", "James"], 2,
                     "St. Stephen was the first martyr.", Some(5)),
      TriviaQuestion("Which Gospel was written first?", ["Matthew", "Mark", "Luke", "John"], 1,
                     "Most scholars agree Mark was the first Gospel.", Some(5)),
      TriviaQuestion("How many days was Lazarus in the tomb?", ["1", "2", "3", "4"], 3,
                     "Jesus raised Lazarus after 4 days.", Some(5)),
      TriviaQuestion("Who wrote the Book of Revelation?", ["Peter", "Paul", "John", "Luke"], 2,
                     "John the Apostle wrote Revelation.", Some(10)),
      TriviaQuestion("What is the shortest verse in the Bible?",
                     ["Jesus wept.", "God is love.", "Pray without ceasing.", "Rejoice always."], 0,
                     "John 11:35: 'Jesus wept.'", Some(10)),
      TriviaQuestion("Who was the oldest man mentioned in the Bible?", ["Adam", "Noah", "Methuselah", "Abraham"], 2,
                     "Methuselah lived to be 969 years old.", Some(10))
    ];
    assert TotalPoints(qs[..1]) == 5 by { assert qs[..1][..0] == []; }
    assert TotalPoints(qs[..2]) == 10 by { assert qs[..2][..1] == qs[..1]; }
    assert TotalPoints(qs[..3]) == 15 by { assert qs[..3][..2] == qs[..2]; }
    assert TotalPoints(qs[..4]) == 20 by { assert qs[..4][..3] == qs[..3]; }
    assert TotalPoints(qs[..5]) == 30 by { assert qs[..5][..4] == qs[..4]; }
    assert TotalPoints(qs[..6]) == 40 by { assert qs[..6][..5] == qs[..5]; }
    assert qs[..7] == qs;
    qs
  }

  /** What the trivia request produced: the parsed JSON array, or a failure of
      the call, the quota or `JSON.parse`. */
  datatype TriviaReply = Parsed(questions: seq<TriviaQuestion>) | TriviaFailed

  /** `generateBibleTrivia`: the parsed reply as it is, unchecked, or on any
      failure exactly the fallback set. */
  function GenerateBibleTrivia(reply: TriviaReply): (qs: seq<TriviaQuestion>)
    ensures reply.TriviaFailed? ==> IsQuizSet(qs) && qs == FallbackQuestions()
    ensures reply.Parsed? ==> qs == reply.questions
  {
    match reply
    case Parsed(questions) => questions
    case TriviaFailed => FallbackQuestions()
  }

  /** What the insight request produced: the reply text (empty when the reply
      carries none), or a failure. */
  datatype InsightReply = Answered(text: string) | InsightFailed

  const BLESSING: string := "May God bless you today."
  const INSIGHT_FALLBACK: string := "The Lord is my shepherd, I shall not want. (API Quota reached, showing fallback)"

  /** `getSpiritualInsight`: the reply text, the blessing when the text is
      empty, the fixed fallback on failure. Never empty. */
  function GetSpiritualInsight(reply: InsightReply): (r: string)
    ensures r != ""
    ensures reply.Answered? && reply.text != "" ==> r == reply.text
    ensures reply.Answered? && reply.text == "" ==> r == BLESSING
    ensures reply.InsightFailed? ==> r == INSIGHT_FALLBACK
  {
    match reply
    case Answered(text) => if text != "" then text else BLESSING
    case InsightFailed => INSIGHT_FALLBACK
  }

  /** The success path checks nothing: a reply of any shape goes through,
      so the quiz contract holds only of the fallback. */
  lemma ParsedReplyUnchecked()
    ensures !IsQuizSet(GenerateBibleTrivia(Parsed([])))
  {
  }
}
