/** The home page: a greeting by time of day with the member's first name,
    and a verse and a saint chosen by the date. The clock is a parameter. */
module Hero {
  import opened Text

  datatype Verse = Verse(text: string, reference: string)
  datatype Saint = Saint(name: string, feast: string, patronage: string, bio: string, image: string)

  const VERSES: seq<Verse> := [
    Verse("I can do all things through Christ who strengthens me.", "Philippians 4:13"),
    Verse("For I know the plans I have for you, declares the Lord.", "Jeremiah 29:11"),
    Verse("The Lord is my shepherd; I shall not want.", "Psalm 23:1"),
    Verse("Trust in the Lord with all your heart.", "Proverbs 3:5")
  ]

  const SAINTS: seq<Saint> := [
    Saint("St. Thomas Aquinas", "January 28", "Students",
          "Doctor of the Church and patron of students. He is famous for providing the foundation for Catholic theology.",
          "https://images.unsplash.com/photo-1548625313-039e44749549?q=80&w=400&auto=format&fit=crop"),
    Saint("St. Therese of Lisieux", "October 1", "Missions",
          "Known as the 'Little Flower', she taught the 'Little Way' of seeking holiness through small everyday acts of love.",
          "https://images.unsplash.com/photo-1519810755548-39cd217da494?q=80&w=400&auto=format&fit=crop")
  ]

  /** The day number: the day of the month plus 31 per month gone by (month
      counted from 0), so it never exceeds 372. */
  function DayOfYear(date: int, month: int): (d: int)
    requires 1 <= date <= 31 && 0 <= month <= 11
    ensures 1 <= d <= 372
  {
    date + month * 31
  }

  function VerseIndex(date: int, month: int): (i: int)
    requires 1 <= date <= 31 && 0 <= month <= 11
    ensures 0 <= i < |VERSES|
  {
    DayOfYear(date, month) % |VERSES|
  }

  function SaintIndex(date: int, month: int): (i: int)
    requires 1 <= date <= 31 && 0 <= month <= 11
    ensures 0 <= i < |SAINTS|
  {
    DayOfYear(date, month) % |SAINTS|
  }

  /** The verse of the day: one of the four, chosen by the day number. */
  function DailyVerse(date: int, month: int): (v: Verse)
    requires 1 <= date <= 31 && 0 <= month <= 11
    ensures v in VERSES
  {
    VERSES[VerseIndex(date, month)]
  }

  /** The saint of the day: one of the two, chosen by the day number. */
  function DailySaint(date: int, month: int): (s: Saint)
    requires 1 <= date <= 31 && 0 <= month <= 11
    ensures s in SAINTS
  {
    SAINTS[SaintIndex(date, month)]
  }

  /** Within a month the verse moves on by one each day, and the saint
      alternates. */
  lemma NextDayRotates(date: int, month: int)
    requires 1 <= date < 31 && 0 <= month <= 11
    ensures VerseIndex(date + 1, month) == (VerseIndex(date, month) + 1) % |VERSES|
    ensures SaintIndex(date + 1, month) != SaintIndex(date, month)
  {
  }

  /** Every month counts as 31 days, so after a shorter month a day number is
      skipped: the saint of April 30 is shown again on May 1. */
  lemma SaintRepeatsAfterShortMonth()
    ensures DailySaint(30, 3) == DailySaint(1, 4)
    ensures DayOfYear(1, 4) == DayOfYear(30, 3) + 2
  {
  }

  datatype DayPart = Morning | Afternoon | Evening

  /** The greeting shown for each part of the day. */
  function Greeting(p: DayPart): string
  {
    match p
    case Morning => "Blessed Morning"
    case Afternoon => "Peaceful Afternoon"
    case Evening => "Blessed Evening"
  }

  /** `getGreeting`: morning before 12, afternoon before 17, evening after. */
  function PartOfDay(hour: int): (p: DayPart)
    ensures p == Morning <==> hour < 12
    ensures p == Afternoon <==> 12 <= hour < 17
    ensures p == Evening <==> 17 <= hour
  {
    if hour < 12 then Morning else if hour < 17 then Afternoon else Evening
  }

  /** The three greetings are distinct texts, so a change of the part of the
      day shows. */
  lemma GreetingsDistinct(p: DayPart, q: DayPart)
    ensures Greeting(p) == Greeting(q) <==> p == q
  {
    assert Greeting(Morning)[8] != Greeting(Evening)[8];
    assert Greeting(Afternoon)[0] != Greeting(Morning)[0];
    assert Greeting(Afternoon)[0] != Greeting(Evening)[0];
  }

  /** Over one day the greeting changes exactly twice: at noon and at 17:00. */
  lemma GreetingChangesTwice(hour: int)
    requires 0 <= hour < 23
    ensures PartOfDay(hour) != PartOfDay(hour + 1) <==> hour == 11 || hour == 16
  {
  }

  /** `name.split(' ')[0]`: the name up to its first space. */
  function FirstName(name: string): (r: string)
    ensures |r| <= |name| && StartsWith(name, r)
    ensures forall i :: 0 <= i < |r| ==> r[i] != ' '
    ensures |r| < |name| ==> name[|r|] == ' '
  {
    if name == [] || name[0] == ' ' then []
    else [name[0]] + FirstName(name[1..])
  }

  /** The first word of "first rest" is `first`, whenever `first` has no
      space. */
  lemma {:induction false} FirstNameOf(first: string, rest: string)
    requires forall i :: 0 <= i < |first| ==> first[i] != ' '
    ensures FirstName(first + " " + rest) == first
  {
    if first != [] {
      assert (first + " " + rest)[1..] == first[1..] + " " + rest;
      FirstNameOf(first[1..], rest);
    } else {
      assert (first + " " + rest)[0] == ' ';
    }
  }
}
