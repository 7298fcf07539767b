/**
 * Whole quiz runs, started on a fresh store with `initProfile`, driven
 * event by event and read back from the store. Each states the outcome
 * that follows from the session's contracts alone.
 */
module Scenarios {
  import opened Options
  import opened Records
  import opened MemoryStore
  import opened Profile
  import opened Questions
  import opened Quiz

  /** The player lets the clock of the shown question run out: ticks until the interval fires `nextQ`. */
  method WaitForTimeout(s: QuizSession)
    requires s.Valid() && s.timerRunning
    modifies s, s.db
    ensures s.Valid()
    ensures s.index == old(s.index) + 1 && !s.locked && s.score == old(s.score)
    ensures s.pendingAdvances == old(s.pendingAdvances) && s.answers == old(s.answers)
    ensures s.index < |s.qs| ==>
      s.timerRunning && s.timeLeft == TimePerQ && s.awards == old(s.awards) && s.db.data == old(s.db.data)
    ensures s.index >= |s.qs| ==>
      && !s.timerRunning && s.timeLeft == 0
      && s.awards == old(s.awards) + [s.score] && s.db.data == GainXPOf(old(s.db.data), s.score)
  {
    while s.timeLeft > 1
      invariant s.Valid() && s.timerRunning
      invariant s.index == old(s.index) && s.score == old(s.score) && s.locked == old(s.locked)
      invariant s.pendingAdvances == old(s.pendingAdvances) && s.answers == old(s.answers)
      invariant s.awards == old(s.awards) && s.db.data == old(s.db.data)
      decreases s.timeLeft
    {
      s.Tick();
    }
    s.Tick();
  }

  function Sample(correct: int): Question
  {
    Question("?", ["A", "B"], correct, None, None)
  }

  /** The profile as the home and profile views read it. */
  method ReadProfile(db: MemoryDB<Value>) returns (xp: int, games: int, level: int)
    requires UserKey in db.data && db.data[UserKey].UserRec?
    ensures var u := db.data[UserKey].user; xp == u.xp && games == u.gamesPlayed && level == u.level
  {
    var u := db.Get(UserKey, Null).user;
    xp, games, level := u.xp, u.gamesPlayed, u.level;
  }

  /** Two questions, both answered correctly: 20 points, 20 XP, level 1, one game. */
  method TwoCorrectAnswers() returns (score: nat, xp: int, games: int, level: int)
    ensures score == 20 && xp == 20 && games == 1 && level == 1
  {
    var db := new MemoryDB<Value>();
    InitProfile(db);
    var s := new QuizSession(map[DefaultStage := [Sample(0), Sample(1)]], db);
    s.Choose(0);
    s.DelayedAdvance();
    s.Choose(1);
    s.DelayedAdvance();
    assert s.awards == [20];
    score := s.score;
    xp, games, level := ReadProfile(db);
  }

  /** Two questions, one skipped and one timed out: 0 points, 0 XP, one game, and the timer is stopped. */
  method SkipThenTimeout() returns (score: nat, xp: int, games: int, quiet: bool)
    ensures score == 0 && xp == 0 && games == 1 && quiet
  {
    var db := new MemoryDB<Value>();
    InitProfile(db);
    var s := new QuizSession(map[DefaultStage := [Sample(0), Sample(1)]], db);
    s.Skip();
    WaitForTimeout(s);
    score := s.score;
    quiet := s.Quiet();
    var level;
    xp, games, level := ReadProfile(db);
  }

  /** An unknown stage loads no questions: completion at once, with 0 points and one game. */
  method UnknownStage() returns (score: nat, xp: int, games: int, quiet: bool)
    ensures score == 0 && xp == 0 && games == 1 && quiet
  {
    var db := new MemoryDB<Value>();
    InitProfile(db);
    var s := new QuizSession(map["stage2" := [Sample(0)]], db);
    score := s.score;
    quiet := s.Quiet();
    var level;
    xp, games, level := ReadProfile(db);
  }

  /** A wrong answer, then a second click on the same question: the second click changes nothing. */
  method SecondClickIgnored() returns (score: nat, pending: nat)
    ensures score == 0 && pending == 1
  {
    var db := new MemoryDB<Value>();
    var s := new QuizSession(map[DefaultStage := [Sample(1)]], db);
    s.Choose(0);
    s.Choose(1);
    score := s.score;
    pending := s.pendingAdvances;
  }

  /**
   * The last question answered, then the completion view left open until
   * the old interval runs out: the completion branch does not stop the
   * interval, so it runs `nextQ` again and `gainXP` is called twice.
   */
  method LeftoverIntervalAwardsTwice() returns (score: nat, xp: int, games: int)
    ensures score == 10 && xp == 20 && games == 2
  {
    var db := new MemoryDB<Value>();
    InitProfile(db);
    var s := new QuizSession(map[DefaultStage := [Sample(0)]], db);
    s.Choose(0);
    s.DelayedAdvance();
    assert s.awards == [10] && s.timerRunning;
    WaitForTimeout(s);
    assert s.awards == [10, 10];
    score := s.score;
    var level;
    xp, games, level := ReadProfile(db);
  }

  /**
   * A skip within the second after an answer: the pending `setTimeout`
   * still fires and advances a second time, so the next question is
   * passed over before it can be answered.
   */
  method SkipDuringDelayAdvancesTwice() returns (index: nat, score: nat, games: int)
    ensures index == 2 && score == 10 && games == 1
  {
    var db := new MemoryDB<Value>();
    InitProfile(db);
    var s := new QuizSession(map[DefaultStage := [Sample(0), Sample(0)]], db);
    s.Choose(0);
    s.Skip();
    s.DelayedAdvance();
    index := s.index;
    score := s.score;
    var xp, level;
    xp, games, level := ReadProfile(db);
  }
}
