/**
 * The quiz route of app.js (lines 164-264) as a session object. The
 * closure variables `index`, `score`, `locked` and `timeLeft` are fields;
 * the live `setInterval` behind `timerId` is `timerRunning`, and the
 * `setTimeout(nextQ, 1000)` callbacks scheduled by answers and not yet run
 * are counted in `pendingAdvances`. Each event the browser may deliver is
 * one method: `Choose` (a click on choice button `i`), `Skip`, `Tick` (one
 * interval callback) and `DelayedAdvance` (one timeout callback). Any
 * interleaving of timers and clicks is a sequence of these calls.
 *
 * Three ghost fields record what the source never stores: `answers[j]`,
 * the first accepted selection for question `j`; `awards`, the argument of
 * every `gainXP` call the completion branch has made; and `startData`, the
 * store's contents when the route was entered.
 */
module Quiz {
  import opened Options
  import opened Records
  import opened MemoryStore
  import opened Profile
  import opened Questions

  /** `timePerQ`: seconds on the clock when a question is shown. */
  const TimePerQ: int := 20

  /** Points for a correct first selection. */
  const PointsPerCorrect: nat := 10

  /** How many completion-branch renders indices `0 .. i-1` have made, for `n` questions. */
  function Completions(i: nat, n: nat): nat
  {
    if i <= n then 0 else i - n
  }

  class QuizSession {
    const qs: seq<Question>
    /** The shared store that `gainXP` writes to. */
    const db: MemoryDB<Value>

    var index: nat
    var score: nat
    var locked: bool
    var timeLeft: int
    var timerRunning: bool
    var pendingAdvances: nat

    ghost var answers: seq<Option<int>>
    ghost var awards: seq<nat>
    ghost var startData: map<string, Value>

    /**
     * The score accounting: the score is 10 points per question whose
     * first accepted selection was correct; only the shown question can be
     * locked, and only once it has an accepted selection; no later
     * question has one yet; every XP award so far was the current score;
     * the store is the entry store with those awards applied in order.
     */
    ghost predicate Scoring()
      reads this, db
    {
      && |answers| == |qs|
      && score == PointsPerCorrect * CountCorrect(qs, answers)
      && (locked ==> index < |qs| && answers[index].Some?)
      && (index < |qs| && !locked ==> answers[index] == None)
      && (forall j :: index < j < |qs| ==> answers[j] == None)
      && (forall k :: 0 <= k < |awards| ==> awards[k] == score)
      && UserSlotOk(startData)
      && db.data == GainAll(startData, awards)
    }

    /** The clock, when running, shows between 1 and 20 seconds. */
    ghost predicate ClockOk()
      reads this
    {
      timerRunning ==> 1 <= timeLeft <= TimePerQ
    }

    /**
     * The session invariant, between events: while a question is shown its
     * countdown runs, and the completion branch has run once for every
     * index past the last question that has been reached.
     */
    ghost predicate Valid()
      reads this, db
    {
      && Scoring()
      && ClockOk()
      && (index < |qs| ==> timerRunning)
      && |awards| == Completions(index + 1, |qs|)
    }

    /** A question is on screen, so its choice and skip buttons exist. */
    predicate Presenting()
      reads this
    {
      index < |qs|
    }

    /**
     * Entering the route: the stage-1 questions are looked up in the
     * loaded `data`, the variables take their initial values and the first
     * `renderQ()` runs. With no questions it goes straight to completion
     * and awards 0 points.
     */
    constructor (data: map<string, seq<Question>>, db: MemoryDB<Value>)
      requires UserSlotOk(db.data)
      modifies db
      ensures Valid()
      ensures this.db == db && qs == LoadQuestions(data, DefaultStage) && startData == old(db.data)
      ensures index == 0 && score == 0 && !locked && pendingAdvances == 0
      ensures qs != [] ==> timerRunning && timeLeft == TimePerQ && awards == [] && db.data == old(db.data)
      ensures qs == [] ==> !timerRunning && awards == [0] && db.data == GainXPOf(old(db.data), 0)
    {
      var loaded := LoadQuestions(data, DefaultStage);
      qs := loaded;
      this.db := db;
      index := 0;
      score := 0;
      locked := false;
      timeLeft := TimePerQ;
      timerRunning := false;
      pendingAdvances := 0;
      answers := NoAnswers(|loaded|);
      awards := [];
      startData := db.data;
      new;
      RenderQ();
    }

    /**
     * `renderQ()` without the view: when `qs[index]` is absent, the
     * completion branch calls `gainXP(score)` and returns, leaving any
     * running interval alone; otherwise the interval is cleared and a new
     * one started with the clock at 20.
     */
    method RenderQ()
      requires Scoring() && ClockOk() && |awards| == Completions(index, |qs|)
      modifies this, db
      ensures Valid()
      ensures index == old(index) && score == old(score) && locked == old(locked)
      ensures pendingAdvances == old(pendingAdvances) && answers == old(answers) && startData == old(startData)
      ensures index < |qs| ==> timerRunning && timeLeft == TimePerQ && awards == old(awards) && db.data == old(db.data)
      ensures index >= |qs| ==>
        && timerRunning == old(timerRunning) && timeLeft == old(timeLeft)
        && awards == old(awards) + [score] && db.data == GainXPOf(old(db.data), score)
    {
      if index >= |qs| {
        GainAllSnoc(startData, awards, score);
        GainXP(db, score);
        awards := awards + [score];
        return;
      }
      timeLeft := TimePerQ;
      timerRunning := true;
    }

    /**
     * `nextQ()`: moves to the next index, clears the lock and renders,
     * which either shows the next question with a fresh clock or runs the
     * completion branch with the unchanged score.
     */
    method NextQ()
      requires Scoring() && ClockOk() && |awards| == Completions(index + 1, |qs|)
      modifies this, db
      ensures Valid()
      ensures index == old(index) + 1 && !locked && score == old(score)
      ensures pendingAdvances == old(pendingAdvances) && answers == old(answers) && startData == old(startData)
      ensures index < |qs| ==> timerRunning && timeLeft == TimePerQ && awards == old(awards) && db.data == old(db.data)
      ensures index >= |qs| ==>
        && timerRunning == old(timerRunning) && timeLeft == old(timeLeft)
        && awards == old(awards) + [score] && db.data == GainXPOf(old(db.data), score)
    {
      index := index + 1;
      locked := false;
      RenderQ();
    }

    /**
     * A click on choice button `i` of the shown question. While locked it
     * does nothing. Otherwise it locks, adds 10 points exactly when `i` is
     * the correct index, and schedules one delayed advance.
     */
    method Choose(i: nat)
      requires Valid() && Presenting() && i < |qs[index].choices|
      modifies this
      ensures Valid()
      ensures old(locked) ==> unchanged(this)
      ensures !old(locked) ==>
        && locked
        && score == old(score) + (if i == qs[index].correctIndex then PointsPerCorrect else 0)
        && pendingAdvances == old(pendingAdvances) + 1
        && answers == old(answers)[index := Some(i)]
        && index == old(index) && timeLeft == old(timeLeft) && timerRunning == old(timerRunning)
        && awards == old(awards) && startData == old(startData)
    {
      if locked {
        return;
      }
      locked := true;
      var correct := i == qs[index].correctIndex;
      CountCorrectAnswer(qs, answers, index, i);
      answers := answers[index := Some(i)];
      if correct {
        score := score + PointsPerCorrect;
      }
      pendingAdvances := pendingAdvances + 1;
    }

    /** A click on the skip button: `nextQ()`, whatever the lock. */
    method Skip()
      requires Valid() && Presenting()
      modifies this, db
      ensures Valid()
      ensures index == old(index) + 1 && !locked && score == old(score)
      ensures pendingAdvances == old(pendingAdvances) && answers == old(answers) && startData == old(startData)
      ensures index < |qs| ==> timerRunning && timeLeft == TimePerQ && awards == old(awards) && db.data == old(db.data)
      ensures index >= |qs| ==>
        && timerRunning && timeLeft == old(timeLeft)
        && awards == old(awards) + [score] && db.data == GainXPOf(old(db.data), score)
    {
      NextQ();
    }

    /**
     * One run of the interval callback: the clock goes down by one; at
     * zero the interval is cleared and `nextQ()` runs.
     */
    method Tick()
      requires Valid() && timerRunning
      modifies this, db
      ensures Valid()
      ensures old(timeLeft) > 1 ==>
        && timeLeft == old(timeLeft) - 1 && timerRunning
        && index == old(index) && score == old(score) && locked == old(locked)
        && pendingAdvances == old(pendingAdvances) && answers == old(answers)
        && awards == old(awards) && db.data == old(db.data) && startData == old(startData)
      ensures old(timeLeft) <= 1 ==>
        && index == old(index) + 1 && !locked && score == old(score)
        && pendingAdvances == old(pendingAdvances) && answers == old(answers) && startData == old(startData)
        && (index < |qs| ==> timerRunning && timeLeft == TimePerQ && awards == old(awards) && db.data == old(db.data))
        && (index >= |qs| ==>
             && !timerRunning && timeLeft == old(timeLeft) - 1
             && awards == old(awards) + [score] && db.data == GainXPOf(old(db.data), score))
    {
      timeLeft := timeLeft - 1;
      if timeLeft <= 0 {
        timerRunning := false;
        NextQ();
      }
    }

    /**
     * One `setTimeout(() => nextQ(), 1000)` callback firing. Nothing
     * cancels these, so it advances from wherever the session now is.
     */
    method DelayedAdvance()
      requires Valid() && pendingAdvances > 0
      modifies this, db
      ensures Valid()
      ensures index == old(index) + 1 && !locked && score == old(score)
      ensures pendingAdvances == old(pendingAdvances) - 1 && answers == old(answers) && startData == old(startData)
      ensures index < |qs| ==> timerRunning && timeLeft == TimePerQ && awards == old(awards) && db.data == old(db.data)
      ensures index >= |qs| ==>
        && timerRunning == old(timerRunning) && timeLeft == old(timeLeft)
        && awards == old(awards) + [score] && db.data == GainXPOf(old(db.data), score)
    {
      pendingAdvances := pendingAdvances - 1;
      NextQ();
    }

    /** No handler can run any more: no question is shown and no timer is pending. */
    predicate Quiet()
      reads this
    {
      !Presenting() && !timerRunning && pendingAdvances == 0
    }

    /**
     * What the session has awarded: every `gainXP` call received the final
     * score, 10 per correct first selection and at most 10 per question,
     * and there was exactly one such call precisely when the session ended
     * on the first index past the last question.
     */
    lemma AwardsAccount()
      requires Valid()
      ensures score % PointsPerCorrect == 0 && score <= PointsPerCorrect * |qs|
      ensures forall k :: 0 <= k < |awards| ==> awards[k] == PointsPerCorrect * CountCorrect(qs, answers)
      ensures !Presenting() ==> |awards| == index + 1 - |qs| >= 1
      ensures |awards| == 1 <==> index == |qs|
    {
    }

    /**
     * What the session has done to the profile, for every interleaving of
     * events: one game and `score` points per completion-branch run, on top
     * of the profile the route was entered with, and the level of the total.
     */
    lemma ProfileAccount()
      requires Valid()
      ensures var u, u' := ProfileOf(startData), ProfileOf(db.data);
        && u'.xp == u.xp + |awards| * score
        && u'.gamesPlayed == u.gamesPlayed + |awards|
        && (awards != [] ==> u'.level == Level(u'.xp))
        && u'.uid == u.uid && u'.name == u.name
    {
      GainAllTotals(startData, awards);
      SumConstant(awards, score);
    }
  }
}
