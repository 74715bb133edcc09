/** What outlives a run: the set of unlocked levels, extended by the game
    over screen after a win, and the boss's attack mode, which run_game
    never resets. */
module Sessions {
  import opened Runs
  import opened Cleanup

  datatype Session = Session(unlocked: set<int>, attack: Attack)

  /** The program's start: only level 1 is open, the boss opens with bullets. */
  function Boot(): (s: Session)
    ensures Selectable(s, 1) && !Selectable(s, 2)
    ensures forall level :: level in s.unlocked <==> level == 1
    ensures s.attack == Bullets
  {
    Session({1}, Bullets)
  }

  /** The main menu's level buttons: level 1 always, level 2 once unlocked. */
  predicate Selectable(s: Session, level: int) {
    level == 1 || (level == 2 && 2 in s.unlocked)
  }

  /** The unlock in the game over screen: a won level opens the next one
      (for level 2 that is a level 3 no button offers). */
  function Unlock(unlocked: set<int>, level: int, outcome: Outcome): (r: set<int>)
    ensures unlocked <= r && r <= unlocked + {level + 1}
    ensures level + 1 in r <==> level + 1 in unlocked || outcome == Won
  {
    if outcome == Won then unlocked + {level + 1} else unlocked
  }

  /** The end of a run: the unlock, and the attack mode the run ended in. */
  function Conclude(s: Session, level: int, outcome: Outcome, attack: Attack): Session {
    Session(Unlock(s.unlocked, level, outcome), attack)
  }

  /** After a run the level 2 button is offered exactly when it already was
      or level 1 has just been won; the boss keeps the attack mode the run
      ended in. */
  lemma ConcludeSelectable(s: Session, level: int, outcome: Outcome, attack: Attack)
    ensures Selectable(Conclude(s, level, outcome, attack), 1)
    ensures Selectable(Conclude(s, level, outcome, attack), 2) <==>
              Selectable(s, 2) || (level == 1 && outcome == Won)
    ensures forall l :: l != 1 && l != 2 ==> !Selectable(Conclude(s, level, outcome, attack), l)
    ensures Conclude(s, level, outcome, attack).attack == attack
  {
  }

  /** From a fresh start, winning level 1 opens level 2. */
  lemma FirstWin(attack: Attack)
    ensures !Selectable(Boot(), 2)
    ensures Selectable(Conclude(Boot(), 1, Won, attack), 2)
    ensures !Selectable(Conclude(Boot(), 1, Lost, attack), 2)
  {
  }

  /** The levels unlocked after a history of finished runs, each a level and
      its outcome. */
  function Replay(unlocked: set<int>, history: seq<(int, Outcome)>): set<int>
    decreases |history|
  {
    if history == [] then unlocked
    else
      var (level, outcome) := history[|history| - 1];
      Unlock(Replay(unlocked, history[..|history| - 1]), level, outcome)
  }

  /** Level 2 becomes selectable exactly once level 1 has been won, and
      stays so. */
  lemma {:induction false} LevelTwoUnlocked(history: seq<(int, Outcome)>)
    ensures 2 in Replay({1}, history) <==> exists i :: 0 <= i < |history| && history[i] == (1, Won)
    decreases |history|
  {
    if history != [] {
      var front := history[..|history| - 1];
      LevelTwoUnlocked(front);
      if exists i :: 0 <= i < |front| && front[i] == (1, Won) {
        var i :| 0 <= i < |front| && front[i] == (1, Won);
        assert history[i] == (1, Won);
      }
      if exists i :: 0 <= i < |history| && history[i] == (1, Won) {
        var i :| 0 <= i < |history| && history[i] == (1, Won);
        if i < |front| {
          assert front[i] == (1, Won);
        }
      }
    }
  }

  /** Unlocking never closes a level. */
  lemma {:induction false} ReplayGrows(unlocked: set<int>, history: seq<(int, Outcome)>)
    ensures unlocked <= Replay(unlocked, history)
    decreases |history|
  {
    if history != [] {
      ReplayGrows(unlocked, history[..|history| - 1]);
    }
  }
}
