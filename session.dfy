/** The session state of the Look Away game and the per-round rules that both
    variants of the game (gamecode.cpp and gamecode_Color.cpp) share: judging the
    polled key against the cue, losing a life, and the two difficulty steps.

    Time is modelled in integer milliseconds; a round is fed the key that was
    polled after the delay, with '\0' meaning that no key was pressed. */
module Session {

  /** Per-round waiting time, in milliseconds, of each difficulty tier. */
  const EasyDelay: nat := 2000
  const MediumDelay: nat := 1000
  const HardDelay: nat := 500

  /** Lives a session starts with. */
  const Lives: int := 3

  /** Scores at which the medium and the hard tier are entered. */
  const MediumScore: int := 6
  const HardScore: int := 11

  datatype Option<T> = None | Some(value: T)

  /** What gameLoop keeps between rounds: the score, the lives and the delay it
      gets by reference or by value, its local `gameRunning`, its local
      medium-tier flag and the hard-tier flag it shares with its caller. */
  datatype SessionState = SessionState(
    score: int,
    lives: int,
    delay: nat,
    running: bool,
    mediumDifficultyMessageShown: bool,
    increasedDifficulty: bool)

  /** The verdict on one polled key. */
  datatype Outcome = Success | SameDirection | InvalidInput | Timeout

  /** The message handleGameOver prints. */
  datatype Message = GameOverMessage | InvalidInputMessage | SameDirectionMessage | TimeoutMessage

  /** The difficulty announcement printed at the end of a round, if any. */
  datatype Announcement = NoAnnouncement | MediumAnnounced | HardAnnounced

  /** One round as the judge sees it: the key the cue asks the player to avoid
      (None when the cue glyph is none of the four arrows) and the polled key. */
  datatype RoundInput = RoundInput(cueKey: Option<char>, key: char)

  datatype RoundResult = RoundResult(
    state: SessionState,
    outcome: Outcome,
    message: Option<Message>,
    announcement: Announcement)

  /** The state gameLoop starts from, given its arguments. */
  function Start(delay: nat, score: int, increasedDifficulty: bool, lives: int): SessionState
  {
    SessionState(score, lives, delay, true, false, increasedDifficulty)
  }

  /** The state every session of `main` starts from. */
  function Initial(): SessionState
  {
    Start(EasyDelay, 0, false, Lives)
  }

  /** The guard of gameLoop's `while`. */
  predicate Live(s: SessionState)
  {
    s.running && s.lives > 0
  }

  predicate IsMovementKey(c: char)
  {
    c == 'a' || c == 'w' || c == 's' || c == 'd'
  }

  /** The delay of the tier a given score belongs to. */
  function TierDelay(score: int): nat
  {
    if score >= HardScore then HardDelay
    else if score >= MediumScore then MediumDelay
    else EasyDelay
  }

  /** The judge: a movement key is a success unless it is the cue's own key;
      no key is a timeout; any other character is invalid input. */
  function Classify(cueKey: Option<char>, key: char): Outcome
  {
    if key != '\0' && IsMovementKey(key) then
      if cueKey == Some(key) then SameDirection else Success
    else if key == '\0' then Timeout
    else InvalidInput
  }

  /** The failure message, by priority: invalid input, then same direction,
      then timeout. */
  function FailureMessage(invalidInput: bool, sameDirection: bool): Message
  {
    if invalidInput then InvalidInputMessage
    else if sameDirection then SameDirectionMessage
    else TimeoutMessage
  }

  /** handleGameOver: with no lives left the session stops, otherwise one life
      is taken. The score is passed to it but never changed. */
  function HandleGameOver(s: SessionState, invalidInput: bool, sameDirection: bool): (r: (SessionState, Message))
    ensures r.0.score == s.score && r.0.delay == s.delay
    ensures r.0.mediumDifficultyMessageShown == s.mediumDifficultyMessageShown
    ensures r.0.increasedDifficulty == s.increasedDifficulty
    ensures s.lives == 0 ==> r.0.lives == 0 && !r.0.running && r.1 == GameOverMessage
    ensures s.lives != 0 ==> r.0.lives == s.lives - 1 && r.0.running == s.running
    ensures r.1 == InvalidInputMessage <==> s.lives != 0 && invalidInput
    ensures r.1 == SameDirectionMessage <==> s.lives != 0 && !invalidInput && sameDirection
    ensures r.1 == TimeoutMessage <==> s.lives != 0 && !invalidInput && !sameDirection
  {
    if s.lives == 0 then
      (s.(running := false), GameOverMessage)
    else
      (s.(lives := s.lives - 1), FailureMessage(invalidInput, sameDirection))
  }

  /** What a verdict does to the state: a success scores, every failure goes
      through handleGameOver with the flags that select its message. */
  function Judge(s: SessionState, o: Outcome): (SessionState, Option<Message>)
  {
    match o
    case Success => (s.(score := s.score + 1), None)
    case SameDirection =>
      var (t, m) := HandleGameOver(s, false, true); (t, Some(m))
    case Timeout =>
      var (t, m) := HandleGameOver(s, false, false); (t, Some(m))
    case InvalidInput =>
      var (t, m) := HandleGameOver(s, true, false); (t, Some(m))
  }

  /** The two edge-triggered difficulty steps checked after every round. */
  function AdjustDifficulty(s: SessionState): (SessionState, Announcement)
  {
    if s.score == MediumScore && !s.mediumDifficultyMessageShown then
      (s.(mediumDifficultyMessageShown := true, delay := MediumDelay), MediumAnnounced)
    else if s.score == HardScore && !s.increasedDifficulty then
      (s.(increasedDifficulty := true, delay := HardDelay), HardAnnounced)
    else
      (s, NoAnnouncement)
  }

  /** One round after the cue is shown and the key polled: judge, then adjust
      the difficulty. */
  function Round(s: SessionState, x: RoundInput): (r: RoundResult)
    ensures r.outcome == Classify(x.cueKey, x.key)
    ensures r.state.score == if r.outcome == Success then s.score + 1 else s.score
    ensures r.state.lives == if r.outcome == Success || s.lives == 0 then s.lives else s.lives - 1
    ensures r.state.running == (s.running && (r.outcome == Success || s.lives != 0))
    ensures r.message == None <==> r.outcome == Success
    ensures r.outcome != Success && s.lives == 0 ==> r.message == Some(GameOverMessage)
    ensures r.outcome == InvalidInput && s.lives != 0 ==> r.message == Some(InvalidInputMessage)
    ensures r.outcome == SameDirection && s.lives != 0 ==> r.message == Some(SameDirectionMessage)
    ensures r.outcome == Timeout && s.lives != 0 ==> r.message == Some(TimeoutMessage)
    ensures r.announcement == MediumAnnounced <==> r.state.score == MediumScore && !s.mediumDifficultyMessageShown
    ensures r.announcement == HardAnnounced <==> r.state.score == HardScore && !s.increasedDifficulty
    ensures r.state.mediumDifficultyMessageShown == (s.mediumDifficultyMessageShown || r.announcement == MediumAnnounced)
    ensures r.state.increasedDifficulty == (s.increasedDifficulty || r.announcement == HardAnnounced)
    ensures r.state.delay == match r.announcement
                             case NoAnnouncement => s.delay
                             case MediumAnnounced => MediumDelay
                             case HardAnnounced => HardDelay
  {
    var o := Classify(x.cueKey, x.key);
    var (judged, m) := Judge(s, o);
    var (adjusted, a) := AdjustDifficulty(judged);
    RoundResult(adjusted, o, m, a)
  }

  /** The rounds the judge sees when the cues `shown` meet the polled `keys`,
      given the key each cue asks the player not to press. */
  function Rounds<C>(cueKey: C -> Option<char>, shown: seq<C>, keys: seq<char>): seq<RoundInput>
    requires |shown| <= |keys|
  {
    seq(|shown|, i requires 0 <= i < |shown| => RoundInput(cueKey(shown[i]), keys[i]))
  }

  lemma RoundsAppend<C>(cueKey: C -> Option<char>, shown: seq<C>, c: C, keys: seq<char>)
    requires |shown| < |keys|
    ensures Rounds(cueKey, shown + [c], keys) == Rounds(cueKey, shown, keys) + [RoundInput(cueKey(c), keys[|shown|])]
  {
  }

  /** The state after gameLoop has played the given rounds in order; rounds
      after the loop guard fails are not played. */
  function Play(s: SessionState, xs: seq<RoundInput>): SessionState
    decreases |xs|
  {
    if |xs| == 0 || !Live(s) then s
    else Play(Round(s, xs[0]).state, xs[1..])
  }

  /** The verdicts of the rounds Play actually plays. */
  function Outcomes(s: SessionState, xs: seq<RoundInput>): seq<Outcome>
    decreases |xs|
  {
    if |xs| == 0 || !Live(s) then []
    else [Round(s, xs[0]).outcome] + Outcomes(Round(s, xs[0]).state, xs[1..])
  }

  /** The announcements of the rounds Play actually plays. */
  function Announcements(s: SessionState, xs: seq<RoundInput>): seq<Announcement>
    decreases |xs|
  {
    if |xs| == 0 || !Live(s) then []
    else [Round(s, xs[0]).announcement] + Announcements(Round(s, xs[0]).state, xs[1..])
  }

  function Count<T(==)>(x: T, xs: seq<T>): nat
  {
    if |xs| == 0 then 0
    else (if xs[0] == x then 1 else 0) + Count(x, xs[1..])
  }

  /** The states a session passes through between rounds: the game is running,
      lives lie in [0, Lives], and both tier flags and the delay are exactly
      those the score calls for. */
  predicate Consistent(s: SessionState)
  {
    && s.running
    && 0 <= s.score
    && 0 <= s.lives <= Lives
    && s.mediumDifficultyMessageShown == (s.score >= MediumScore)
    && s.increasedDifficulty == (s.score >= HardScore)
    && s.delay == TierDelay(s.score)
  }

  lemma InitialConsistent()
    ensures Consistent(Initial())
  {
  }

  /** Playing one more round from a live state extends the play by that round. */
  lemma {:induction false} PlayAppend(s: SessionState, xs: seq<RoundInput>, x: RoundInput)
    requires Live(Play(s, xs))
    ensures Play(s, xs + [x]) == Round(Play(s, xs), x).state
    ensures Outcomes(s, xs + [x]) == Outcomes(s, xs) + [Round(Play(s, xs), x).outcome]
    ensures Announcements(s, xs + [x]) == Announcements(s, xs) + [Round(Play(s, xs), x).announcement]
    decreases |xs|
  {
    if |xs| == 0 {
      assert xs + [x] == [x];
      assert [x][1..] == [];
    } else {
      assert Live(s);
      assert (xs + [x])[0] == xs[0];
      assert (xs + [x])[1..] == xs[1..] + [x];
      PlayAppend(Round(s, xs[0]).state, xs[1..], x);
    }
  }

  /** One more loop iteration, stated over the cues shown so far: the round
      for cue `c` and the next polled key extends Play and its verdicts. */
  lemma PlayNextCue<C>(s: SessionState, cueKey: C -> Option<char>, shown: seq<C>, c: C, keys: seq<char>)
    requires |shown| < |keys| && Live(Play(s, Rounds(cueKey, shown, keys)))
    ensures var x := RoundInput(cueKey(c), keys[|shown|]);
      && Play(s, Rounds(cueKey, shown + [c], keys)) == Round(Play(s, Rounds(cueKey, shown, keys)), x).state
      && |Outcomes(s, Rounds(cueKey, shown + [c], keys))| == |Outcomes(s, Rounds(cueKey, shown, keys))| + 1
  {
    RoundsAppend(cueKey, shown, c, keys);
    PlayAppend(s, Rounds(cueKey, shown, keys), RoundInput(cueKey(c), keys[|shown|]));
  }

  /** A round played from a consistent live state leads to a consistent state. */
  lemma RoundKeepsConsistent(s: SessionState, x: RoundInput)
    requires Consistent(s) && Live(s)
    ensures Consistent(Round(s, x).state)
  {
  }

  /** Every state a session reaches from a consistent state is consistent: in
      particular the hard flag is never set without the medium flag, and the
      delay is always the one the score's tier calls for. */
  lemma {:induction false} PlayKeepsConsistent(s: SessionState, xs: seq<RoundInput>)
    requires Consistent(s)
    ensures Consistent(Play(s, xs))
    decreases |xs|
  {
    if |xs| > 0 && Live(s) {
      RoundKeepsConsistent(s, xs[0]);
      PlayKeepsConsistent(Round(s, xs[0]).state, xs[1..]);
    }
  }

  /** The score rises by exactly one per success and lives fall by exactly one
      per failure; the "Game over" branch of handleGameOver is never taken, so
      the running flag never changes. */
  lemma {:induction false} PlayLedger(s: SessionState, xs: seq<RoundInput>)
    ensures |Outcomes(s, xs)| <= |xs|
    ensures Play(s, xs).score == s.score + Count(Success, Outcomes(s, xs))
    ensures Play(s, xs).lives == s.lives - (|Outcomes(s, xs)| - Count(Success, Outcomes(s, xs)))
    ensures Play(s, xs).running == s.running
    decreases |xs|
  {
    if |xs| > 0 && Live(s) {
      var r := Round(s, xs[0]);
      PlayLedger(r.state, xs[1..]);
      var rest := Outcomes(r.state, xs[1..]);
      assert Outcomes(s, xs) == [r.outcome] + rest;
      assert ([r.outcome] + rest)[1..] == rest;
    }
  }

  /** Score never falls, lives never rise, and in a consistent session the
      delay never rises. */
  lemma {:induction false} PlayMonotone(s: SessionState, xs: seq<RoundInput>)
    ensures Play(s, xs).score >= s.score
    ensures Play(s, xs).lives <= s.lives
    ensures Consistent(s) ==> Play(s, xs).delay <= s.delay
    decreases |xs|
  {
    if |xs| > 0 && Live(s) {
      var t := Round(s, xs[0]).state;
      if Consistent(s) {
        RoundKeepsConsistent(s, xs[0]);
      }
      PlayMonotone(t, xs[1..]);
    }
  }

  /** A consistent session stops exactly when its lives reach 0: it is still
      live iff lives are positive, and if it stops before its rounds run out,
      lives are 0. */
  lemma {:induction false} SessionEndsAtZero(s: SessionState, xs: seq<RoundInput>)
    requires Consistent(s)
    ensures Live(Play(s, xs)) <==> Play(s, xs).lives > 0
    ensures |Outcomes(s, xs)| < |xs| ==> Play(s, xs).lives == 0
    decreases |xs|
  {
    PlayKeepsConsistent(s, xs);
    if |xs| > 0 && Live(s) {
      RoundKeepsConsistent(s, xs[0]);
      SessionEndsAtZero(Round(s, xs[0]).state, xs[1..]);
    }
  }

  /** Each difficulty announcement is made once at most: exactly once if its
      flag goes from clear to set over the session, never otherwise; flags are
      never cleared. */
  lemma {:induction false} AnnouncedOnce(s: SessionState, xs: seq<RoundInput>)
    ensures s.mediumDifficultyMessageShown ==> Play(s, xs).mediumDifficultyMessageShown
    ensures s.increasedDifficulty ==> Play(s, xs).increasedDifficulty
    ensures Count(MediumAnnounced, Announcements(s, xs)) ==
            if !s.mediumDifficultyMessageShown && Play(s, xs).mediumDifficultyMessageShown then 1 else 0
    ensures Count(HardAnnounced, Announcements(s, xs)) ==
            if !s.increasedDifficulty && Play(s, xs).increasedDifficulty then 1 else 0
    decreases |xs|
  {
    if |xs| > 0 && Live(s) {
      var r := Round(s, xs[0]);
      AnnouncedOnce(r.state, xs[1..]);
      var rest := Announcements(r.state, xs[1..]);
      assert Announcements(s, xs) == [r.announcement] + rest;
      assert ([r.announcement] + rest)[1..] == rest;
    }
  }

  /** What every session of `main` guarantees, whatever is pressed. */
  lemma SessionFromStart(xs: seq<RoundInput>)
    ensures var f := Play(Initial(), xs);
      && Consistent(f)
      && 0 <= f.lives <= Lives
      && (f.increasedDifficulty ==> f.mediumDifficultyMessageShown)
      && (f.score >= MediumScore ==> f.delay <= MediumDelay)
      && (f.score >= HardScore ==> f.delay == HardDelay)
      && (Live(f) <==> f.lives > 0)
      && (|Outcomes(Initial(), xs)| < |xs| ==> f.lives == 0)
  {
    InitialConsistent();
    PlayKeepsConsistent(Initial(), xs);
    SessionEndsAtZero(Initial(), xs);
  }

  /** Three rounds without a key end a fresh session with score 0. */
  lemma ThreeTimeoutsEndSession(k1: Option<char>, k2: Option<char>, k3: Option<char>)
    ensures var f := Play(Initial(), [RoundInput(k1, '\0'), RoundInput(k2, '\0'), RoundInput(k3, '\0')]);
      f.lives == 0 && f.score == 0 && !Live(f)
  {
    var xs := [RoundInput(k1, '\0'), RoundInput(k2, '\0'), RoundInput(k3, '\0')];
    var s1 := Round(Initial(), xs[0]).state;
    var s2 := Round(s1, xs[1]).state;
    var s3 := Round(s2, xs[2]).state;
    assert Play(Initial(), xs) == Play(s1, xs[1..]);
    assert Play(s1, xs[1..]) == Play(s2, xs[2..]);
    assert Play(s2, xs[2..]) == Play(s3, xs[3..]);
  }
}
