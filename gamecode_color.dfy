/** The coloured variant of the game (gamecode_Color.cpp): each cue is an arrow
    glyph drawn in a colour in [1, 15] that differs from the previous cue's.

    `rand()` is an oracle: the sequence of values it returns, in order. */
module GamecodeColor {
  import opened Session

  /** A cue as generateDirectionWithColor returns it. */
  datatype Cue = Cue(direction: char, color: int)

  /** The colour gameLoop starts from, which no drawn colour equals. */
  const NoColor: int := -1

  predicate IsArrow(c: char)
  {
    c == '<' || c == '>' || c == '^' || c == 'v'
  }

  /** The `switch (randNum)` of generateDirectionWithColor; ' ' outside 0..3. */
  function ArrowOf(randNum: int): char
  {
    match randNum
    case 0 => '<'
    case 1 => '>'
    case 2 => '^'
    case 3 => 'v'
    case _ => ' '
  }

  /** Inverse of ArrowOf on the four arrows. */
  function ArrowIndex(c: char): int
  {
    match c
    case '<' => 0
    case '>' => 1
    case '^' => 2
    case 'v' => 3
    case _ => -1
  }

  lemma ArrowIndexInverse(n: int, c: char)
    ensures 0 <= n < 4 ==> ArrowIndex(ArrowOf(n)) == n
    ensures IsArrow(c) ==> ArrowOf(ArrowIndex(c)) == c
  {
  }

  /** The arrow of a `rand()` value: never the ' ' default, and each residue
      modulo 4 gives its own arrow. */
  function DrawArrow(draw: nat): (c: char)
    ensures IsArrow(c)
    ensures ArrowIndex(c) == draw % 4
  {
    ArrowOf(draw % 4)
  }

  /** `rand() % 15 + 1`. */
  function ColorOf(draw: nat): (c: int)
    ensures 1 <= c <= 15 && c != NoColor
  {
    draw % 15 + 1
  }

  /** The key that the cue asks the player not to press: the `switch
      (direction)` of gameLoop. Glyphs other than the arrows have none. */
  function CueKey(direction: char): (k: Option<char>)
    ensures k.Some? <==> IsArrow(direction)
    ensures k.Some? ==> IsMovementKey(k.value)
  {
    match direction
    case '<' => Some('a')
    case '>' => Some('d')
    case '^' => Some('w')
    case 'v' => Some('s')
    case _ => None
  }

  /** Different arrows ask the player to avoid different keys. */
  lemma CueKeysDistinct(d1: char, d2: char)
    requires IsArrow(d1) && IsArrow(d2) && d1 != d2
    ensures CueKey(d1) != CueKey(d2)
  {
  }

  /** One round of gameLoop after `direction` was shown and `key` polled. */
  function PlayRound(s: SessionState, direction: char, key: char): (r: RoundResult)
    ensures s.lives > 0 && (direction, key) in {('<', 'a'), ('>', 'd'), ('^', 'w'), ('v', 's')} ==>
      r.outcome == SameDirection && r.state.lives == s.lives - 1 && r.state.score == s.score
    ensures s.lives > 0 && IsArrow(direction) && IsMovementKey(key)
            && (direction, key) !in {('<', 'a'), ('>', 'd'), ('^', 'w'), ('v', 's')} ==>
      r.outcome == Success && r.state.lives == s.lives && r.state.score == s.score + 1
    ensures s.lives > 0 && !IsMovementKey(key) ==>
      r.outcome == (if key == '\0' then Timeout else InvalidInput)
      && r.state.lives == s.lives - 1 && r.state.score == s.score
    ensures s.lives > 0 ==> r.state.running == s.running
  {
    Round(s, RoundInput(CueKey(direction), key))
  }

  /** The index of the first draw at or after `i` whose colour differs from
      `prevColor`, or |draws| when there is none. */
  function FirstFreshColor(prevColor: int, draws: seq<nat>, i: nat): (k: nat)
    requires i <= |draws|
    ensures i <= k <= |draws|
    ensures forall j :: i <= j < k ==> ColorOf(draws[j]) == prevColor
    ensures k < |draws| ==> ColorOf(draws[k]) != prevColor
    decreases |draws| - i
  {
    if i == |draws| then |draws|
    else if ColorOf(draws[i]) != prevColor then i
    else FirstFreshColor(prevColor, draws, i + 1)
  }

  /** The cue generateDirectionWithColor makes from the front of `draws`, with
      the number of draws it takes; None when the draws run out first. */
  function NextCue(prevColor: int, draws: seq<nat>): (r: Option<(Cue, nat)>)
    ensures r.Some? ==>
      && 2 <= r.value.1 <= |draws|
      && r.value.0.direction == DrawArrow(draws[0])
      && r.value.0.color == ColorOf(draws[r.value.1 - 1])
      && r.value.0.color != prevColor
      && forall j :: 1 <= j < r.value.1 - 1 ==> ColorOf(draws[j]) == prevColor
    ensures r.None? ==> forall j :: 1 <= j < |draws| ==> ColorOf(draws[j]) == prevColor
  {
    if |draws| == 0 then None
    else
      var k := FirstFreshColor(prevColor, draws, 1);
      if k == |draws| then None
      else Some((Cue(DrawArrow(draws[0]), ColorOf(draws[k])), k + 1))
  }

  /** generateDirectionWithColor with `rand()` returning `draws` in order: the
      first draw picks the arrow, then colours are drawn until one differs from
      `prevColor`. None when the draws run out first. */
  method GenerateDirectionWithColor(prevColor: int, draws: seq<nat>) returns (cue: Option<Cue>, used: nat)
    ensures used <= |draws|
    ensures cue.Some? ==>
      && 2 <= used
      && cue.value.direction == DrawArrow(draws[0])
      && IsArrow(cue.value.direction)
      && cue.value.color == ColorOf(draws[used - 1])
      && 1 <= cue.value.color <= 15
      && cue.value.color != prevColor
      && NextCue(prevColor, draws) == Some((cue.value, used))
      && forall k :: 1 <= k < used - 1 ==> ColorOf(draws[k]) == prevColor
    ensures cue.None? ==>
      && used == |draws|
      && NextCue(prevColor, draws) == None
      && forall k :: 1 <= k < |draws| ==> ColorOf(draws[k]) == prevColor
  {
    if |draws| == 0 {
      return None, 0;
    }
    var randNum := draws[0] % 4;
    var i := 1;
    while true
      invariant 1 <= i <= |draws|
      invariant forall k :: 1 <= k < i ==> ColorOf(draws[k]) == prevColor
      invariant FirstFreshColor(prevColor, draws, 1) == FirstFreshColor(prevColor, draws, i)
      decreases |draws| - i
    {
      if i == |draws| {
        return None, |draws|;
      }
      var color := draws[i] % 15 + 1;
      i := i + 1;
      if color != prevColor {
        return Some(Cue(ArrowOf(randNum), color)), i;
      }
    }
  }

  /** The colour of the last cue in `cues`, or `prevColor` when there is none. */
  function LastColor(prevColor: int, cues: seq<Cue>): int
  {
    if |cues| == 0 then prevColor else cues[|cues| - 1].color
  }

  /** The cues dealt by consecutive calls of generateDirectionWithColor and
      the number of draws they took. */
  datatype Dealt = Dealt(cues: seq<Cue>, used: nat)

  /** The cues of `n` consecutive calls of generateDirectionWithColor on
      `draws`, each passed the previous cue's colour, and the draws they take.
      Fewer than `n` cues only when the draws ran out, and then all are taken. */
  function Deal(prevColor: int, draws: seq<nat>, n: nat): (r: Dealt)
    ensures |r.cues| <= n && r.used <= |draws|
    ensures |r.cues| < n ==> r.used == |draws|
    decreases n, 1
  {
    if n == 0 then Dealt([], 0) else DealAfter(prevColor, draws, n - 1)
  }

  /** One more call after Deal(prevColor, draws, n): the next cue from the
      draws not yet used, or, when there is none, all the draws. */
  function DealAfter(prevColor: int, draws: seq<nat>, n: nat): (r: Dealt)
    ensures |r.cues| <= n + 1 && r.used <= |draws|
    ensures |r.cues| < n + 1 ==> r.used == |draws|
    decreases n + 1, 0
  {
    var before := Deal(prevColor, draws, n);
    if |before.cues| < n then before
    else
      match NextCue(LastColor(prevColor, before.cues), draws[before.used..])
      case None => Dealt(before.cues, |draws|)
      case Some(next) => Dealt(before.cues + [next.0], before.used + next.1)
  }

  /** Every dealt cue is an arrow in a colour from 1 to 15, the first differs
      from `prevColor`, and no two consecutive cues share a colour. */
  lemma {:induction false} DealColorsChange(prevColor: int, draws: seq<nat>, n: nat, cues: seq<Cue>)
    requires Deal(prevColor, draws, n).cues == cues
    ensures forall i :: 0 <= i < |cues| ==> IsArrow(cues[i].direction) && 1 <= cues[i].color <= 15
    ensures |cues| > 0 ==> cues[0].color != prevColor
    ensures forall i :: 0 < i < |cues| ==> cues[i].color != cues[i - 1].color
    decreases n
  {
    if n > 0 {
      assert Deal(prevColor, draws, n) == DealAfter(prevColor, draws, n - 1);
      DealColorsChange(prevColor, draws, n - 1, Deal(prevColor, draws, n - 1).cues);
    }
  }

  /** Dealing one more cue after `cues` were dealt with `used` draws takes
      `next`, the cue made from the draws not yet used, or, when there is none,
      all the draws. */
  lemma DealNext(prevColor: int, draws: seq<nat>, n: nat, cues: seq<Cue>, used: nat, next: Option<(Cue, nat)>)
    requires Deal(prevColor, draws, n) == Dealt(cues, used) && |cues| == n
    requires next == NextCue(LastColor(prevColor, cues), draws[used..])
    ensures Deal(prevColor, draws, n + 1) == if next.None? then Dealt(cues, |draws|) else Dealt(cues + [next.value.0], used + next.value.1)
  {
  }

  /** gameLoop with `rand()` returning `draws` and the key polled in round i
      being `keys[i]`. Returns the final state, the cues shown and how many
      draws were used; `dealt` counts the calls of generateDirectionWithColor.
      It runs while the game is running and lives are positive, and also stops
      when the keys or draws run out: the cues are exactly those the draws
      deal, one more call being made (and failing) only when the loop was
      still live. */
  method GameLoop(delay: nat, score: int, increasedDifficulty: bool, lives: int, draws: seq<nat>, keys: seq<char>)
    returns (final: SessionState, shown: seq<Cue>, used: nat, ghost dealt: nat)
    ensures |shown| <= |keys| && used <= |draws|
    ensures dealt == if Live(final) && |shown| < |keys| then |shown| + 1 else |shown|
    ensures Deal(NoColor, draws, dealt) == Dealt(shown, used)
    ensures final == Play(Start(delay, score, increasedDifficulty, lives), Rounds(CueKeyOf, shown, keys))
    ensures |Outcomes(Start(delay, score, increasedDifficulty, lives), Rounds(CueKeyOf, shown, keys))| == |shown|
    ensures forall i :: 0 <= i < |shown| ==> IsArrow(shown[i].direction) && 1 <= shown[i].color <= 15
    ensures forall i :: 0 < i < |shown| ==> shown[i].color != shown[i - 1].color
    ensures Live(final) ==> |shown| == |keys| || used == |draws|
  {
    final := Start(delay, score, increasedDifficulty, lives);
    ghost var start := final;
    shown := [];
    used := 0;
    var prevColor := NoColor;
    dealt := 0;
    while final.running && final.lives > 0 && |shown| < |keys|
      invariant dealt == |shown| <= |keys| && used <= |draws|
      invariant Deal(NoColor, draws, dealt) == Dealt(shown, used)
      invariant final == Play(start, Rounds(CueKeyOf, shown, keys))
      invariant |Outcomes(start, Rounds(CueKeyOf, shown, keys))| == |shown|
      invariant prevColor == LastColor(NoColor, shown)
      decreases |keys| - |shown|
    {
      var cue, n := GenerateDirectionWithColor(prevColor, draws[used..]);
      DealNext(NoColor, draws, dealt, shown, used, if cue.None? then None else Some((cue.value, n)));
      used := used + n;
      dealt := dealt + 1;
      if cue.None? {
        break;
      }
      var c := cue.value;
      prevColor := c.color;
      var keyPressed := keys[|shown|];
      var x := RoundInput(CueKeyOf(c), keyPressed);
      PlayNextCue(start, CueKeyOf, shown, c, keys);
      final := Round(final, x).state;
      shown := shown + [c];
    }
    DealColorsChange(NoColor, draws, dealt, shown);
  }

  /** The key a cue asks the player not to press. */
  function CueKeyOf(c: Cue): Option<char>
  {
    CueKey(c.direction)
  }

  /** One session of `main`: gameLoop from the easy delay, score 0, the hard
      flag clear and three lives. Whatever is pressed, lives stay in [0, 3],
      the score counts the successes, the delay is the score's tier, and the
      session only stops with lives left when the input ran out. */
  method PlaySession(draws: seq<nat>, keys: seq<char>) returns (final: SessionState, shown: seq<Cue>, used: nat)
    ensures |shown| <= |keys| && used <= |draws|
    ensures Dealt(shown, used) == Deal(NoColor, draws, if final.lives > 0 && |shown| < |keys| then |shown| + 1 else |shown|)
    ensures 0 <= final.lives <= Lives
    ensures final.score == Count(Success, Outcomes(Initial(), Rounds(CueKeyOf, shown, keys)))
    ensures final.lives == Lives - (|shown| - final.score)
    ensures final.delay == TierDelay(final.score)
    ensures final.increasedDifficulty ==> final.mediumDifficultyMessageShown
    ensures final.lives > 0 ==> |shown| == |keys| || used == |draws|
    ensures forall i :: 0 < i < |shown| ==> shown[i].color != shown[i - 1].color
  {
    ghost var dealt;
    final, shown, used, dealt := GameLoop(EasyDelay, 0, false, Lives, draws, keys);
    SessionFromStart(Rounds(CueKeyOf, shown, keys));
    PlayLedger(Initial(), Rounds(CueKeyOf, shown, keys));
  }

  /** The answers `main` accepts to "play again?". */
  predicate IsPlayAgainAnswer(c: char)
  {
    c == 'y' || c == 'Y' || c == 'n' || c == 'N'
  }

  /** The answers that start another session. */
  predicate PlaysAgain(c: char)
  {
    c == 'y' || c == 'Y'
  }

  /** The inner do-while of `main`: read answers until one is y, Y, n or N,
      then decide, as the outer do-while does, whether another session starts.
      None when the answers run out first. */
  method ReadPlayAgain(answers: seq<char>) returns (answer: Option<char>, consumed: nat, again: bool)
    ensures consumed <= |answers|
    ensures answer.Some? ==>
      && 0 < consumed
      && answer.value == answers[consumed - 1]
      && IsPlayAgainAnswer(answer.value)
    ensures forall k :: 0 <= k < consumed - 1 ==> !IsPlayAgainAnswer(answers[k])
    ensures answer.None? ==> consumed == |answers| && forall k :: 0 <= k < |answers| ==> !IsPlayAgainAnswer(answers[k])
    ensures again <==> answer.Some? && PlaysAgain(answer.value)
  {
    consumed := 0;
    while consumed < |answers|
      invariant consumed <= |answers|
      invariant forall k :: 0 <= k < consumed ==> !IsPlayAgainAnswer(answers[k])
    {
      var playAgain := answers[consumed];
      consumed := consumed + 1;
      if playAgain == 'y' || playAgain == 'Y' || playAgain == 'n' || playAgain == 'N' {
        return Some(playAgain), consumed, playAgain == 'y' || playAgain == 'Y';
      }
    }
    return None, consumed, false;
  }
}
