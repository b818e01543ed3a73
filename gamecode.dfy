/** The plain variant of the game (gamecode.cpp): each cue is a direction letter
    shown as an arrow glyph, coloured green, yellow and red in turn, one colour
    per round.

    `rand()` is an oracle: the value it returns in round i is `draws[i]`. */
module Gamecode {
  import opened Session
  import GamecodeColor

  /** The ANSI colour a cue is printed in. */
  datatype CueColor = Green | Yellow | Red

  /** What a round puts on the screen. */
  datatype Display = Display(direction: char, glyph: string, color: CueColor)

  predicate IsDirection(c: char)
  {
    c == 'L' || c == 'R' || c == 'U' || c == 'D'
  }

  /** The `switch (randNum)` of generateDirection; ' ' outside 0..3. */
  function DirectionOf(randNum: int): char
  {
    match randNum
    case 0 => 'L'
    case 1 => 'R'
    case 2 => 'U'
    case 3 => 'D'
    case _ => ' '
  }

  /** Inverse of DirectionOf on the four directions. */
  function DirectionIndex(c: char): int
  {
    match c
    case 'L' => 0
    case 'R' => 1
    case 'U' => 2
    case 'D' => 3
    case _ => -1
  }

  lemma DirectionIndexInverse(n: int, c: char)
    ensures 0 <= n < 4 ==> DirectionIndex(DirectionOf(n)) == n
    ensures IsDirection(c) ==> DirectionOf(DirectionIndex(c)) == c
  {
  }

  /** generateDirection for a `rand()` value: never the ' ' default, and each
      residue modulo 4 gives its own direction. */
  function GenerateDirection(draw: nat): (d: char)
    ensures IsDirection(d)
    ensures DirectionIndex(d) == draw % 4
  {
    DirectionOf(draw % 4)
  }

  /** The glyph printed for a direction: anything but L, R and U shows as "v". */
  function Glyph(direction: char): (g: string)
    ensures |g| == 1
    ensures GamecodeColor.IsArrow(g[0])
    ensures g == "<" <==> direction == 'L'
    ensures g == ">" <==> direction == 'R'
    ensures g == "^" <==> direction == 'U'
    ensures !IsDirection(direction) ==> g == "v"
  {
    if direction == 'L' then "<"
    else if direction == 'R' then ">"
    else if direction == 'U' then "^"
    else "v"
  }

  /** The colour of the cue shown after `colorCount` earlier cues. */
  function ColorFor(colorCount: nat): CueColor
  {
    match colorCount % 3
    case 0 => Green
    case 1 => Yellow
    case 2 => Red
  }

  /** Colours cycle with period 3, and two consecutive cues never share one. */
  lemma ColorCycle(n: nat)
    ensures ColorFor(n + 3) == ColorFor(n)
    ensures ColorFor(n + 1) != ColorFor(n)
  {
  }

  /** The key that the cue asks the player not to press: the `switch
      (direction)` of gameLoop. Letters other than the four have none. */
  function CueKey(direction: char): (k: Option<char>)
    ensures k.Some? <==> IsDirection(direction)
    ensures k.Some? ==> IsMovementKey(k.value)
  {
    match direction
    case 'L' => Some('a')
    case 'R' => Some('d')
    case 'U' => Some('w')
    case 'D' => Some('s')
    case _ => None
  }

  /** One round of gameLoop after `direction` was shown and `key` polled. */
  function PlayRound(s: SessionState, direction: char, key: char): (r: RoundResult)
    ensures s.lives > 0 && (direction, key) in {('L', 'a'), ('R', 'd'), ('U', 'w'), ('D', 's')} ==>
      r.outcome == SameDirection && r.state.lives == s.lives - 1 && r.state.score == s.score
    ensures s.lives > 0 && IsDirection(direction) && IsMovementKey(key)
            && (direction, key) !in {('L', 'a'), ('R', 'd'), ('U', 'w'), ('D', 's')} ==>
      r.outcome == Success && r.state.lives == s.lives && r.state.score == s.score + 1
    ensures s.lives > 0 && !IsMovementKey(key) ==>
      r.outcome == (if key == '\0' then Timeout else InvalidInput)
      && r.state.lives == s.lives - 1 && r.state.score == s.score
    ensures s.lives > 0 ==> r.state.running == s.running
  {
    Round(s, RoundInput(CueKey(direction), key))
  }

  /** For the same `rand()` value and key, the two variants show the same
      arrow and judge the round the same way. */
  lemma VariantsAgree(s: SessionState, draw: nat, key: char)
    ensures Glyph(GenerateDirection(draw)) == [GamecodeColor.DrawArrow(draw)]
    ensures PlayRound(s, GenerateDirection(draw), key) == GamecodeColor.PlayRound(s, GamecodeColor.DrawArrow(draw), key)
  {
    var n := draw % 4;
    assert CueKey(DirectionOf(n)) == GamecodeColor.CueKey(GamecodeColor.ArrowOf(n));
  }

  /** The key a displayed cue asks the player not to press. */
  function DisplayKey(d: Display): Option<char>
  {
    CueKey(d.direction)
  }

  /** gameLoop with `rand()` returning `draws[i]` and the key polled being
      `keys[i]` in round i. Returns the final state and what each round showed.
      It runs while the game is running and lives are positive, and also stops
      when the keys or draws run out. The colour of round i is ColorFor(i),
      whatever the difficulty. */
  method GameLoop(delay: nat, score: int, increasedDifficulty: bool, lives: int, draws: seq<nat>, keys: seq<char>)
    returns (final: SessionState, shown: seq<Display>)
    ensures |shown| <= |keys| && |shown| <= |draws|
    ensures final == Play(Start(delay, score, increasedDifficulty, lives), Rounds(DisplayKey, shown, keys))
    ensures |Outcomes(Start(delay, score, increasedDifficulty, lives), Rounds(DisplayKey, shown, keys))| == |shown|
    ensures forall i :: 0 <= i < |shown| ==>
      shown[i] == Display(GenerateDirection(draws[i]), Glyph(GenerateDirection(draws[i])), ColorFor(i))
    ensures Live(final) ==> |shown| == |keys| || |shown| == |draws|
  {
    final := Start(delay, score, increasedDifficulty, lives);
    ghost var start := final;
    shown := [];
    var colorCount: nat := 0;
    while final.running && final.lives > 0 && colorCount < |keys| && colorCount < |draws|
      invariant colorCount == |shown| <= |keys| && |shown| <= |draws|
      invariant final == Play(start, Rounds(DisplayKey, shown, keys))
      invariant |Outcomes(start, Rounds(DisplayKey, shown, keys))| == |shown|
      invariant forall i :: 0 <= i < |shown| ==>
        shown[i] == Display(GenerateDirection(draws[i]), Glyph(GenerateDirection(draws[i])), ColorFor(i))
      decreases |keys| - colorCount
    {
      var direction := DirectionOf(draws[colorCount] % 4);
      var d := Display(direction, Glyph(direction), ColorFor(colorCount));
      colorCount := colorCount + 1;
      var keyPressed := keys[|shown|];
      var x := RoundInput(CueKey(direction), keyPressed);
      PlayNextCue(start, DisplayKey, shown, d, keys);
      final := Round(final, x).state;
      shown := shown + [d];
    }
  }
}
