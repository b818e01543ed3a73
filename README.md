# Look Away: a Dafny model of the round engine

Look Away is a terminal reflex game. Each round shows an arrow, sleeps for
the current delay, then reads one key. The player must press a movement key
(`a`, `w`, `s`, `d`) other than the one the arrow points to. A success adds one
to the score. Pressing the arrow's own key, pressing no key, or pressing any
other character costs one of three lives. The delay drops from 2000 ms to
1000 ms the first time the score is 6 after a round, and to 500 ms the first
time it is 11. The session ends when the lives are gone.

The repository has two nearly identical programs:

- `gamecode_Color.cpp` draws each arrow (`<`, `>`, `^`, `v`) in a random
  colour from 1 to 15. The colour is re-drawn until it differs from the
  previous cue's colour.
- `gamecode.cpp` uses direction letters `L`, `R`, `U`, `D`, prints them as
  arrow glyphs, and colours them green, yellow and red in turn.

The model has three modules:

- `Session` (session.dfy) holds the state and the round rules the two programs
  share: the judge, `handleGameOver`, the two difficulty steps, and `Play`.
  `handleGameOver` is identical in both files (gamecode_Color.cpp:106-126,
  gamecode.cpp:68-88). The judge and difficulty code
  (gamecode_Color.cpp:174-224, gamecode.cpp:147-197) are identical except for
  the labels of the `switch (direction)`: `'<' '>' '^' 'v'` in one file and
  `'L' 'R' 'U' 'D'` in the other. The shared code is modelled once. It takes
  the cue's own key as an input, and each program's `CueKey` supplies that key
  from its own switch.
- In `Session`, `Start` is the state that gameLoop's locals and reference
  parameters begin with (gamecode_Color.cpp:138-145). `Classify` is the key
  test and the direction switch (174-202). `Judge` applies `handleGameOver`
  to the verdict. `AdjustDifficulty` is the two difficulty steps (205-224).
  `Round` chains `Classify`, `Judge` and `AdjustDifficulty`, and its contract
  states what the three do together. `Play` is a specification of the while
  loop (147-225) over a sequence of rounds. `Rounds` pairs the cues shown with
  the keys polled.
- `GamecodeColor` (gamecode_color.dfy) models `generateDirectionWithColor` with
  its do-while rejection loop, the colour game loop, one session of `main`,
  and the play-again prompt with the decision to start another session.
  `NextCue` is the cue that one call makes from the `rand()` values it is
  given. `Deal` is the cues that successive calls make, each passed the
  previous colour. The game loop is proved to show exactly the cues that
  `Deal` makes from its `rand()` values.
- `Gamecode` (gamecode.dfy) models `generateDirection`, the glyph and colour
  mappings and its game loop. It also proves that, for the same `rand()` value
  and key, both programs show the same arrow and judge the round the same way.

Both game loops are imperative methods. Each one is proved equal to `Play`
over the rounds it actually played. `rand()` is an oracle, a sequence of the
values it returns. The polled keys are a sequence of characters, where `'\0'`
means no key was pressed. Delays are integer milliseconds.

The central invariant is `Session.Consistent`. It says the game is running,
the score is non-negative and lives are in [0, 3]. It also says the medium
flag is set exactly when the score is at least 6, the hard flag exactly when
it is at least 11, and the delay is the one that the score's tier calls for.
The initial state satisfies it, and every round played from a live state
keeps it.

The on-screen instructions (gamecode_Color.cpp:33) ask for the "opposite"
key. The code accepts any of the three non-matching movement keys
(gamecode_Color.cpp:174-195), and the model follows the code. A cue glyph
outside the four arrows would have no key of its own, so every movement key
would succeed; the model keeps that case, and `DrawArrow`/`GenerateDirection`
prove it never arises. The comments at gamecode.cpp:113-123 speak of colours
"for easy/medium/hard mode". The code picks the colour from a per-round counter
(`colorCount % 3`), and the model follows the code.

## Model

| member | source | states |
|---|---|---|
| Session.HandleGameOver | gamecode_Color.cpp:106-126 | with 0 lives the game stops with the game-over message and lives stay 0; otherwise exactly one life is lost and running is unchanged; score, delay and flags never change; the message is invalid-input iff that flag is set, same-direction iff only that flag is set, timeout iff neither |
| Session.Round | gamecode_Color.cpp:174-224 | one pass of the key test, the direction switch and `handleGameOver` (Classify, Judge), then the difficulty steps (AdjustDifficulty): the verdict is the key test's; score +1 exactly on success; one life lost on any failure when lives are non-zero; a message exactly on failure, naming the failure kind; medium is announced iff the new score is 6 and its flag was clear, hard iff the new score is 11 and its flag was clear; each flag is set exactly by its announcement; the delay becomes 1000 or 500 ms with the announcement and is otherwise unchanged |
| Session.PlayAppend | gamecode_Color.cpp:147-225 | one more loop iteration from a live state extends the played rounds, verdicts and announcements by that round |
| Session.PlayNextCue | gamecode_Color.cpp:156-202 | showing one more cue and polling the next key, from a live state, plays exactly one more round on the state reached so far and adds exactly one verdict |
| Session.PlayKeepsConsistent | gamecode_Color.cpp:205-224 | from a consistent state every reached state is consistent: lives in [0, 3], medium flag iff score >= 6, hard flag iff score >= 11 (so hard implies medium), delay equal to the score's tier delay |
| Session.PlayLedger | gamecode_Color.cpp:190-202 | the final score is the start score plus the number of successes; lives fall by exactly the number of failures; the running flag never changes, so the "Game over" branch of handleGameOver is never taken from the loop |
| Session.PlayMonotone | gamecode.cpp:163-197 | score never decreases; lives never increase; in a consistent session the delay never increases |
| Session.SessionEndsAtZero | gamecode_Color.cpp:147 | in a consistent session the loop guard holds iff lives are positive; if the session stops before its rounds run out, lives are exactly 0 |
| Session.AnnouncedOnce | gamecode.cpp:178-197 | flags are never cleared; the medium (hard) announcement is made exactly once if its flag goes from clear to set during the session and never otherwise |
| Session.SessionFromStart | gamecode_Color.cpp:239-245 | from main's start (2000 ms, score 0, flags clear, 3 lives) every reached state is consistent, lives stay in [0, 3], hard implies medium, score >= 6 means delay <= 1000 ms and score >= 11 means 500 ms, and the session ends exactly when lives reach 0 |
| Session.ThreeTimeoutsEndSession | gamecode_Color.cpp:197-199 | three rounds with no key end a fresh session with 0 lives and score 0 |
| GamecodeColor.ArrowIndexInverse | gamecode_Color.cpp:58-73 | the arrow switch maps 0..3 to four distinct arrows and back |
| GamecodeColor.DrawArrow | gamecode_Color.cpp:50-73 | the arrow for any rand() value is one of `<`, `>`, `^`, `v` (never the `' '` default) and its index is the value mod 4 |
| GamecodeColor.ColorOf | gamecode_Color.cpp:55 | a drawn colour lies in [1, 15], so it never equals the initial previous colour -1 |
| GamecodeColor.CueKey | gamecode_Color.cpp:176-189 | an arrow glyph has an own key, and it is a movement key; any other glyph has none |
| GamecodeColor.CueKeysDistinct | gamecode_Color.cpp:176-189 | different arrows have different own keys |
| GamecodeColor.PlayRound | gamecode_Color.cpp:174-202 | with lives left: the arrow's own key (`<`a, `>`d, `^`w, `v`s) costs one life and leaves the score; any other movement key adds exactly 1 and leaves lives; no key is a timeout and any other character invalid input, each costing one life and leaving the score |
| GamecodeColor.FirstFreshColor | gamecode_Color.cpp:54-56 | the do-while stops at the first draw whose colour differs from prevColor: every draw scanned before it gives prevColor, and it is the end of the draws only when no such draw exists |
| GamecodeColor.NextCue | gamecode_Color.cpp:49-75 | one call takes at least two draws; its arrow comes from the first draw, its colour comes from the last draw taken and differs from prevColor, and every draw in between gave prevColor; with no cue, every draw after the first gave prevColor |
| GamecodeColor.GenerateDirectionWithColor | gamecode_Color.cpp:49-75 | the first draw picks the arrow; the colour is the first later draw whose `% 15 + 1` differs from prevColor, every draw before it having given prevColor; the colour lies in [1, 15]; the cue and the draws taken are NextCue's; with no such draw, all draws are used and no cue is made |
| GamecodeColor.Deal | gamecode_Color.cpp:145-166 | n successive calls, each passed the previous cue's colour (the first -1), make at most n cues from the draws; fewer only when the draws ran out, and then all draws are taken |
| GamecodeColor.DealNext | gamecode_Color.cpp:156-166 | after the cues dealt so far, the next call makes the cue NextCue makes from the draws not yet used and passes its colour on, or takes all the draws when they make none |
| GamecodeColor.DealColorsChange | gamecode_Color.cpp:145-166 | every dealt cue is an arrow with a colour in [1, 15]; the first colour differs from the initial prevColor and no two consecutive cues share a colour |
| GamecodeColor.GameLoop | gamecode_Color.cpp:138-229 | the cues shown and the draws used are exactly what Deal makes from the draws, with one more failed call only when the loop stopped live because the draws ran out; the final state is Play over the rounds those cues and keys make; every shown round was played from a live state (one verdict per cue); every cue is an arrow with a colour in [1, 15]; consecutive cues never share a colour; the loop stops with lives left only when keys or draws ran out |
| GamecodeColor.PlaySession | gamecode_Color.cpp:239-245 | one session of main shows exactly the cues Deal makes from the draws, and ends with lives in [0, 3], score equal to the number of successes, lives equal to 3 minus the failures, the delay of the score's tier, hard flag implying medium, and lives 0 unless the input ran out |
| GamecodeColor.ReadPlayAgain | gamecode_Color.cpp:248-259 | answers are read until one is y, Y, n or N; that answer is returned and every earlier answer was invalid; with no valid answer, all are read and none is returned; another session starts exactly when the answer is y or Y |
| Gamecode.DirectionIndexInverse | gamecode.cpp:44-50 | the direction switch maps 0..3 to four distinct letters and back |
| Gamecode.GenerateDirection | gamecode.cpp:42-51 | the direction for any rand() value is one of L, R, U, D (never the `' '` default) and its index is the value mod 4 |
| Gamecode.Glyph | gamecode.cpp:125 | L shows as `<`, R as `>`, U as `^`, each iff; any other letter shows as `v`; the glyph is always one arrow character |
| Gamecode.ColorCycle | gamecode.cpp:114-124 | the cue colour repeats every 3 rounds and changes every round |
| Gamecode.CueKey | gamecode.cpp:149-162 | a direction letter has an own key, and it is a movement key; any other letter has none |
| Gamecode.PlayRound | gamecode.cpp:147-175 | with lives left: the letter's own key (L a, R d, U w, D s) costs one life and leaves the score; any other movement key adds exactly 1 and leaves lives; no key or any other character costs one life and leaves the score |
| Gamecode.VariantsAgree | gamecode.cpp:111-175 | for the same rand() value and key, this program shows the same arrow as gamecode_Color.cpp and its round has the same outcome, message, announcement and new state |
| Gamecode.GameLoop | gamecode.cpp:91-202 | the final state is Play over the rounds shown; every shown round was played from a live state (one verdict per cue); round i shows the direction of draw i, its glyph, and colour ColorFor(i) whatever the difficulty; the loop stops with lives left only when keys or draws ran out |

## Left out

- Console output is not modelled: instructions, status lines, messages, the final score, screen clearing, the ANSI escapes and `SetConsoleTextAttribute`. Messages and colours appear only as values in the model.
- The blocking `cin.get()` acknowledgements are not modelled; they do not change the state.
- `this_thread::sleep_for` and real time are not modelled. The delay is a state value in integer milliseconds instead of the float seconds constants.
- `rand()` and `srand(time(nullptr))` are replaced by a sequence of returned values. `rand()` returning values in [0, RAND_MAX] is taken as `nat`, with no upper bound.
- GamecodeColor.GameLoop: it also stops when the keys or the `rand()` values run out. The real loop runs until lives reach 0, and its do-while colour loop ends only almost surely.
- Gamecode.GameLoop: it also stops when the keys or the `rand()` values run out.
- Key polling (`_kbhit`/`_getch`, ncurses `getch`, the `#ifdef`s) is not modelled. The polled key is an input character, with `'\0'` for no key.
- `getUserInput` in gamecode.cpp is not modelled, because `gameLoop` never calls it. The `getUserInput` in gamecode_Color.cpp is the same key poll.
- The outer replay loop of `main` is modelled only by each session starting from `Session.Initial` and by `ReadPlayAgain` deciding whether another session starts. `cin >>` skipping whitespace and `cin.ignore()` are not modelled. The identical replay code in gamecode.cpp's `main` is not modelled separately.
- `int` width is not modelled. The score is bounded by the number of rounds played, so it never reaches the 32-bit limit in practice.
- The unused `lookedInDirection` parameter of `handleGameOver` is dropped.
