/**
 * The dating game of script.js (`HistoricalMapGame`): a daily answer year
 * derived from the date, up to six guesses each judged too high, too low or
 * right, a practice mode with an answer drawn from a range, the older
 * CSS-transform pan and integer zoom of the map element, the search for the
 * latest local front image at or before a year, and the text of a shared
 * result.
 *
 * The values `parseInt` gives are `JsNum`s, so that comparisons with NaN
 * are false as in JavaScript. The clock, `Math.random` and image probing
 * are parameters.
 */
module DatingGame {
  import opened Options
  import opened Decimal
  import opened Tiles

  const MAX_YEAR := 2023
  const TWO_32 := 0x1_0000_0000
  const TWO_31 := 0x8000_0000

  /** The result of `parseInt`: a whole number or NaN. */
  datatype JsNum = NaN | Int(n: int)

  /** `a < b` in JavaScript: false whenever a side is NaN. */
  predicate Less(a: int, b: JsNum) { b.Int? && a < b.n }

  /** `a > b` in JavaScript: false whenever a side is NaN. */
  predicate Greater(a: int, b: JsNum) { b.Int? && a > b.n }

  /** `a === b` for a number `a`. */
  predicate Same(a: int, b: JsNum) { b.Int? && a == b.n }

  /** `!x` for a number: NaN and 0 are falsy. */
  predicate Falsy(x: JsNum) { x.NaN? || x.n == 0 }

  /** `String(x)`. */
  function JsNumToString(x: JsNum): string
  {
    match x
    case NaN => "NaN"
    case Int(n) => IntToString(n)
  }

  // ---------------------------------------------------------------- daily year

  /** The 32-bit signed reading of an integer, as `x | 0` and `x & x` give it. */
  function ToInt32(x: int): (r: int)
    ensures -TWO_31 <= r < TWO_31
    ensures (r - x) % TWO_32 == 0
  {
    var m := x % TWO_32;
    if m >= TWO_31 then m - TWO_32 else m
  }

  /** Two integers congruent modulo 2^32 have the same 32-bit reading. */
  lemma ToInt32Congruent(x: int, y: int)
    requires (x - y) % TWO_32 == 0
    ensures ToInt32(x) == ToInt32(y)
  {
    assert x % TWO_32 == y % TWO_32 by {
      var q := (x - y) / TWO_32;
      assert x == y + q * TWO_32;
    }
  }

  /**
   * `hash = ((hash << 5) - hash) + char; hash = hash & hash` on a 32-bit
   * `hash` is one step of `31 * hash + char` reduced to 32 bits.
   */
  lemma HashStep(hash: int, c: int)
    ensures ToInt32(ToInt32(hash * 32) - hash + c) == ToInt32(31 * hash + c)
  {
    var s := ToInt32(hash * 32);
    assert (s - hash * 32) % TWO_32 == 0;
    var k := (s - hash * 32) / TWO_32;
    assert s == hash * 32 + k * TWO_32;
    assert (s - hash + c) - (31 * hash + c) == k * TWO_32;
    ToInt32Congruent(s - hash + c, 31 * hash + c);
  }

  /** The date hash: `31 * h + c` over the characters, reduced to 32 bits after each. */
  function DateHash(s: string): (h: int)
    ensures -TWO_31 <= h < TWO_31
  {
    if s == [] then 0 else ToInt32(31 * DateHash(s[..|s| - 1]) + s[|s| - 1] as int)
  }

  /**
   * The `${year}${month}${day}` string of a JST date, month (0-based as
   * `getMonth` gives it, so shifted by one) and day two digits wide.
   */
  function DateString(year: int, monthIndex: int, day: int): string
  {
    IntToString(year) + (PadStart(IntToString(monthIndex + 1), 2, '0') + PadStart(IntToString(day), 2, '0'))
  }

  /** For a four-digit year and a calendar month and day the date string is eight digits. */
  lemma DateStringShape(year: int, monthIndex: int, day: int)
    requires 1000 <= year <= 9999 && 0 <= monthIndex <= 11 && 1 <= day <= 31
    ensures var s := DateString(year, monthIndex, day);
      |s| == 8 && forall i :: 0 <= i < 8 ==> IsDigit(s[i])
  {
    var y, m, d := IntToString(year), IntToString(monthIndex + 1), IntToString(day);
    NatToStringSound(year);
    NatToStringSound(monthIndex + 1);
    NatToStringSound(day);
    DigitCount(year);
    DigitCount(monthIndex + 1);
    DigitCount(day);
    var pm, pd := PadStart(m, 2, '0'), PadStart(d, 2, '0');
    assert |y| == 4 && |pm| == 2 && |pd| == 2;
    var s := y + (pm + pd);
    forall i | 0 <= i < 8 ensures IsDigit(s[i]) {
      if i < 4 {
        assert s[i] == y[i];
      } else if i < 6 {
        assert s[i] == pm[i - 4];
        assert pm[|pm| - |m|..] == m;
        if i - 4 >= |pm| - |m| {
          assert pm[i - 4] == m[i - 4 - (|pm| - |m|)];
        }
      } else {
        assert s[i] == pd[i - 6];
        assert pd[|pd| - |d|..] == d;
        if i - 6 >= |pd| - |d| {
          assert pd[i - 6] == d[i - 6 - (|pd| - |d|)];
        }
      }
    }
  }

  /** The number of digits of small numbers. */
  lemma {:induction false} DigitCount(n: nat)
    ensures n < 10 ==> |NatToString(n)| == 1
    ensures 10 <= n < 100 ==> |NatToString(n)| == 2
    ensures 100 <= n < 1000 ==> |NatToString(n)| == 3
    ensures 1000 <= n < 10000 ==> |NatToString(n)| == 4
    decreases n
  {
    if n >= 10 {
      DigitCount(n / 10);
    }
  }

  /** `Math.abs(hash) % 2023 + 1`. */
  function YearOfHash(hash: int): (year: int)
    ensures 1 <= year <= MAX_YEAR
  {
    (if hash < 0 then -hash else hash) % MAX_YEAR + 1
  }

  /**
   * `generateDailyYear` for the date string of the current JST date: always
   * a year of the game's range, obtained from the date hash.
   */
  method GenerateDailyYear(dateStr: string) returns (answer: int)
    ensures 1 <= answer <= MAX_YEAR
    ensures answer == YearOfHash(DateHash(dateStr))
  {
    var hash := HashDate(dateStr);
    answer := YearOfHash(hash);
  }

  /** The hashing loop of `generateDailyYear`, with its shift-and-subtract step. */
  method HashDate(dateStr: string) returns (hash: int)
    ensures hash == DateHash(dateStr)
  {
    hash := 0;
    var i := 0;
    while i < |dateStr|
      invariant 0 <= i <= |dateStr|
      invariant hash == DateHash(dateStr[..i])
    {
      var c := dateStr[i] as int;
      HashStep(hash, c);
      assert dateStr[..i + 1][..i] == dateStr[..i];
      hash := ToInt32(ToInt32(hash * 32) - hash + c);
      i := i + 1;
    }
    assert dateStr[..i] == dateStr;
  }

  // ------------------------------------------------------------------ guesses

  const CORRECT := "正解！"
  const TOO_HIGH := "高すぎ"
  const TOO_LOW := "低すぎ"

  /** One entry of `guessHistory`. */
  datatype Guess = Guess(number: int, feedback: string, isCorrect: bool)

  /**
   * The entry `processGuess` records for `guess` against the answer: right
   * exactly when equal, too high exactly when greater, too low otherwise
   * (also against a NaN answer, which no guess equals or exceeds).
   */
  function Judge(guess: int, correctYear: JsNum): (g: Guess)
    ensures g.number == guess
    ensures g.isCorrect <==> correctYear == Int(guess)
    ensures g.feedback == CORRECT <==> correctYear == Int(guess)
    ensures g.feedback == TOO_HIGH <==> correctYear.Int? && guess > correctYear.n
    ensures g.feedback == TOO_LOW <==> !(correctYear.Int? && guess >= correctYear.n)
  {
    if Same(guess, correctYear) then Guess(guess, CORRECT, true)
    else if Greater(guess, correctYear) then Guess(guess, TOO_HIGH, false)
    else Guess(guess, TOO_LOW, false)
  }

  /** `guessHistory.some(g => g.isCorrect)`. */
  predicate Won(history: seq<Guess>)
  {
    exists i :: 0 <= i < |history| && history[i].isCorrect
  }

  /** `delta = e.deltaY > 0 ? -1 : 1; Math.max(1, Math.min(maxZoom, zoom + delta))`. */
  function IntegerWheelZoom(zoom: int, deltaY: real, maxZoom: int): int
  {
    var delta := if deltaY > 0.0 then -1 else 1;
    var capped := if zoom + delta <= maxZoom then zoom + delta else maxZoom;
    if capped >= 1 then capped else 1
  }

  /**
   * From a zoom in `[1, maxZoom]` a wheel notch moves one level in its
   * direction and stays in range, and leaves the zoom alone exactly at the
   * bound it pushes against.
   */
  lemma IntegerWheelZoomStep(zoom: int, deltaY: real, maxZoom: int)
    requires 1 <= zoom <= maxZoom
    ensures var z := IntegerWheelZoom(zoom, deltaY, maxZoom);
      && 1 <= z <= maxZoom
      && (deltaY > 0.0 ==> z == if zoom > 1 then zoom - 1 else 1)
      && (deltaY <= 0.0 ==> z == if zoom < maxZoom then zoom + 1 else maxZoom)
      && (z == zoom <==> (deltaY > 0.0 && zoom == 1) || (deltaY <= 0.0 && zoom == maxZoom))
  {
  }

  /** The practice answer `Math.floor(random * (max - min + 1)) + min`. */
  function PracticeAnswer(minYear: int, maxYear: int, random: real): int
  {
    (random * (maxYear - minYear + 1) as real).Floor + minYear
  }

  /** For `min <= max` and `random` in `[0, 1)`, the practice answer lies in `[min, max]`. */
  lemma PracticeAnswerInRange(minYear: int, maxYear: int, random: real)
    requires minYear <= maxYear && 0.0 <= random < 1.0
    ensures minYear <= PracticeAnswer(minYear, maxYear, random) <= maxYear
  {
    var n := maxYear - minYear + 1;
    var k := n as real;
    assert 0.0 <= random * k < k by {
      assert random * k < 1.0 * k;
    }
    var f := (random * k).Floor;
    assert f as real <= random * k < f as real + 1.0;
    assert 0 <= f < n;
  }

  /** A point of the page, as the `{ x, y }` objects of the handlers. */
  datatype Point = Point(x: real, y: real)

  // ------------------------------------------------------------ year fallback

  /** `./img/${String(year).padStart(4, '0')}/Z${z}_${tileX}_${tileY}.png`. */
  function FrontPath(year: int, z: int, tileX: int, tileY: int): string
  {
    LOCAL_ROOT + (Pad4(IntToString(year)) + ("/" + TileName(z, tileX, tileY)))
  }

  /** At zoom 1 to 3 the path probed is the viewer's local front locator of the same file. */
  lemma FrontPathIsLocalFront(year: int, z: int, tileX: int, tileY: int)
    requires LocalZoom(z)
    ensures FrontPath(year, z, tileX, tileY) == TileUrl(year, z, tileX, tileY, "front")
  {
  }

  /**
   * `findAvailableImage`, with `imageExists` the outcome of probing a path:
   * the path of the latest year from `startYear` down to 1 whose image
   * exists, or nothing when there is none.
   */
  method FindAvailableImage(startYear: int, z: int, tileX: int, tileY: int, imageExists: string -> bool)
    returns (url: Option<string>)
    ensures url.None? <==> forall y :: 1 <= y <= startYear ==> !imageExists(FrontPath(y, z, tileX, tileY))
    ensures url.Some? ==>
      exists y :: && 1 <= y <= startYear && url.value == FrontPath(y, z, tileX, tileY)
                  && imageExists(FrontPath(y, z, tileX, tileY))
                  && (forall later :: y < later <= startYear ==> !imageExists(FrontPath(later, z, tileX, tileY)))
  {
    var year := startYear;
    while year >= 1
      invariant year <= startYear
      invariant forall later :: year < later <= startYear ==> !imageExists(FrontPath(later, z, tileX, tileY))
    {
      var imageUrl := FrontPath(year, z, tileX, tileY);
      if imageExists(imageUrl) {
        return Some(imageUrl);
      }
      year := year - 1;
    }
    return None;
  }

  // ------------------------------------------------------------ shared result

  const MAP_EMOJI := "\U{1F5FA}\U{FE0F}"
  const CHECK_MARK := "\U{2705}"
  const CROSS_MARK := "\U{274C}"
  const HIT_MARK := "\U{1F3AF}"
  const UP_MARK := "\U{1F53A}"
  const DOWN_MARK := "\U{1F53B}"

  const TITLE := MAP_EMOJI + " Historical Map Dating Game"

  /** `${won ? '✅' : '❌'} ${attempts}/${maxAttempts}で${won ? '正解' : '不正解'}`. */
  function Verdict(won: bool, attempts: int, maxAttempts: int): string
  {
    (if won then CHECK_MARK else CROSS_MARK)
    + (" " + (IntToString(attempts) + ("/" + (IntToString(maxAttempts) + ("で" + (if won then "正解" else "不正解"))))))
  }

  /** `正解: ${correctYear}年`. */
  function Answer(correctYear: JsNum): string
  {
    "正解: " + (JsNumToString(correctYear) + "年")
  }

  /** The three header lines and the blank line of the shared text. */
  function ShareHeader(won: bool, attempts: int, maxAttempts: int, correctYear: JsNum): string
  {
    TITLE + ("\n" + (Verdict(won, attempts, maxAttempts) + ("\n" + (Answer(correctYear) + "\n\n"))))
  }

  /** The mark of a guess: a target when right, up when too high, down otherwise. */
  function Mark(g: Guess): string
  {
    if g.isCorrect then HIT_MARK else if g.feedback == TOO_HIGH then UP_MARK else DOWN_MARK
  }

  /** The line `${index + 1}. ${number} ${mark}` of one guess. */
  function ShareLine(index: nat, g: Guess): string
  {
    IntToString(index + 1) + (". " + (IntToString(g.number) + (" " + (Mark(g) + "\n"))))
  }

  /** The lines of the first `n` guesses. */
  function ShareLines(history: seq<Guess>, n: nat): string
    requires n <= |history|
  {
    if n == 0 then "" else ShareLines(history, n - 1) + ShareLine(n - 1, history[n - 1])
  }

  /** The marks follow the comparison with the answer. */
  lemma MarkFollowsAnswer(guess: int, correctYear: JsNum)
    ensures Mark(Judge(guess, correctYear)) ==
      if correctYear == Int(guess) then HIT_MARK
      else if correctYear.Int? && guess > correctYear.n then UP_MARK
      else DOWN_MARK
  {
  }

  function NewlineCount(s: string): nat
  {
    if s == [] then 0 else NewlineCount(s[..|s| - 1]) + (if s[|s| - 1] == '\n' then 1 else 0)
  }

  lemma {:induction false} NewlineCountAppend(a: string, b: string)
    ensures NewlineCount(a + b) == NewlineCount(a) + NewlineCount(b)
    decreases |b|
  {
    if b != [] {
      var b' := b[..|b| - 1];
      var w := a + b;
      assert w[..|w| - 1] == a + b';
      assert w[|w| - 1] == b[|b| - 1];
      NewlineCountAppend(a, b');
      assert NewlineCount(w) == NewlineCount(a + b') + (if b[|b| - 1] == '\n' then 1 else 0);
      assert NewlineCount(b) == NewlineCount(b') + (if b[|b| - 1] == '\n' then 1 else 0);
    } else {
      assert a + b == a;
    }
  }

  lemma NoNewline(s: string)
    requires '\n' !in s
    ensures NewlineCount(s) == 0
    decreases |s|
  {
    if s != [] {
      assert s[|s| - 1] in s;
      assert s[..|s| - 1] <= s;
      NoNewline(s[..|s| - 1]);
    }
  }

  /** Each guess line is a single line. */
  lemma ShareLineIsOneLine(index: nat, g: Guess)
    ensures NewlineCount(ShareLine(index, g)) == 1
  {
    IntToStringAvoids(index + 1, '\n');
    IntToStringAvoids(g.number, '\n');
    var tail := Mark(g) + "\n";
    NoNewline(Mark(g));
    NewlineCountAppend(Mark(g), "\n");
    NoNewline(" ");
    NewlineCountAppend(" ", tail);
    NoNewline(IntToString(g.number));
    NewlineCountAppend(IntToString(g.number), " " + tail);
    NoNewline(". ");
    NewlineCountAppend(". ", IntToString(g.number) + (" " + tail));
    NoNewline(IntToString(index + 1));
    NewlineCountAppend(IntToString(index + 1), ". " + (IntToString(g.number) + (" " + tail)));
  }

  /** The guesses part of the shared text has one line per guess. */
  lemma {:induction false} ShareLinesCount(history: seq<Guess>, n: nat)
    requires n <= |history|
    ensures NewlineCount(ShareLines(history, n)) == n
  {
    if n > 0 {
      ShareLinesCount(history, n - 1);
      ShareLineIsOneLine(n - 1, history[n - 1]);
      NewlineCountAppend(ShareLines(history, n - 1), ShareLine(n - 1, history[n - 1]));
    }
  }

  // --------------------------------------------------------------- the game

  class HistoricalMapGame {
    const maxAttempts: nat
    var correctYear: JsNum
    var attempts: nat
    var guessHistory: seq<Guess>
    var isGameOver: bool
    var mode: string
    var zoomLevel: int
    var maxZoomLevel: int
    var mapPosition: Point
    var isDragging: bool
    var dragStart: Point
    var mapStart: Point

    /**
     * The round's invariant: one history entry per attempt, at most
     * `maxAttempts` of them, each judged against the current answer, only
     * the last one possibly right, and the game over exactly when the
     * attempts are used up or the last guess was right.
     */
    ghost predicate Valid()
      reads this
    {
      && maxAttempts == 6
      && |guessHistory| == attempts <= maxAttempts
      && (forall i :: 0 <= i < |guessHistory| ==> guessHistory[i] == Judge(guessHistory[i].number, correctYear))
      && (forall i :: 0 <= i < |guessHistory| - 1 ==> !guessHistory[i].isCorrect)
      && (isGameOver <==> attempts == maxAttempts || (attempts > 0 && guessHistory[attempts - 1].isCorrect))
    }

    /** A new game in 'game' mode, for the JST date given. */
    constructor (dateStr: string)
      ensures Valid()
      ensures mode == "game" && attempts == 0 && guessHistory == [] && !isGameOver
      ensures correctYear == Int(YearOfHash(DateHash(dateStr)))
      ensures correctYear.Int? && 1 <= correctYear.n <= MAX_YEAR
      ensures zoomLevel == 1 && maxZoomLevel == 3 && !isDragging
      ensures mapPosition == Point(0.0, 0.0)
    {
      maxAttempts := 6;
      correctYear := NaN;
      attempts := 0;
      guessHistory := [];
      isGameOver := false;
      mode := "game";
      zoomLevel := 1;
      maxZoomLevel := 3;
      mapPosition := Point(0.0, 0.0);
      isDragging := false;
      dragStart := Point(0.0, 0.0);
      mapStart := Point(0.0, 0.0);
      new;
      InitializeGame(dateStr);
    }

    /** `initializeGame`: in 'game' mode a new daily answer; in any mode a fresh round. */
    method InitializeGame(dateStr: string)
      requires maxAttempts == 6
      modifies this
      ensures Valid()
      ensures attempts == 0 && guessHistory == [] && !isGameOver
      ensures mode == "game" ==> correctYear == Int(YearOfHash(DateHash(dateStr)))
      ensures mode == "game" ==> correctYear.Int? && 1 <= correctYear.n <= MAX_YEAR
      ensures mode != "game" ==> correctYear == old(correctYear)
      ensures mode == old(mode) && zoomLevel == old(zoomLevel) && maxZoomLevel == old(maxZoomLevel)
      ensures mapPosition == old(mapPosition) && isDragging == old(isDragging)
      ensures dragStart == old(dragStart) && mapStart == old(mapStart)
    {
      if mode == "game" {
        var answer := GenerateDailyYear(dateStr);
        correctYear := Int(answer);
      }
      attempts := 0;
      guessHistory := [];
      isGameOver := false;
    }

    /**
     * `processGuess`: nothing once the game is over; otherwise one more
     * attempt and one more history entry judging the guess, and the game
     * ends when that was the last attempt or the guess was right.
     */
    method ProcessGuess(guess: int)
      requires Valid()
      modifies this
      ensures Valid()
      ensures old(isGameOver) ==> unchanged(this)
      ensures !old(isGameOver) ==>
        && attempts == old(attempts) + 1
        && guessHistory == old(guessHistory) + [Judge(guess, correctYear)]
        && isGameOver == (attempts >= maxAttempts || Same(guess, correctYear))
      ensures correctYear == old(correctYear) && mode == old(mode)
      ensures zoomLevel == old(zoomLevel) && maxZoomLevel == old(maxZoomLevel)
      ensures mapPosition == old(mapPosition) && isDragging == old(isDragging)
      ensures dragStart == old(dragStart) && mapStart == old(mapStart)
    {
      if isGameOver {
        return;
      }
      attempts := attempts + 1;
      var entry := Judge(guess, correctYear);
      if entry.isCorrect {
        isGameOver := true;
      }
      guessHistory := guessHistory + [entry];
      if attempts >= maxAttempts || isGameOver {
        var _ := EndGame();
      }
    }

    /** `endGame`: the game is over; `won` is whether some guess was right. */
    method EndGame() returns (won: bool)
      modifies this
      ensures isGameOver
      ensures won == Won(guessHistory)
      ensures attempts == old(attempts) && guessHistory == old(guessHistory) && correctYear == old(correctYear)
      ensures mode == old(mode) && zoomLevel == old(zoomLevel) && maxZoomLevel == old(maxZoomLevel)
      ensures mapPosition == old(mapPosition) && isDragging == old(isDragging)
      ensures dragStart == old(dragStart) && mapStart == old(mapStart)
    {
      isGameOver := true;
      won := Won(guessHistory);
    }

    /** `resetGame`: a fresh round with the daily answer, whatever the mode. */
    method ResetGame(dateStr: string)
      requires maxAttempts == 6
      modifies this
      ensures Valid()
      ensures attempts == 0 && guessHistory == [] && !isGameOver
      ensures correctYear == Int(YearOfHash(DateHash(dateStr)))
      ensures correctYear.Int? && 1 <= correctYear.n <= MAX_YEAR
      ensures mode == old(mode) && zoomLevel == old(zoomLevel) && maxZoomLevel == old(maxZoomLevel)
      ensures mapPosition == old(mapPosition) && isDragging == old(isDragging)
      ensures dragStart == old(dragStart) && mapStart == old(mapStart)
    {
      attempts := 0;
      guessHistory := [];
      isGameOver := false;
      var answer := GenerateDailyYear(dateStr);
      correctYear := Int(answer);
    }

    /**
     * `makeGuess` on the parsed input: NaN, 0 and anything outside
     * `[1, 2023]` are refused and change nothing; other guesses are processed.
     */
    method MakeGuess(guess: JsNum) returns (accepted: bool)
      requires Valid()
      modifies this
      ensures Valid()
      ensures accepted <==> guess.Int? && 1 <= guess.n <= MAX_YEAR
      ensures !accepted || old(isGameOver) ==> unchanged(this)
      ensures accepted && !old(isGameOver) ==>
        && attempts == old(attempts) + 1
        && guessHistory == old(guessHistory) + [Judge(guess.n, correctYear)]
        && isGameOver == (attempts >= maxAttempts || Same(guess.n, correctYear))
      ensures correctYear == old(correctYear)
      ensures mode == old(mode) && zoomLevel == old(zoomLevel) && maxZoomLevel == old(maxZoomLevel)
      ensures mapPosition == old(mapPosition) && isDragging == old(isDragging)
      ensures dragStart == old(dragStart) && mapStart == old(mapStart)
    {
      if Falsy(guess) || guess.n < 1 || guess.n > MAX_YEAR {
        return false;
      }
      ProcessGuess(guess.n);
      return true;
    }

    /**
     * `makePracticeGuess` on the parsed guess and range bounds: NaN or 0,
     * and a guess below the minimum or above the maximum, are refused; a
     * NaN bound refuses nothing, since comparing with it is false.
     */
    method MakePracticeGuess(guess: JsNum, minYear: JsNum, maxYear: JsNum) returns (accepted: bool)
      requires Valid()
      modifies this
      ensures Valid()
      ensures accepted <==> guess.Int? && guess.n != 0 && !Less(guess.n, minYear) && !Greater(guess.n, maxYear)
      ensures !accepted || old(isGameOver) ==> unchanged(this)
      ensures accepted && !old(isGameOver) ==>
        && attempts == old(attempts) + 1
        && guessHistory == old(guessHistory) + [Judge(guess.n, correctYear)]
        && isGameOver == (attempts >= maxAttempts || Same(guess.n, correctYear))
      ensures correctYear == old(correctYear)
      ensures mode == old(mode) && zoomLevel == old(zoomLevel) && maxZoomLevel == old(maxZoomLevel)
      ensures mapPosition == old(mapPosition) && isDragging == old(isDragging)
      ensures dragStart == old(dragStart) && mapStart == old(mapStart)
    {
      if Falsy(guess) || Less(guess.n, minYear) || Greater(guess.n, maxYear) {
        return false;
      }
      ProcessGuess(guess.n);
      return true;
    }

    /**
     * `startPractice` on the parsed bounds and a `Math.random` value: a
     * minimum above the maximum is refused and changes nothing; otherwise a
     * fresh round whose answer lies in the range, or is NaN when a bound is.
     */
    method StartPractice(minYear: JsNum, maxYear: JsNum, random: real) returns (accepted: bool)
      requires maxAttempts == 6
      requires 0.0 <= random < 1.0
      modifies this
      ensures accepted <==> !(minYear.Int? && maxYear.Int? && minYear.n > maxYear.n)
      ensures !accepted ==> unchanged(this)
      ensures accepted ==>
        && Valid() && attempts == 0 && guessHistory == [] && !isGameOver
        && (minYear.Int? && maxYear.Int? ==>
              correctYear.Int? && minYear.n <= correctYear.n <= maxYear.n
              && correctYear.n == PracticeAnswer(minYear.n, maxYear.n, random))
        && (minYear.NaN? || maxYear.NaN? ==> correctYear.NaN?)
      ensures mode == old(mode) && zoomLevel == old(zoomLevel) && maxZoomLevel == old(maxZoomLevel)
      ensures mapPosition == old(mapPosition) && isDragging == old(isDragging)
      ensures dragStart == old(dragStart) && mapStart == old(mapStart)
    {
      if minYear.Int? && maxYear.Int? && minYear.n > maxYear.n {
        return false;
      }
      attempts := 0;
      guessHistory := [];
      isGameOver := false;
      if minYear.Int? && maxYear.Int? {
        PracticeAnswerInRange(minYear.n, maxYear.n, random);
        correctYear := Int(PracticeAnswer(minYear.n, maxYear.n, random));
      } else {
        correctYear := NaN;
      }
      return true;
    }

    /**
     * `handleWheel`: one integer zoom step, clamped to `[1, maxZoomLevel]`;
     * `reloaded` says whether the zoom changed, which is when the map is
     * reloaded.
     */
    method HandleWheel(deltaY: real) returns (reloaded: bool)
      modifies this
      ensures zoomLevel == IntegerWheelZoom(old(zoomLevel), deltaY, maxZoomLevel)
      ensures reloaded <==> zoomLevel != old(zoomLevel)
      ensures maxZoomLevel == old(maxZoomLevel) && mapPosition == old(mapPosition)
      ensures isDragging == old(isDragging) && dragStart == old(dragStart) && mapStart == old(mapStart)
      ensures attempts == old(attempts) && guessHistory == old(guessHistory)
      ensures isGameOver == old(isGameOver) && correctYear == old(correctYear) && mode == old(mode)
    {
      var delta := if deltaY > 0.0 then -1 else 1;
      var capped := if zoomLevel + delta <= maxZoomLevel then zoomLevel + delta else maxZoomLevel;
      var newZoom := if capped >= 1 then capped else 1;
      reloaded := newZoom != zoomLevel;
      if reloaded {
        zoomLevel := newZoom;
      }
    }

    /** `handleMouseDown`: start a drag, remembering the pointer and the map position. */
    method HandleMouseDown(clientX: real, clientY: real)
      modifies this
      ensures isDragging && dragStart == Point(clientX, clientY) && mapStart == mapPosition
      ensures mapPosition == old(mapPosition) && zoomLevel == old(zoomLevel) && maxZoomLevel == old(maxZoomLevel)
      ensures attempts == old(attempts) && guessHistory == old(guessHistory)
      ensures isGameOver == old(isGameOver) && correctYear == old(correctYear) && mode == old(mode)
    {
      isDragging := true;
      dragStart := Point(clientX, clientY);
      mapStart := mapPosition;
    }

    /**
     * `handleMouseMove`: while dragging, the map sits at its start position
     * plus the pointer's total movement since the drag began, whatever moves
     * came between; otherwise nothing happens.
     */
    method HandleMouseMove(clientX: real, clientY: real)
      modifies this
      ensures !old(isDragging) ==> unchanged(this)
      ensures old(isDragging) ==>
        mapPosition == Point(mapStart.x + (clientX - dragStart.x), mapStart.y + (clientY - dragStart.y))
      ensures isDragging == old(isDragging) && dragStart == old(dragStart) && mapStart == old(mapStart)
      ensures zoomLevel == old(zoomLevel) && maxZoomLevel == old(maxZoomLevel)
      ensures attempts == old(attempts) && guessHistory == old(guessHistory)
      ensures isGameOver == old(isGameOver) && correctYear == old(correctYear) && mode == old(mode)
    {
      if !isDragging {
        return;
      }
      var deltaX := clientX - dragStart.x;
      var deltaY := clientY - dragStart.y;
      mapPosition := Point(mapStart.x + deltaX, mapStart.y + deltaY);
    }

    /** `handleMouseUp`: the drag ends where the map is. */
    method HandleMouseUp()
      modifies this
      ensures !isDragging
      ensures mapPosition == old(mapPosition) && dragStart == old(dragStart) && mapStart == old(mapStart)
      ensures zoomLevel == old(zoomLevel) && maxZoomLevel == old(maxZoomLevel)
      ensures attempts == old(attempts) && guessHistory == old(guessHistory)
      ensures isGameOver == old(isGameOver) && correctYear == old(correctYear) && mode == old(mode)
    {
      isDragging := false;
    }

    /**
     * The text `shareResult` shares: the header, then one line per guess in
     * order, built by appending as the source does.
     */
    method ShareResult() returns (text: string)
      ensures text == ShareHeader(Won(guessHistory), attempts, maxAttempts, correctYear)
                      + ShareLines(guessHistory, |guessHistory|)
    {
      var won := Won(guessHistory);
      var history := guessHistory;
      text := ShareHeader(won, attempts, maxAttempts, correctYear);
      ghost var header := text;
      var i := 0;
      while i < |history|
        invariant 0 <= i <= |history|
        invariant text == header + ShareLines(history, i)
      {
        var line := ShareLine(i, history[i]);
        assert ShareLines(history, i + 1) == ShareLines(history, i) + line;
        Regroup(header, ShareLines(history, i), line);
        text := text + line;
        i := i + 1;
      }
    }
  }

  /** In a valid round, some guess was right exactly when the last one was. */
  lemma WonIsLastGuess(history: seq<Guess>, attempts: nat)
    requires |history| == attempts
    requires forall i :: 0 <= i < |history| - 1 ==> !history[i].isCorrect
    ensures Won(history) <==> attempts > 0 && history[attempts - 1].isCorrect
  {
  }

  /** The shared text has its four header line breaks and then one per guess. */
  lemma ShareTextLines(won: bool, attempts: int, maxAttempts: int, correctYear: JsNum, history: seq<Guess>)
    ensures NewlineCount(ShareHeader(won, attempts, maxAttempts, correctYear) + ShareLines(history, |history|))
            == 4 + |history|
  {
    ShareLinesCount(history, |history|);
    ShareHeaderLines(won, attempts, maxAttempts, correctYear);
    NewlineCountAppend(ShareHeader(won, attempts, maxAttempts, correctYear), ShareLines(history, |history|));
  }

  lemma ShareHeaderLines(won: bool, attempts: int, maxAttempts: int, correctYear: JsNum)
    ensures NewlineCount(ShareHeader(won, attempts, maxAttempts, correctYear)) == 4
  {
    var v, ans := Verdict(won, attempts, maxAttempts), Answer(correctYear);
    VerdictOneLine(won, attempts, maxAttempts);
    AnswerOneLine(correctYear);
    TitleOneLine();
    NewlineCountAppend(ans, "\n\n");
    NewlineCountAppend("\n", ans + "\n\n");
    NewlineCountAppend(v, "\n" + (ans + "\n\n"));
    NewlineCountAppend("\n", v + ("\n" + (ans + "\n\n")));
    NewlineCountAppend(TITLE, "\n" + (v + ("\n" + (ans + "\n\n"))));
  }

  lemma TitleOneLine()
    ensures NewlineCount(TITLE) == 0
  {
    NoNewline(TITLE);
  }

  lemma VerdictOneLine(won: bool, attempts: int, maxAttempts: int)
    ensures NewlineCount(Verdict(won, attempts, maxAttempts)) == 0
  {
    var mark := if won then CHECK_MARK else CROSS_MARK;
    var word := if won then "正解" else "不正解";
    var a, m := IntToString(attempts), IntToString(maxAttempts);
    IntToStringAvoids(attempts, '\n');
    IntToStringAvoids(maxAttempts, '\n');
    NoNewline(a);
    NoNewline(m);
    NoNewline(mark);
    NoNewline(word);
    NoNewline(" ");
    NoNewline("/");
    NoNewline("で");
    NewlineCountAppend("で", word);
    NewlineCountAppend(m, "で" + word);
    NewlineCountAppend("/", m + ("で" + word));
    NewlineCountAppend(a, "/" + (m + ("で" + word)));
    NewlineCountAppend(" ", a + ("/" + (m + ("で" + word))));
    NewlineCountAppend(mark, " " + (a + ("/" + (m + ("で" + word)))));
  }

  lemma AnswerOneLine(correctYear: JsNum)
    ensures NewlineCount(Answer(correctYear)) == 0
  {
    if correctYear.Int? {
      IntToStringAvoids(correctYear.n, '\n');
    }
    NoNewline(Answer(correctYear));
  }
}
