/** The mini-game overlay `MiniGames` (minigames.js): the static game table, the `activeGame`
    slot, the overlay's open/closed state and content panel, the start / complete / close
    lifecycle, the routing of `interact` events at mini-game sites, and the one playable game,
    the five-block pattern match of Crypto Mining.

    The overlay's DOM is modelled as far as the logic reads it back: whether the container is
    displayed, the title, and what the content area holds. A click on a mining block can only
    happen while the container is displayed and the board is in the content area. */
module MiniGames {
  import opened Common
  import opened Effects

  // ---------------------------------------------------------------------------------------------
  // The game table (minigames.js:10-47)

  datatype Rewards = Rewards(experience: nat, items: seq<string>)

  datatype Game = Game(name: string, description: string, difficulty: nat, rewards: Rewards)

  const CryptoMining := Game(
    "Crypto Mining Simulator", "Match the patterns to mine Solana blocks efficiently.", 1,
    Rewards(50, ["Mining Algorithm Upgrade"]))
  const MarketTrading := Game(
    "Market Trading", "Buy low, sell high! Predict market movements and profit.", 2,
    Rewards(75, ["Market Prediction Algorithm"]))
  const BlockchainPuzzle := Game(
    "Blockchain Puzzle", "Connect the blocks in the correct sequence to complete the chain.", 2,
    Rewards(100, ["Chain Optimizer"]))

  /** `MiniGames.games`. */
  const Games: map<string, Game> := map[
    "cryptoMining" := CryptoMining, "marketTrading" := MarketTrading,
    "blockchainPuzzle" := BlockchainPuzzle]

  /** `completeGame` shows `rewards.items[0]`: every game has a first reward item. */
  lemma EveryGameHasAnItem()
    ensures forall k :: k in Games ==> |Games[k].rewards.items| >= 1
    ensures Games.Keys == {"cryptoMining", "marketTrading", "blockchainPuzzle"}
  {
  }

  // ---------------------------------------------------------------------------------------------
  // The mining board (minigames.js:278-401)

  datatype Color = Purple | Green

  /** An input block's background: the initial `#333`, or one of the two pattern colours. */
  datatype Tile = Blank | Painted(color: Color)

  /** `targetPattern`: purple where the index is even, green where it is odd. */
  const Target: seq<Color> := [Purple, Green, Purple, Green, Purple]

  lemma TargetAlternates()
    ensures |Target| == 5 && Target[0] == Purple
    ensures forall i :: 0 <= i < 4 ==> Target[i + 1] != Target[i]
    ensures forall i :: 0 <= i < 5 ==> (Target[i] == Purple <==> i % 2 == 0)
  {
  }

  /** The slot `i` of the sparse `playerPattern` array, `None` while it is a hole. */
  type Pattern = seq<Option<Color>>

  const Blanks: seq<Tile> := [Blank, Blank, Blank, Blank, Blank]
  const Unset: Pattern := [None, None, None, None, None]

  /** `playerPattern.filter(Boolean).length`: the slots that hold a colour. */
  function Filled(p: Pattern): (n: nat)
    ensures n <= |p|
    decreases |p|
  {
    if p == [] then 0
    else Filled(p[..|p| - 1]) + (if p[|p| - 1].Some? then 1 else 0)
  }

  /** The slots of `p` that hold the colour `t` holds at the same index. */
  function Matches(p: Pattern, t: seq<Color>): (n: nat)
    requires |p| == |t|
    ensures n <= Filled(p)
    decreases |p|
  {
    if p == [] then 0
    else
      Matches(p[..|p| - 1], t[..|t| - 1]) + (if p[|p| - 1] == Some(t[|t| - 1]) then 1 else 0)
  }

  /** The colour a click paints: a purple block turns green, any other block purple. */
  function Toggled(t: Tile): Color
  {
    if t == Painted(Purple) then Green else Purple
  }

  /** The board the click handlers share: the five input blocks, `playerPattern`, and the
      "You matched m/5 blocks" feedback line, if one is shown. */
  datatype Board = Board(tiles: seq<Tile>, pattern: Pattern, feedback: Option<nat>)

  const Fresh := Board(Blanks, Unset, None)

  /** Five blocks and five slots, and a block shows exactly the colour its slot holds. */
  ghost predicate Consistent(b: Board)
  {
    |b.tiles| == 5 && |b.pattern| == 5 &&
    forall i :: 0 <= i < 5 ==>
      (b.tiles[i] == Blank <==> b.pattern[i] == None) &&
      (b.tiles[i].Painted? ==> b.pattern[i] == Some(b.tiles[i].color))
  }

  /** What a click's pattern check decided. */
  datatype Verdict = Pending | Passed(score: int) | Failed(matches: nat)

  /** `Math.round((matches / 5) * 100)`. */
  function Score(matches: nat): (s: int)
    ensures s == 20 * matches
  {
    assert matches as real / 5.0 * 100.0 == (20 * matches) as real;
    Round(matches as real / 5.0 * 100.0)
  }

  /** A click on block `i`: the block and its slot take the toggled colour; once all five slots
      hold a colour the pattern is scored, and a score below 80 clears the board. */
  function Clicked(b: Board, i: nat): (r: (Board, Verdict))
    requires Consistent(b) && i < 5
    ensures Consistent(r.0)
    ensures var p := b.pattern[i := Some(Toggled(b.tiles[i]))];
      (r.1 == Pending <==> Filled(p) < 5) &&
      (r.1.Passed? <==> Filled(p) == 5 && Matches(p, Target) >= 4) &&
      (r.1.Passed? ==> r.1.score == 20 * Matches(p, Target) && r.1.score >= 80) &&
      (r.1.Failed? ==> r.1.matches == Matches(p, Target) < 4 && r.0 == Board(Blanks, Unset, Some(r.1.matches))) &&
      (!r.1.Failed? ==> r.0.pattern == p && r.0.tiles[i] == Painted(Toggled(b.tiles[i])))
  {
    var c := Toggled(b.tiles[i]);
    var p := b.pattern[i := Some(c)];
    var tiles := b.tiles[i := Painted(c)];
    if Filled(p) == 5 then
      var matches := Matches(p, Target);
      var score := Score(matches);
      if score >= 80 then (Board(tiles, p, b.feedback), Passed(score))
      else (Board(Blanks, Unset, Some(matches)), Failed(matches))
    else (Board(tiles, p, b.feedback), Pending)
  }

  /** Filling a slot raises the count by one when the slot was a hole and keeps it otherwise. */
  lemma {:induction false} FilledUpdate(p: Pattern, i: nat, c: Color)
    requires i < |p|
    ensures Filled(p[i := Some(c)]) == Filled(p) + (if p[i].None? then 1 else 0)
    decreases |p|
  {
    var n := |p|;
    if i < n - 1 {
      assert p[i := Some(c)][..n - 1] == p[..n - 1][i := Some(c)];
      FilledUpdate(p[..n - 1], i, c);
    } else {
      assert p[i := Some(c)][..n - 1] == p[..n - 1];
    }
  }

  /** A click fills at most one more slot, so while four or more slots are holes it cannot
      reach a verdict. */
  lemma FilledAfterClick(b: Board, i: nat)
    requires Consistent(b) && i < 5
    ensures Filled(b.pattern) < 4 ==>
      Clicked(b, i).1 == Pending && Filled(Clicked(b, i).0.pattern) <= Filled(b.pattern) + 1
  {
    FilledUpdate(b.pattern, i, Toggled(b.tiles[i]));
  }

  /** The verdicts of a run of clicks on the blocks `clicks`, in order. */
  function Run(b: Board, clicks: seq<nat>): (r: (Board, seq<Verdict>))
    requires Consistent(b)
    requires forall k :: 0 <= k < |clicks| ==> clicks[k] < 5
    ensures Consistent(r.0) && |r.1| == |clicks|
    decreases |clicks|
  {
    if clicks == [] then (b, [])
    else
      var step := Clicked(b, clicks[0]);
      var rest := Run(step.0, clicks[1..]);
      (rest.0, [step.1] + rest.1)
  }

  /** After a failure the slots are empty again, so no run of fewer than five clicks reaches a
      verdict: a new attempt needs five fresh entries. */
  lemma {:induction false} NeedsFiveClicks(b: Board, clicks: seq<nat>)
    requires Consistent(b)
    requires forall k :: 0 <= k < |clicks| ==> clicks[k] < 5
    requires Filled(b.pattern) + |clicks| < 5
    ensures forall k :: 0 <= k < |clicks| ==> Run(b, clicks).1[k] == Pending
    decreases |clicks|
  {
    if clicks != [] {
      FilledAfterClick(b, clicks[0]);
      var step := Clicked(b, clicks[0]);
      NeedsFiveClicks(step.0, clicks[1..]);
    }
  }

  /** A failed check leaves the board as a fresh one, apart from its feedback line. */
  lemma FailureResets(b: Board, i: nat)
    requires Consistent(b) && i < 5
    requires Clicked(b, i).1.Failed?
    ensures Filled(Clicked(b, i).0.pattern) == 0
    ensures Clicked(b, i).0.tiles == Fresh.tiles
  {
    FilledOfHoles(Unset);
  }

  lemma {:induction false} FilledOfHoles(p: Pattern)
    requires forall k :: 0 <= k < |p| ==> p[k] == None
    ensures Filled(p) == 0
    decreases |p|
  {
    if p != [] {
      FilledOfHoles(p[..|p| - 1]);
    }
  }

  /** Block `i`'s colour after `k` clicks on it from blank: purple, green, purple, ... */
  function Repainted(t: Tile, k: nat): Tile
    decreases k
  {
    if k == 0 then t else Repainted(Painted(Toggled(t)), k - 1)
  }

  lemma {:induction false} ClicksAlternate(k: nat)
    requires k >= 1
    ensures Repainted(Blank, k) == Painted(if k % 2 == 1 then Purple else Green)
    decreases k
  {
    if k > 2 {
      ClicksAlternate(k - 2);
      RepaintedSplit(Blank, k - 2, 2);
      assert Repainted(Painted(if (k - 2) % 2 == 1 then Purple else Green), 2)
        == Painted(if k % 2 == 1 then Purple else Green);
    }
  }

  lemma {:induction false} RepaintedSplit(t: Tile, j: nat, k: nat)
    ensures Repainted(t, j + k) == Repainted(Repainted(t, j), k)
    decreases j
  {
    if j > 0 {
      RepaintedSplit(Painted(Toggled(t)), j - 1, k);
    }
  }

  // ---------------------------------------------------------------------------------------------
  // The overlay and the lifecycle (minigames.js:163-272)

  /** What `elements.content` holds. */
  datatype Content =
    | Empty
    | MiningBoard(board: Board)
    | Placeholder(description: string)
    | Completion(score: int, experience: nat, item: string)

  /** `activeGame`, whether the container is displayed, the title text, and the content. */
  datatype Overlay = Overlay(activeGame: Option<string>, open: bool, title: string, content: Content)

  /** The overlay is displayed exactly while a game is active, the active game is one of the
      table, and a mining board in the content is consistent. */
  ghost predicate Valid(s: Overlay)
  {
    (s.open <==> s.activeGame.Some?) &&
    (s.activeGame.Some? ==> s.activeGame.value in Games) &&
    (s.content.MiningBoard? ==> Consistent(s.content.board))
  }

  /** What `initialize` puts into the content area for the game `gameType`. */
  function Initial(gameType: string): (c: Content)
    requires gameType in Games
    ensures c.MiningBoard? <==> gameType == "cryptoMining"
    ensures c.MiningBoard? ==> c.board == Fresh
  {
    if gameType == "cryptoMining" then MiningBoard(Fresh)
    else Placeholder(Games[gameType].description)
  }

  /** `startGame(gameType)`. An unknown type changes nothing and emits nothing; a known one
      emits `pauseGame`, becomes the active game and opens the overlay on its content. */
  function Started(s: Overlay, gameType: string): (r: (Overlay, seq<Effect>))
    ensures gameType !in Games ==> r == (s, [])
    ensures gameType in Games ==>
      r.1 == [Emit(PauseGame)] && r.0.activeGame == Some(gameType) && r.0.open &&
      r.0.title == Games[gameType].name && r.0.content == Initial(gameType)
    ensures Valid(s) ==> Valid(r.0)
  {
    if gameType !in Games then (s, [])
    else
      (Overlay(Some(gameType), true, Games[gameType].name, Initial(gameType)), [Emit(PauseGame)])
  }

  /** `closeGame`: nothing without an active game; otherwise the closing animation, whose
      completion is deferred 300 ms. The overlay itself is unchanged until then. */
  function Closing(s: Overlay): (effects: seq<Effect>)
    ensures s.activeGame.None? <==> effects == []
    ensures s.activeGame.Some? ==> effects == [Schedule(300, FinishCloseGame)]
  {
    if s.activeGame.None? then [] else [Schedule(300, FinishCloseGame)]
  }

  /** The closing animation's `onComplete`: the overlay hides, no game is active, and
      `resumeGame` is emitted. It runs whether or not a game is still active by then. */
  function Closed(s: Overlay): (r: (Overlay, seq<Effect>))
    ensures r.0.activeGame.None? && !r.0.open
    ensures r.0.title == s.title && r.0.content == s.content
    ensures r.1 == [Emit(ResumeGame)]
    ensures Valid(s) ==> Valid(r.0)
  {
    (s.(activeGame := None, open := false), [Emit(ResumeGame)])
  }

  /** `completeGame(score)`: nothing without an active game; otherwise the content shows the
      score and the game's rewards, and `miniGameCompleted(activeGame, score)` is emitted. The
      game stays active and the overlay open. */
  function Completed(s: Overlay, score: int): (r: (Overlay, seq<Effect>))
    requires Valid(s)
    ensures s.activeGame.None? ==> r == (s, [])
    ensures s.activeGame.Some? ==>
      var g := Games[s.activeGame.value];
      r.1 == [Emit(MiniGameCompleted(s.activeGame.value, score))] &&
      r.0 == s.(content := Completion(score, g.rewards.experience, g.rewards.items[0]))
    ensures Valid(r.0)
  {
    if s.activeGame.None? then (s, [])
    else
      var g := Games[s.activeGame.value];
      (s.(content := Completion(score, g.rewards.experience, g.rewards.items[0])),
       [Emit(MiniGameCompleted(s.activeGame.value, score))])
  }

  /** A click on mining block `i`. Only a displayed board can be clicked; a passing pattern
      completes the game with its score. */
  function Clicking(s: Overlay, i: nat): (r: (Overlay, seq<Effect>))
    requires Valid(s) && i < 5
    ensures !(s.open && s.content.MiningBoard?) ==> r == (s, [])
    ensures s.open && s.content.MiningBoard? ==>
      var v := Clicked(s.content.board, i).1;
      (v.Passed? ==> r.1 == [Emit(MiniGameCompleted(s.activeGame.value, v.score))] &&
                     r.0.content.Completion? && r.0.content.score == v.score) &&
      (!v.Passed? ==> r == (s.(content := MiningBoard(Clicked(s.content.board, i).0)), []))
    ensures Valid(r.0)
  {
    if !(s.open && s.content.MiningBoard?) then (s, [])
    else
      var step := Clicked(s.content.board, i);
      var s1 := s.(content := MiningBoard(step.0));
      if step.1.Passed? then Completed(s1, step.1.score) else (s1, [])
  }

  /** The `interact` listener: only an object flagged `isMiniGame` starts its game. */
  function Interacted(s: Overlay, target: Entity): (r: (Overlay, seq<Effect>))
    ensures !target.kind.MiniGameSite? ==> r == (s, [])
    ensures target.kind.MiniGameSite? ==> r == Started(s, target.kind.gameType)
  {
    if target.kind.MiniGameSite? then Started(s, target.kind.gameType) else (s, [])
  }

  /** `createMiniGameObject(scene, gameType, position, scale)` as the interaction code sees it:
      flagged `isMiniGame`, carrying `miniGameType`, named after the game. The source reads
      `games[gameType].name`, so an unknown type throws. */
  function MiniGameObject(uid: nat, gameType: string, position: Vec3): (e: Entity)
    requires gameType in Games
    ensures e.kind == MiniGameSite(gameType) && e.uid == uid && e.position == position
    ensures e.name == Games[gameType].name
  {
    Entity(uid, Games[gameType].name, position, MiniGameSite(gameType))
  }

  /** Interacting with the object built for a game starts exactly that game. */
  lemma SiteStartsItsGame(s: Overlay, uid: nat, gameType: string, position: Vec3)
    requires gameType in Games
    ensures var r := Interacted(s, MiniGameObject(uid, gameType, position));
      r.1 == [Emit(PauseGame)] && r.0.activeGame == Some(gameType) && r.0.open
  {
  }

  /** Start, complete, close: the events come out as `pauseGame`, `miniGameCompleted`, and, once
      the closing animation finishes, `resumeGame`; the game is active from the start until the
      animation's end. */
  lemma Lifecycle(s: Overlay, gameType: string, score: int)
    requires Valid(s) && gameType in Games
    ensures var s1 := Started(s, gameType);
      var s2 := Completed(s1.0, score);
      var s3 := Closed(s2.0);
      s1.1 == [Emit(PauseGame)] &&
      s2.1 == [Emit(MiniGameCompleted(gameType, score))] && s2.0.activeGame == Some(gameType) &&
      Closing(s2.0) == [Schedule(300, FinishCloseGame)] &&
      s3.1 == [Emit(ResumeGame)] && s3.0.activeGame == None && !s3.0.open
  {
    EveryGameHasAnItem();
  }

  // ---------------------------------------------------------------------------------------------
  // The object

  class MiniGames {
    var activeGame: Option<string>
    var open: bool
    var title: string
    var content: Content

    function State(): Overlay
      reads this
    {
      Overlay(activeGame, open, title, content)
    }

    /** `init`: the container is built hidden, with an empty title and content. */
    constructor ()
      ensures State() == Overlay(None, false, "", Empty)
      ensures Valid(State())
    {
      activeGame := None;
      open := false;
      title := "";
      content := Empty;
    }

    method StartGame(gameType: string) returns (effects: seq<Effect>)
      modifies this
      ensures (State(), effects) == Started(old(State()), gameType)
    {
      if gameType !in Games {
        return [];
      }
      effects := [Emit(PauseGame)];
      activeGame := Some(gameType);
      title := Games[gameType].name;
      if gameType == "cryptoMining" {
        content := MiningBoard(Board(Blanks, Unset, None));
      } else {
        content := Placeholder(Games[gameType].description);
      }
      open := true;
    }

    method CloseGame() returns (effects: seq<Effect>)
      ensures effects == Closing(State())
    {
      if activeGame.None? {
        return [];
      }
      effects := [Schedule(300, FinishCloseGame)];
    }

    /** The deferred end of `closeGame`. */
    method FinishClose() returns (effects: seq<Effect>)
      modifies this
      ensures (State(), effects) == Closed(old(State()))
    {
      open := false;
      activeGame := None;
      effects := [Emit(ResumeGame)];
    }

    method CompleteGame(score: int) returns (effects: seq<Effect>)
      requires Valid(State())
      modifies this
      ensures (State(), effects) == Completed(old(State()), score)
    {
      if activeGame.None? {
        return [];
      }
      var game := Games[activeGame.value];
      content := Completion(score, game.rewards.experience, game.rewards.items[0]);
      effects := [Emit(MiniGameCompleted(activeGame.value, score))];
    }

    /** The `for (let j = 0; j < 5; j++)` loop that counts matching slots. */
    static method CountMatches(pattern: Pattern) returns (matches: nat)
      requires |pattern| == 5
      ensures matches == Matches(pattern, Target)
    {
      matches := 0;
      for j := 0 to 5
        invariant matches == Matches(pattern[..j], Target[..j])
      {
        assert pattern[..j + 1][..j] == pattern[..j] && Target[..j + 1][..j] == Target[..j];
        if pattern[j] == Some(Target[j]) {
          matches := matches + 1;
        }
      }
      assert pattern[..5] == pattern && Target[..5] == Target;
    }

    /** The click handler of mining block `i`. */
    method Click(i: nat) returns (effects: seq<Effect>)
      requires Valid(State()) && i < 5
      modifies this
      ensures (State(), effects) == Clicking(old(State()), i)
    {
      if !(open && content.MiningBoard?) {
        return [];
      }
      var board := content.board;
      var color := Toggled(board.tiles[i]);
      var pattern := board.pattern[i := Some(color)];
      var tiles := board.tiles[i := Painted(color)];
      effects := [];
      if Filled(pattern) == 5 {
        var matches := CountMatches(pattern);
        var score := Round(matches as real / 5.0 * 100.0);
        if score >= 80 {
          content := MiningBoard(Board(tiles, pattern, board.feedback));
          effects := CompleteGame(score);
        } else {
          content := MiningBoard(Board(Blanks, Unset, Some(matches)));
        }
      } else {
        content := MiningBoard(Board(tiles, pattern, board.feedback));
      }
    }

    /** The `interact` listener registered by `init`. */
    method OnInteract(target: Entity) returns (effects: seq<Effect>)
      modifies this
      ensures (State(), effects) == Interacted(old(State()), target)
    {
      effects := [];
      if target.kind.MiniGameSite? {
        effects := StartGame(target.kind.gameType);
      }
    }
  }
}
