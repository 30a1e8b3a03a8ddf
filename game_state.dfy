// src/game_state.rs: the state a game starts from, the replay file a new game
// records and the parsing of that file when a game is replayed. The random
// seed, the file's text and the writer the log goes to are parameters; the
// world the state is populated with is the subject of world.dfy.

module GameStateRs {
  import opened Base
  import opened Text
  import opened Commands

  datatype Side = Player | Computer

  /** One more than the largest `u32`, the type of the seed. */
  const U32_LIMIT: nat := 0x1_0000_0000

  /** `from_str::<u32>`: decimal digits whose value fits 32 bits. */
  function ParseSeed(s: string): (r: Option<nat>)
    ensures r.Some? <==> |s| >= 1 && AllDigits(s) && DigitsValue(s) < U32_LIMIT
    ensures r.Some? ==> r.value == DigitsValue(s) < U32_LIMIT
  {
    match ParseNat(s)
    case None => None
    case Some(n) => if n < U32_LIMIT then Some(n) else None
  }

  /** A seed written out is read back. */
  lemma ParseSeedToString(seed: nat)
    requires seed < U32_LIMIT
    ensures ParseSeed(NatToString(seed)) == Some(seed)
  {
    ParseNatToString(seed);
  }

  /** The writer replay steps are logged to: a file, or the `NullWriter` of a replay, which keeps nothing. */
  class CommandLogger {
    var lines: seq<string>
    const recording: bool

    constructor(lines: seq<string>, recording: bool)
      ensures this.lines == lines && this.recording == recording
    {
      this.lines := lines;
      this.recording := recording;
    }

    /** `log`: one line holding the command's name. */
    method Log(c: Command)
      modifies this`lines
      ensures lines == old(lines) + if recording then [ToStr(c)] else []
    {
      if recording {
        lines := lines + [ToStr(c)];
      }
    }
  }

  class GameState {
    var side: Side
    var turn: int
    var cheating: bool
    var replay: bool
    var clock: int
    var paused: bool
    var commands: seq<Command>
    const displaySize: (int, int)
    const levelSize: (int, int)
    /** The only input the random generator is seeded from. */
    const rngSeed: nat
    const logger: CommandLogger

    /** `new`: the player's side moves first, on turn 0 with a zero clock and not paused; the level leaves two rows
        of the display to the status lines. */
    constructor(width: int, height: int, commands: seq<Command>, logger: CommandLogger, seed: nat, cheating: bool,
                replay: bool)
      ensures side == Player && turn == 0 && clock == 0 && !paused
      ensures this.commands == commands && this.logger == logger && rngSeed == seed
      ensures this.cheating == cheating && this.replay == replay
      ensures displaySize == (width, height) && levelSize == (width, height - 2)
    {
      side := Player;
      turn := 0;
      this.cheating := cheating;
      this.replay := replay;
      clock := 0;
      paused := false;
      this.commands := commands;
      displaySize := (width, height);
      levelSize := (width, height - 2);
      rngSeed := seed;
      this.logger := logger;
    }
  }

  /** `new_game`: a recorded game whose log starts with the seed line, with no commands queued. */
  method NewGame(width: int, height: int, seed: nat) returns (g: GameState)
    requires seed < U32_LIMIT
    ensures fresh(g) && fresh(g.logger)
    ensures g.logger.lines == [NatToString(seed)] && g.logger.recording
    ensures g.commands == [] && g.rngSeed == seed && !g.cheating && !g.replay
    ensures g.side == Player && g.turn == 0 && g.clock == 0 && !g.paused
  {
    var logger := new CommandLogger([NatToString(seed)], true);
    g := new GameState(width, height, [], logger, seed, false, false);
  }

  datatype Replay = Replay(seed: nat, commands: seq<Command>)

  /** The panics of `replay_game`. */
  datatype ReplayPanic = EmptyFile | SeedNotANumber(line: string) | UnknownCommand(line: string)

  /** What a replay file says: the seed on its first line, then one command per line. */
  function ReplayOf(text: string): (r: Result<Replay, ReplayPanic>)
    ensures text == "" ==> r == Err(EmptyFile)
    ensures r.Ok? ==> r.value.seed < U32_LIMIT && |r.value.commands| + 1 == |Lines(text)|
    ensures r.Ok? ==> forall i :: 0 <= i < |r.value.commands| ==> Lines(text)[i + 1] == ToStr(r.value.commands[i])
  {
    var lines := Lines(text);
    if lines == [] then Err(EmptyFile)
    else match ParseSeed(lines[0])
      case None => Err(SeedNotANumber(lines[0]))
      case Some(seed) =>
        match ParseCommands(lines[1..])
        case Err(line) => Err(UnknownCommand(line))
        case Ok(cs) =>
          ParsedNames(lines[1..], cs);
          Ok(Replay(seed, cs))
  }

  lemma ParsedNames(names: seq<string>, cs: seq<Command>)
    requires ParseCommands(names) == Ok(cs)
    ensures forall i :: 0 <= i < |cs| ==> names[i] == ToStr(cs[i])
  {
    forall i | 0 <= i < |cs|
      ensures names[i] == ToStr(cs[i])
    {
      FromStrToStr(cs[i], names[i]);
    }
  }

  /** `replay_game`: reads the seed and queues the commands in file order, for a game that cheats, is replayed and
      logs to nowhere. */
  method ReplayGame(width: int, height: int, text: string) returns (r: Result<GameState, ReplayPanic>)
    ensures ReplayOf(text).Err? <==> r.Err?
    ensures r.Err? ==> r.error == ReplayOf(text).error
    ensures r.Ok? ==>
      var g := r.value;
      fresh(g) && g.rngSeed == ReplayOf(text).value.seed && g.commands == ReplayOf(text).value.commands
      && g.cheating && g.replay && !g.logger.recording && g.logger.lines == []
      && g.side == Player && g.turn == 0 && g.clock == 0 && !g.paused
  {
    var lines := Lines(text);
    if lines == [] {
      return Err(EmptyFile);
    }
    var seed := ParseSeed(lines[0]);
    if seed.None? {
      return Err(SeedNotANumber(lines[0]));
    }
    var cs := ParseAll(lines[1..]);
    if cs.Err? {
      return Err(UnknownCommand(cs.error));
    }
    var logger := new CommandLogger([], false);
    var g := new GameState(width, height, cs.value, logger, seed.value, true, true);
    r := Ok(g);
  }

  /** Logging one more command keeps the log in that form. */
  lemma LogExtendsRecording(seed: nat, cmds: seq<Command>, c: Command)
    ensures ReplayLines(seed, cmds) + [ToStr(c)] == ReplayLines(seed, cmds + [c])
  {
    assert Names(cmds + [c]) == Names(cmds) + [ToStr(c)];
  }

  /** The file a recorded game leaves behind replays as the same seed and the same commands. */
  lemma ReplayRoundTrip(seed: nat, cmds: seq<Command>)
    requires seed < U32_LIMIT
    ensures ReplayOf(Unlines(ReplayLines(seed, cmds))) == Ok(Replay(seed, cmds))
  {
    var ls := ReplayLines(seed, cmds);
    RecordedAreLines(seed, cmds);
    LinesUnlines(ls);
    ParseSeedToString(seed);
    assert ls[1..] == Names(cmds);
    ParseCommandsOfNames(cmds);
  }

  /** No recorded line holds a line feed. */
  lemma RecordedAreLines(seed: nat, cmds: seq<Command>)
    ensures forall i :: 0 <= i < |ReplayLines(seed, cmds)| ==> '\n' !in ReplayLines(seed, cmds)[i]
  {
    var ls := ReplayLines(seed, cmds);
    forall i | 0 <= i < |ls|
      ensures '\n' !in ls[i]
    {
      if i == 0 {
        assert AllDigits(ls[0]);
      }
    }
  }

  /** A replay file written with CRLF line ends is refused: the seed line keeps its carriage return, which is not a
      digit. */
  lemma CrLfSeedRejected()
    ensures ReplayOf("7\r\n") == Err(SeedNotANumber("7\r"))
  {
    SplitAfterPiece("7\r", '\n', "");
    assert "7\r" + ['\n'] + "" == "7\r\n";
    assert Lines("7\r\n") == ["7\r"];
  }

  /** Likewise a command line that ends in a carriage return names no command. */
  lemma CrLfCommandRejected()
    ensures ReplayOf("7\nN\r\n") == Err(UnknownCommand("N\r"))
  {
    SplitAfterPiece("N\r", '\n', "");
    SplitAfterPiece("7", '\n', "N\r\n");
    assert "N\r" + ['\n'] + "" == "N\r\n";
    assert "7" + ['\n'] + "N\r\n" == "7\nN\r\n";
    assert Lines("7\nN\r\n") == ["7", "N\r"];
  }
}
