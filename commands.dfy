// The eight-direction `Command` enum that both systems files declare, with its
// derived `to_str` and hand-written `from_str`.

module Commands {
  import opened Base
  import T = Text

  datatype Command = N | E | S | W | NE | NW | SE | SW

  /** The derived `ToStr`: the variant's name. */
  function ToStr(c: Command): (s: string)
    ensures 1 <= |s| <= 2
  {
    match c
    case N => "N" case E => "E" case S => "S" case W => "W"
    case NE => "NE" case NW => "NW" case SE => "SE" case SW => "SW"
  }

  /** `from_str`: exactly the eight names; anything else is None. */
  function FromStr(name: string): (r: Option<Command>)
    ensures r.Some? <==> name in {"N", "E", "S", "W", "NE", "NW", "SE", "SW"}
  {
    if name == "N" then Some(N)
    else if name == "E" then Some(E)
    else if name == "S" then Some(S)
    else if name == "W" then Some(W)
    else if name == "NE" then Some(NE)
    else if name == "NW" then Some(NW)
    else if name == "SE" then Some(SE)
    else if name == "SW" then Some(SW)
    else None
  }

  /** Parsing a logged command gives it back, and only its own name parses to it. */
  lemma FromStrToStr(c: Command, name: string)
    ensures FromStr(ToStr(c)) == Some(c)
    ensures FromStr(name) == Some(c) ==> name == ToStr(c)
  {
  }

  /** The unit step a command stands for: y grows downwards. */
  function Offset(c: Command): (d: (int, int))
    ensures -1 <= d.0 <= 1 && -1 <= d.1 <= 1 && d != (0, 0)
    ensures d.1 == -1 <==> c in {N, NE, NW}
    ensures d.1 == 1 <==> c in {S, SE, SW}
    ensures d.0 == 1 <==> c in {E, NE, SE}
    ensures d.0 == -1 <==> c in {W, NW, SW}
  {
    match c
    case N => (0, -1) case S => (0, 1) case W => (-1, 0) case E => (1, 0)
    case NW => (-1, -1) case NE => (1, -1) case SW => (-1, 1) case SE => (1, 1)
  }

  /** Distinct commands step in distinct directions. */
  lemma OffsetInjective(a: Command, b: Command)
    ensures Offset(a) == Offset(b) ==> a == b
  {
  }

  /** The commands named by the lines, in order, or the first name that is not a command. */
  function ParseCommands(names: seq<string>): (r: Result<seq<Command>, string>)
    ensures r.Ok? <==> forall i :: 0 <= i < |names| ==> FromStr(names[i]).Some?
    ensures r.Ok? ==> |r.value| == |names| && forall i :: 0 <= i < |names| ==> FromStr(names[i]) == Some(r.value[i])
    ensures r.Err? ==> exists i :: 0 <= i < |names| && FromStr(names[i]).None? && r.error == names[i]
  {
    if names == [] then Ok([])
    else match FromStr(names[0])
      case None => Err(names[0])
      case Some(c) =>
        match ParseCommands(names[1..])
        case Err(err) =>
          assert forall i :: 1 <= i < |names| ==> names[1..][i - 1] == names[i];
          Err(err)
        case Ok(cs) =>
          assert forall i :: 1 <= i < |names| ==> names[1..][i - 1] == names[i];
          Ok([c] + cs)
  }

  lemma {:induction false} ParseCommandsAppend(names: seq<string>, name: string, c: Command, cs: seq<Command>)
    requires ParseCommands(names) == Ok(cs) && FromStr(name) == Some(c)
    ensures ParseCommands(names + [name]) == Ok(cs + [c])
    decreases |names|
  {
    if names == [] {
      assert names + [name] == [name] && [name][1..] == [] && cs == [];
      assert ParseCommands([name][1..]) == Ok([]);
      assert ParseCommands([name]) == Ok([c] + []);
      assert [c] + [] == cs + [c];
    } else {
      var c0 := FromStr(names[0]).value;
      var tail := ParseCommands(names[1..]);
      assert tail.Ok? && cs == [c0] + tail.value;
      ParseCommandsAppend(names[1..], name, c, tail.value);
      assert (names + [name])[0] == names[0];
      assert (names + [name])[1..] == names[1..] + [name];
      assert [c0] + (tail.value + [c]) == cs + [c];
    }
  }

  /** The error is the first unknown name. */
  lemma {:induction false} ParseCommandsFirstError(names: seq<string>, k: nat, cs: seq<Command>)
    requires k < |names| && FromStr(names[k]).None? && ParseCommands(names[..k]) == Ok(cs)
    ensures ParseCommands(names) == Err(names[k])
    decreases k
  {
    if k > 0 {
      assert names[1..][..k - 1] == names[..k][1..];
      assert FromStr(names[0]).Some?;
      ParseCommandsFirstError(names[1..], k - 1, cs[1..]);
    }
  }

  /** The command names as the replay logs write them, one per command. */
  function Names(cmds: seq<Command>): (ns: seq<string>)
    ensures |ns| == |cmds| && forall i :: 0 <= i < |cmds| ==> ns[i] == ToStr(cmds[i])
  {
    if cmds == [] then [] else [ToStr(cmds[0])] + Names(cmds[1..])
  }

  /** The lines of a replay file, as both generations write it: the seed, then one command name per line. */
  function ReplayLines(seed: nat, cmds: seq<Command>): (ls: seq<string>)
    ensures |ls| == |cmds| + 1 && ls[1..] == Names(cmds)
  {
    [T.NatToString(seed)] + Names(cmds)
  }

  lemma {:induction false} ParseCommandsOfNames(cmds: seq<Command>)
    ensures ParseCommands(Names(cmds)) == Ok(cmds)
    decreases |cmds|
  {
    if cmds != [] {
      ParseCommandsOfNames(cmds[1..]);
      FromStrToStr(cmds[0], ToStr(cmds[0]));
      assert Names(cmds)[1..] == Names(cmds[1..]);
      assert cmds == [cmds[0]] + cmds[1..];
    }
  }

  /** A replay's command lines queued one by one, stopping at the first line that names no command. */
  method ParseAll(names: seq<string>) returns (r: Result<seq<Command>, string>)
    ensures r == ParseCommands(names)
  {
    var queue: seq<Command> := [];
    var k := 0;
    while k < |names|
      invariant 0 <= k <= |names|
      invariant ParseCommands(names[..k]) == Ok(queue)
    {
      var c := FromStr(names[k]);
      if c.None? {
        ParseCommandsFirstError(names, k, queue);
        return Err(names[k]);
      }
      ParseCommandsAppend(names[..k], names[k], c.value, queue);
      assert names[..k + 1] == names[..k] + [names[k]];
      queue := queue + [c.value];
      k := k + 1;
    }
    assert names[..k] == names;
    r := Ok(queue);
  }
}
