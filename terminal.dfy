/**
 * The Command Prompt panel: a line interpreter over a closed set of verbs
 * with an append-only transcript, and a command history browsed with the
 * arrow keys.
 */
module Terminal {

  import opened Text

  /** The first lines of every new transcript. */
  const Banner: seq<string> := [
    "Paskanet II [Version 2.1.0]",
    "(c) Paskanet Corporation. All rights reserved.",
    ""]

  /** The locale-formatted date and time strings the clock would give. */
  datatype Clock = Clock(date: string, time: string)

  /**
   * What one command does to the panel: append lines to the transcript,
   * clear it, or ask the window to close.
   */
  datatype Effect = Append(lines: seq<string>) | ClearScreen | CloseWindow

  /** One draw of `Math.floor(Math.random() * 131)`; the ping delay is 20 more. */
  type Roll = r: nat | r <= 130

  const Prompt: string := "P:\\> "

  const HelpLines: seq<string> := [
    "For more information on a specific command, type HELP command-name",
    "CLS              Clears the screen.",
    "CMD              Starts a new instance of the Paskanet II command interpreter.",
    "COLOR            Sets the default console foreground and background colors.",
    "DATE             Displays or sets the date.",
    "DIR              Displays a list of files and subdirectories in a directory.",
    "ECHO             Displays messages, or turns command echoing on or off.",
    "EXIT             Quits the CMD.EXE program (command interpreter).",
    "HOSTNAME         Prints the name of the current host.",
    "IPCONFIG         Displays all current TCP/IP network configuration values.",
    "NETSTAT          Displays protocol statistics and current TCP/IP network connections.",
    "PING             Verifies connectivity to a remote computer.",
    "SHUTDOWN         Allows proper local or remote shutdown of the machine.",
    "SYSINFO          Displays machine specific properties and configuration.",
    "TASKLIST         Displays all currently running tasks including services.",
    "TIME             Displays or sets the system time.",
    "TYPE             Displays the contents of a text file or files.",
    "VER              Displays the Paskanet II version.",
    "WHOAMI           Displays the current user name."]

  const DirLines: seq<string> := [
    " Volume in drive P is PaskanetOS",
    " Directory of P:\\",
    "",
    "07/04/2024  02:10 PM    <DIR>          Users",
    "07/04/2024  01:05 PM    <DIR>          Windows",
    "07/04/2024  03:15 PM    <DIR>          Program Files",
    "07/05/2024  09:00 AM             1,024 config.sys",
    "               1 File(s)          1,024 bytes",
    "               3 Dir(s)   17,179,869,184 bytes free"]

  const TasklistLines: seq<string> := [
    "Image Name                     PID Session Name        Session#    Mem Usage",
    "========================= ======== ================ =========== ============",
    "System                           4 Services                   0      128 MB",
    "svchost.exe                   1120 Services                   0       64 MB",
    "explorer.exe                  4132 Console                    1      256 MB",
    "P2Manager.exe                 6012 Services                   0      180 MB",
    "cmd.exe                       7123 Console                    1       24 MB"]

  const SysinfoLines: seq<string> := [
    "Host Name:                 PASKANET-SVR-01",
    "OS Name:                   Paskanet II Server",
    "OS Version:                2.1.0 Build 2100",
    "Processor(s):              1 Processor(s) Installed.",
    "Total Physical Memory:     32,768 MB",
    "Available Physical Memory: 14,336 MB"]

  const ShutdownLines: seq<string> := [
    "Broadcasting shutdown message...",
    "Use the Start Menu or Manage menu to shut down."]

  /**
   * The fixed listings some verbs print. The interpreter's own are `Fixed`;
   * the functions below take them as a parameter, so that what they prove
   * holds whatever the listings say.
   */
  datatype Listings = Listings(
    help: seq<string>, dir: seq<string>, tasklist: seq<string>, sysinfo: seq<string>, shutdown: seq<string>)

  const Fixed: Listings := Listings(HelpLines, DirLines, TasklistLines, SysinfoLines, ShutdownLines)

  const PingUsage: string := "Usage: ping <hostname>"
  const NotRecognizedTail: string := "operable program or batch file."

  function PingHeader(host: string): string
  {
    "Pinging " + host + " with 32 bytes of data:"
  }

  function ReplyLine(host: string, delay: nat): string
  {
    "Reply from " + host + ": bytes=32 time=" + NatToString(delay) + "ms TTL=58"
  }

  function NotRecognized(command: string): string
  {
    "'" + command + "' is not recognized as an internal or external command,"
  }

  /** The delay a ping reply reports for one draw: 20 to 150 ms. */
  function Delay(roll: Roll): (d: nat)
    ensures 20 <= d <= 150
  {
    20 + roll as nat
  }

  /** The four reply lines of a ping, one per draw. */
  function Replies(host: string, rolls: seq<Roll>): (r: seq<string>)
    requires |rolls| == 4
    ensures |r| == 4
  {
    seq(4, i requires 0 <= i < 4 => ReplyLine(host, Delay(rolls[i])))
  }

  /** The command line cut into its verb word and its argument words. */
  function Words(cmd: string): (w: seq<string>)
    ensures |w| >= 1
  {
    Split(Trim(cmd), ' ')
  }

  /** The verbs the interpreter knows, plus the empty line and everything else. */
  datatype Verb =
    | Help | Cls | Echo | Ver | Date | Time | Dir | Ping | Tasklist | Sysinfo | Exit | Shutdown
    | Blank | Unknown

  /** Matches the first word, in any letter case, against the verbs. */
  function Classify(command: string): (r: Verb)
    ensures r == Blank <==> command == ""
  {
    var v := Lower(command);
    if v == "help" then Help
    else if v == "cls" then Cls
    else if v == "echo" then Echo
    else if v == "ver" then Ver
    else if v == "date" then Date
    else if v == "time" then Time
    else if v == "dir" then Dir
    else if v == "ping" then Ping
    else if v == "tasklist" then Tasklist
    else if v == "sysinfo" then Sysinfo
    else if v == "exit" then Exit
    else if v == "shutdown" then Shutdown
    else if v == "" then Blank
    else Unknown
  }

  /** The lines a verb prints between the echoed prompt and the closing blank. */
  function VerbLines(texts: Listings, verb: Verb, command: string, args: seq<string>, rolls: seq<Roll>, clock: Clock): seq<string>
    requires |rolls| == 4
  {
    match verb
    case Help => texts.help
    case Echo => [Join(args, ' ')]
    case Ver => [Banner[0]]
    case Date => ["The current date is: " + clock.date]
    case Time => ["The current time is: " + clock.time]
    case Dir => texts.dir
    case Ping => if args == [] then [PingUsage] else [PingHeader(args[0])] + Replies(args[0], rolls)
    case Tasklist => texts.tasklist
    case Sysinfo => texts.sysinfo
    case Shutdown => texts.shutdown
    case Blank => []
    case _ => [NotRecognized(command), NotRecognizedTail]
  }

  /**
   * What the interpreter does with a parsed command line: `cls` clears,
   * `exit` closes the window, anything else appends the echoed prompt, the
   * verb's lines and a blank line.
   */
  function Output(texts: Listings, cmd: string, verb: Verb, command: string, args: seq<string>, rolls: seq<Roll>, clock: Clock): (r: Effect)
    requires |rolls| == 4
    ensures r == ClearScreen <==> verb == Cls
    ensures r == CloseWindow <==> verb == Exit
    ensures r.Append? ==> |r.lines| >= 2 && r.lines[0] == Prompt + cmd && r.lines[|r.lines| - 1] == ""
  {
    match verb
    case Cls => ClearScreen
    case Exit => CloseWindow
    case _ => Append([Prompt + cmd] + VerbLines(texts, verb, command, args, rolls, clock) + [""])
  }

  /** What the interpreter does with one command line. */
  function Response(texts: Listings, cmd: string, rolls: seq<Roll>, clock: Clock): Effect
    requires |rolls| == 4
  {
    var w := Words(cmd);
    Output(texts, cmd, Classify(w[0]), w[0], w[1..], rolls, clock)
  }

  /** The four ping replies, one delay drawn per round. */
  method PingReplies(host: string, rolls: seq<Roll>) returns (replies: seq<string>)
    requires |rolls| == 4
    ensures replies == Replies(host, rolls)
  {
    replies := [];
    var i := 0;
    while i < 4
      invariant 0 <= i <= 4
      invariant replies == Replies(host, rolls)[..i]
    {
      var delay := Delay(rolls[i]);
      assert Replies(host, rolls)[..i + 1] == Replies(host, rolls)[..i] + [ReplyLine(host, delay)];
      replies := replies + [ReplyLine(host, delay)];
      i := i + 1;
    }
    assert Replies(host, rolls)[..4] == Replies(host, rolls);
  }

  /**
   * Builds the response the way the interpreter does, pushing lines onto an
   * output list, with a loop for the four ping replies.
   */
  method Respond(texts: Listings, cmd: string, rolls: seq<Roll>, clock: Clock) returns (effect: Effect)
    requires |rolls| == 4
    ensures effect == Response(texts, cmd, rolls, clock)
  {
    var words := Words(cmd);
    var command, args := words[0], words[1..];
    var verb := Classify(command);
    if verb == Cls {
      return ClearScreen;
    } else if verb == Exit {
      return CloseWindow;
    }
    var lines: seq<string>;
    if verb == Ping && args != [] {
      var replies := PingReplies(args[0], rolls);
      lines := [PingHeader(args[0])] + replies;
    } else {
      lines := VerbLines(texts, verb, command, args, rolls, clock);
    }
    assert lines == VerbLines(texts, verb, command, args, rolls, clock);
    var output := [Prompt + cmd] + lines;
    effect := Append(output + [""]);
  }

  // ---------------------------------------------------------------------
  // Reading a command line

  /** A trimmed line without spaces is one word. */
  lemma OneWord(cmd: string)
    requires ' ' !in Trim(cmd)
    ensures Words(cmd) == [Trim(cmd)]
  {
    SplitWord(Trim(cmd), ' ');
  }

  /** A trimmed line of two space-free words splits into those words. */
  lemma TwoWords(cmd: string, first: string, second: string)
    requires Trim(cmd) == first + " " + second && ' ' !in first && ' ' !in second
    ensures Words(cmd) == [first, second]
  {
    SplitAtFirst(first, second, ' ');
    SplitWord(second, ' ');
  }

  /** A trimmed line whose first word has no space splits at its first space. */
  lemma FirstWord(cmd: string, first: string, rest: string)
    requires Trim(cmd) == first + " " + rest && ' ' !in first
    ensures Words(cmd) == [first] + Split(rest, ' ')
  {
    SplitAtFirst(first, rest, ' ');
  }

  /** A word spelling a verb in any case has no space in it. */
  lemma VerbWordHasNoSpace(w: string, verb: string)
    requires Lower(w) == verb && ' ' !in verb
    ensures ' ' !in w
  {
    forall i | 0 <= i < |w| ensures w[i] != ' ' {
      assert Lower(w)[i] == verb[i];
    }
  }

  lemma ClassifiesAsEcho(w: string)
    requires Lower(w) == "echo"
    ensures Classify(w) == Echo
  {
  }

  lemma ClassifiesAsBlank(w: string)
    requires w == ""
    ensures Classify(w) == Blank
  {
  }

  lemma ClassifiesAsPing(w: string)
    requires Lower(w) == "ping"
    ensures Classify(w) == Ping
  {
  }

  // ---------------------------------------------------------------------
  // Properties of the interpreter

  /** The response depends on the line only through its words. */
  lemma ResponseOfWords(texts: Listings, cmd: string, command: string, args: seq<string>, rolls: seq<Roll>, clock: Clock)
    requires |rolls| == 4
    requires Words(cmd) == [command] + args
    ensures Response(texts, cmd, rolls, clock) == Output(texts, cmd, Classify(command), command, args, rolls, clock)
  {
    assert Words(cmd)[0] == command && Words(cmd)[1..] == args;
  }

  /** The verbs other than cls and exit all frame their lines the same way. */
  lemma ResponseFrame(texts: Listings, cmd: string, rolls: seq<Roll>, clock: Clock)
    requires |rolls| == 4
    requires Classify(Words(cmd)[0]) != Cls && Classify(Words(cmd)[0]) != Exit
    ensures Response(texts, cmd, rolls, clock).Append?
    ensures var out := Response(texts, cmd, rolls, clock).lines;
      |out| >= 2 && out[0] == Prompt + cmd && out[|out| - 1] == ""
  {
  }

  /** `echo` prints exactly the trimmed text after its first space. */
  lemma EchoPrintsText(texts: Listings, cmd: string, word: string, text: string, rolls: seq<Roll>, clock: Clock)
    requires |rolls| == 4
    requires Trim(cmd) == word + " " + text && Lower(word) == "echo"
    ensures Response(texts, cmd, rolls, clock) == Append([Prompt + cmd, text, ""])
  {
    assert Words(cmd) == [word] + Split(text, ' ') by {
      VerbWordHasNoSpace(word, "echo");
      FirstWord(cmd, word, text);
    }
    assert Classify(word) == Echo by {
      ClassifiesAsEcho(word);
    }
    ResponseOfWords(texts, cmd, word, Split(text, ' '), rolls, clock);
    JoinSplit(text, ' ');
  }

  /** `ping host` prints the header and the four replies for that host. */
  lemma PingWithHost(texts: Listings, cmd: string, word: string, host: string, rolls: seq<Roll>, clock: Clock)
    requires |rolls| == 4
    requires Trim(cmd) == word + " " + host && ' ' !in host && Lower(word) == "ping"
    ensures Response(texts, cmd, rolls, clock) ==
      Append([Prompt + cmd, PingHeader(host)] + Replies(host, rolls) + [""])
  {
    assert Words(cmd) == [word] + [host] by {
      VerbWordHasNoSpace(word, "ping");
      TwoWords(cmd, word, host);
    }
    assert Classify(word) == Ping by {
      ClassifiesAsPing(word);
    }
    ResponseOfWords(texts, cmd, word, [host], rolls, clock);
    assert Output(texts, cmd, Ping, word, [host], rolls, clock)
        == Append([Prompt + cmd, PingHeader(host)] + Replies(host, rolls) + [""]) by {
      assert [Prompt + cmd] + ([PingHeader(host)] + Replies(host, rolls)) + [""]
          == [Prompt + cmd, PingHeader(host)] + Replies(host, rolls) + [""];
    }
  }

  /** `ping` alone prints the usage line. */
  lemma PingWithoutHost(texts: Listings, cmd: string, rolls: seq<Roll>, clock: Clock)
    requires |rolls| == 4
    requires Lower(Trim(cmd)) == "ping"
    ensures Response(texts, cmd, rolls, clock) == Append([Prompt + cmd, PingUsage, ""])
  {
    var word := Trim(cmd);
    assert Words(cmd) == [word] + [] by {
      VerbWordHasNoSpace(word, "ping");
      OneWord(cmd);
    }
    assert Classify(word) == Ping by {
      ClassifiesAsPing(word);
    }
    ResponseOfWords(texts, cmd, word, [], rolls, clock);
  }

  /**
   * A word that is no verb in any letter case is reported as not recognized,
   * quoted as typed.
   */
  lemma UnknownCommand(texts: Listings, cmd: string, rolls: seq<Roll>, clock: Clock)
    requires |rolls| == 4
    requires var v := Lower(Words(cmd)[0]);
      v !in {"help", "cls", "echo", "ver", "date", "time", "dir", "ping", "tasklist",
             "sysinfo", "exit", "shutdown", ""}
    ensures Response(texts, cmd, rolls, clock) ==
      Append([Prompt + cmd, NotRecognized(Words(cmd)[0]), NotRecognizedTail, ""])
  {
    assert Classify(Words(cmd)[0]) == Unknown;
  }

  /** `cls` clears the screen and `exit` closes the window, in any letter case and whatever follows. */
  lemma ClsAndExit(texts: Listings, cmd: string, rolls: seq<Roll>, clock: Clock)
    requires |rolls| == 4
    ensures Lower(Words(cmd)[0]) == "cls" ==> Response(texts, cmd, rolls, clock) == ClearScreen
    ensures Lower(Words(cmd)[0]) == "exit" ==> Response(texts, cmd, rolls, clock) == CloseWindow
  {
  }

  /** The verbs that print a fixed listing, in any letter case and whatever follows. */
  lemma ListingVerbs(texts: Listings, cmd: string, rolls: seq<Roll>, clock: Clock)
    requires |rolls| == 4
    ensures var v, out := Lower(Words(cmd)[0]), Response(texts, cmd, rolls, clock);
      && (v == "help" ==> out == Append([Prompt + cmd] + texts.help + [""]))
      && (v == "dir" ==> out == Append([Prompt + cmd] + texts.dir + [""]))
      && (v == "tasklist" ==> out == Append([Prompt + cmd] + texts.tasklist + [""]))
      && (v == "sysinfo" ==> out == Append([Prompt + cmd] + texts.sysinfo + [""]))
      && (v == "shutdown" ==> out == Append([Prompt + cmd] + texts.shutdown + [""]))
  {
  }

  /** `ver`, `date` and `time` print one line each, in any letter case and whatever follows. */
  lemma OneLineVerbs(texts: Listings, cmd: string, rolls: seq<Roll>, clock: Clock)
    requires |rolls| == 4
    ensures var v, out := Lower(Words(cmd)[0]), Response(texts, cmd, rolls, clock);
      && (v == "ver" ==> out == Append([Prompt + cmd, Banner[0], ""]))
      && (v == "date" ==> out == Append([Prompt + cmd, "The current date is: " + clock.date, ""]))
      && (v == "time" ==> out == Append([Prompt + cmd, "The current time is: " + clock.time, ""]))
  {
  }

  /** A blank line echoes the prompt and adds nothing else. */
  lemma BlankCommand(texts: Listings, cmd: string, rolls: seq<Roll>, clock: Clock)
    requires |rolls| == 4
    requires Trim(cmd) == ""
    ensures Response(texts, cmd, rolls, clock) == Append([Prompt + cmd, ""])
  {
    OneWord(cmd);
    ResponseOfWords(texts, cmd, "", [], rolls, clock);
    ClassifiesAsBlank("");
  }

  // ---------------------------------------------------------------------
  // History cursor

  /** ArrowUp: one step older, stopping at the oldest entry. */
  function Older(index: int, count: nat): (r: int)
    requires -1 <= index < count && count > 0
    ensures 0 <= r < count
    ensures r == index + 1 || (r == index && index == count - 1)
  {
    if index + 1 < count - 1 then index + 1 else count - 1
  }

  /** ArrowDown: one step newer, and from the newest back to the empty input (-1). */
  function Newer(index: int): (r: int)
    requires -1 <= index
    ensures index > 0 ==> r == index - 1
    ensures index <= 0 ==> r == -1
  {
    if index > 0 then index - 1 else -1
  }

  /** ArrowDown undoes ArrowUp, and ArrowUp undoes ArrowDown, away from the ends. */
  lemma CursorRoundTrips(index: int, count: nat)
    requires -1 <= index < count && count > 0
    ensures index < count - 1 ==> Newer(Older(index, count)) == index
    ensures index >= 0 ==> Older(Newer(index), count) == index
  {
  }

  /** The transcript after an effect; closing leaves it to the window. */
  function Apply(lines: seq<string>, effect: Effect): seq<string>
  {
    match effect
    case Append(out) => lines + out
    case ClearScreen => []
    case CloseWindow => lines
  }

  datatype Key = Enter | ArrowUp | ArrowDown | OtherKey

  class Terminal {
    var lines: seq<string>
    var commandHistory: seq<string>
    var historyIndex: int
    /** The text in the input field. */
    var input: string
    /** The fixed listings the interpreter prints. */
    var listings: Listings

    /** The cursor is -1 (fresh input) or an index into the history. */
    ghost predicate Valid()
      reads this
    {
      -1 <= historyIndex < |commandHistory|
    }

    constructor ()
      ensures Valid()
      ensures lines == Banner && commandHistory == [] && historyIndex == -1 && input == ""
      ensures listings == Fixed
    {
      lines, commandHistory, historyIndex, input := Banner, [], -1, "";
      listings := Fixed;
    }

    /** Typing into the field. */
    method SetInput(text: string)
      modifies this`input
      ensures input == text
    {
      input := text;
    }

    /** Runs one command against the transcript; true asks the window to close. */
    method ExecuteCommand(cmd: string, rolls: seq<Roll>, clock: Clock) returns (closeRequested: bool)
      requires |rolls| == 4
      modifies this`lines
      ensures closeRequested == Response(listings, cmd, rolls, clock).CloseWindow?
      ensures lines == Apply(old(lines), Response(listings, cmd, rolls, clock))
    {
      var effect := Respond(listings, cmd, rolls, clock);
      closeRequested := false;
      match effect {
        case Append(out) => lines := lines + out;
        case ClearScreen => lines := [];
        case CloseWindow => closeRequested := true;
      }
    }

    /**
     * Enter in the input field: a non-empty command becomes the newest history
     * entry, the cursor is reset, the command runs and the field is cleared.
     */
    method Submit(rolls: seq<Roll>, clock: Clock) returns (closeRequested: bool)
      requires |rolls| == 4
      modifies this`lines, this`commandHistory, this`historyIndex, this`input
      ensures Valid()
      ensures commandHistory == (if old(input) != "" then [old(input)] + old(commandHistory) else old(commandHistory))
      ensures historyIndex == -1 && input == ""
      ensures closeRequested == Response(listings, old(input), rolls, clock).CloseWindow?
      ensures lines == Apply(old(lines), Response(listings, old(input), rolls, clock))
    {
      var command := input;
      if command != "" {
        commandHistory := [command] + commandHistory;
      }
      historyIndex := -1;
      closeRequested := ExecuteCommand(command, rolls, clock);
      input := "";
    }

    /**
     * One key press in the input field. Enter records a non-empty command as
     * the newest history entry, resets the cursor and runs the command;
     * the arrows move the cursor and show the entry it points at.
     */
    method HandleKeyDown(key: Key, rolls: seq<Roll>, clock: Clock) returns (closeRequested: bool)
      requires Valid() && |rolls| == 4
      modifies this`lines, this`commandHistory, this`historyIndex, this`input
      ensures Valid()
      ensures key != Enter ==> !closeRequested && lines == old(lines)
      ensures key == Enter ==>
        && commandHistory == (if old(input) != "" then [old(input)] + old(commandHistory) else old(commandHistory))
        && historyIndex == -1 && input == ""
        && closeRequested == Response(listings, old(input), rolls, clock).CloseWindow?
        && lines == Apply(old(lines), Response(listings, old(input), rolls, clock))
      ensures key == ArrowUp ==>
        && commandHistory == old(commandHistory)
        && if old(commandHistory) == [] then historyIndex == old(historyIndex) && input == old(input)
           else historyIndex == Older(old(historyIndex), |commandHistory|) && input == commandHistory[historyIndex]
      ensures key == ArrowDown ==>
        && commandHistory == old(commandHistory)
        && historyIndex == Newer(old(historyIndex))
        && input == (if historyIndex == -1 then "" else commandHistory[historyIndex])
      ensures key == OtherKey ==>
        && commandHistory == old(commandHistory)
        && historyIndex == old(historyIndex) && input == old(input)
    {
      closeRequested := false;
      match key {
        case Enter =>
          closeRequested := Submit(rolls, clock);
        case ArrowUp =>
          if |commandHistory| > 0 {
            var newIndex := if historyIndex + 1 < |commandHistory| - 1 then historyIndex + 1 else |commandHistory| - 1;
            historyIndex := newIndex;
            input := commandHistory[newIndex];
          }
        case ArrowDown =>
          if historyIndex > 0 {
            var newIndex := if historyIndex - 1 > 0 then historyIndex - 1 else 0;
            historyIndex := newIndex;
            input := commandHistory[newIndex];
          } else {
            historyIndex := -1;
            input := "";
          }
        case OtherKey =>
      }
    }
  }
}
