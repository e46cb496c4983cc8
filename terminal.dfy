/**
 * The in-room terminal: a fixed table of three text files, five commands
 * over it, and a log of command and output lines that each entered command
 * extends (or, for `clear`, empties).
 */
module Terminal {
  import opened Wrappers
  import opened Strings

  // ------------------------------------------------------------------ files

  datatype File = File(name: string, content: string)

  const Riddle: string :=
    "What has keys but no locks, space but no room, and you can enter but not go in?"

  const Words: string :=
    "apple\nbanana\ncherry\ndate\nelderberry\nfig\ngrape\nhoneydew\nkiwi\nlemon\nmango\nnectarine\n"
    + "orange\npear\nquince\nraspberry\nstrawberry\ntangerine\nugli\nvanilla\nwatermelon\nxigua\nyuzu\nzucchini"

  const Live: string :=
    "01010100 01101000 01101001 01110011 00100000 01101001 01110011 00100000 01101010 01110101 "
    + "01110011 01110100 00100000 01110011 01101111 01101101 01100101 00100000 01110010 01100001 "
    + "01101110 01100100 01101111 01101101 00100000 01101010 01101001 01100010 01100010 01100101 "
    + "01110010 01101001 01110011 01101000 00100000 01110100 01100101 01111000 01110100 00100000 "
    + "00111010 00101001"

  /** The file table, in declaration order (the order `Object.keys` reports). */
  const Files: seq<File> :=
    [File("riddle.txt", Riddle), File("words.txt", Words), File("live.txt", Live)]

  /** The content stored under `name`, if some file of the table has that name. */
  function Lookup(files: seq<File>, name: string): (r: Option<string>)
    ensures r.Some? <==> exists i :: 0 <= i < |files| && files[i].name == name
    ensures r.Some? ==> File(name, r.value) in files
  {
    if files == [] then None
    else if files[0].name == name then Some(files[0].content)
    else
      var r := Lookup(files[1..], name);
      assert forall i :: 1 <= i < |files| ==> files[i] == files[1..][i - 1];
      assert r.Some? ==> exists i :: 0 <= i < |files| && files[i].name == name by {
        if r.Some? {
          var i :| 0 <= i < |files[1..]| && files[1..][i].name == name;
          assert files[i + 1].name == name;
        }
      }
      r
  }

  function Names(files: seq<File>): (r: seq<string>)
    ensures |r| == |files|
    ensures forall i :: 0 <= i < |files| ==> r[i] == files[i].name
  {
    if files == [] then [] else [files[0].name] + Names(files[1..])
  }

  // ------------------------------------------------------------ line numbers

  /** Line `i` (from 0) of a numbered listing: the number `i + 1` right-aligned in two columns, a space, the line. */
  function NumberLine(i: nat, line: string): string {
    PadStart(NatToString(i + 1), 2, ' ') + " " + line
  }

  /** `lines.map((line, i) => ...)` with numbering from `start`. */
  function NumberLines(lines: seq<string>, start: nat): seq<string> {
    seq(|lines|, i requires 0 <= i < |lines| => NumberLine(start + i, lines[i]))
  }

  /**
   * `formatWithLineNumbers`: split on newlines, number each line, join with
   * newlines. Splitting the listing at its newlines again gives back exactly
   * the numbered lines, one per line of the text.
   */
  function FormatWithLineNumbers(text: string): (r: string)
    ensures Split(r, '\n') == NumberLines(Split(text, '\n'), 0)
  {
    var lines := Split(text, '\n');
    NumberedLinesNoNewline(lines, 0);
    SplitJoin(NumberLines(lines, 0), '\n');
    Join(NumberLines(lines, 0), "\n")
  }

  /** A numbered line holds a newline only if the line itself does. */
  lemma NumberLineNoNewline(i: nat, line: string)
    requires '\n' !in line
    ensures '\n' !in NumberLine(i, line)
  {
    var digits := NatToString(i + 1);
    var padded := PadStart(digits, 2, ' ');
    forall k | 0 <= k < |padded|
      ensures padded[k] != '\n'
    {
      if k < |padded| - |digits| {
        assert padded[k] == ' ';
      } else {
        assert padded[k] == padded[|padded| - |digits|..][k - (|padded| - |digits|)];
        assert '0' <= digits[k - (|padded| - |digits|)] <= '9';
      }
    }
    assert NumberLine(i, line) == padded + " " + line;
  }

  /** Numbering newline-free lines adds no newline to any of them. */
  lemma NumberedLinesNoNewline(lines: seq<string>, start: nat)
    requires forall p :: p in lines ==> '\n' !in p
    ensures forall p :: p in NumberLines(lines, start) ==> '\n' !in p
  {
    var numbered := NumberLines(lines, start);
    forall p | p in numbered
      ensures '\n' !in p
    {
      var i :| 0 <= i < |numbered| && numbered[i] == p;
      assert lines[i] in lines;
      NumberLineNoNewline(start + i, lines[i]);
    }
  }

  /**
   * The listing has exactly one line per line of the input, and its line
   * `i` is the input's line `i` behind its number.
   */
  lemma FormatKeepsLines(text: string)
    ensures var lines := Split(text, '\n');
            var listed := Split(FormatWithLineNumbers(text), '\n');
            && |listed| == |lines|
            && forall i :: 0 <= i < |lines| ==> listed[i] == PadStart(NatToString(i + 1), 2, ' ') + " " + lines[i]
  {
    var lines := Split(text, '\n');
    assert Split(FormatWithLineNumbers(text), '\n') == NumberLines(lines, 0);
  }

  // ---------------------------------------------------------------- commands

  datatype Command = Help | Clear | Ls | Cat | Answer

  /** The command table's keys; a lookup of any other name finds nothing. */
  function FindCommand(name: string): (r: Option<Command>)
    ensures r.Some? <==> name in ["help", "clear", "ls", "cat", "answer"]
    ensures r == Some(Help) <==> name == "help"
    ensures r == Some(Clear) <==> name == "clear"
    ensures r == Some(Ls) <==> name == "ls"
    ensures r == Some(Cat) <==> name == "cat"
    ensures r == Some(Answer) <==> name == "answer"
  {
    if name == "help" then Some(Help)
    else if name == "clear" then Some(Clear)
    else if name == "ls" then Some(Ls)
    else if name == "cat" then Some(Cat)
    else if name == "answer" then Some(Answer)
    else None
  }

  const HelpText: string := "Available commands: help, clear, ls, cat <filename>"
  const CatUsage: string := "Usage: cat <filename>"
  const AnswerCorrect: string := "Correct! The answer is indeed a keyboard!"
  const AnswerHint: string := "Try guessing the answer to the riddle. Use: answer <your answer>"

  function NotFound(filename: string): string {
    "cat: " + filename + ": No such file or directory"
  }

  function Unknown(command: string): string {
    "Command not found: " + command + ". Type 'help' for available commands."
  }

  /** `ls`: the file names in table order, two spaces apart. */
  function ListFiles(): (r: string)
    ensures r == "riddle.txt  words.txt  live.txt"
  {
    var names := Names(Files);
    assert names == ["riddle.txt", "words.txt", "live.txt"];
    assert Join(names[2..], "  ") == "live.txt";
    assert Join(names[1..], "  ") == "words.txt" + "  " + "live.txt";
    Join(names, "  ")
  }

  /**
   * `cat`: the usage line without arguments; the not-found line when the
   * first argument names no file (or an empty one, which JavaScript finds
   * falsy); the numbered listing for `words.txt`; the raw text otherwise.
   */
  function CatFile(args: seq<string>): (r: string)
    ensures args == [] ==> r == CatUsage
    ensures args != [] && (forall f :: f in Files ==> f.name != args[0]) ==> r == NotFound(args[0])
    ensures args != [] && args[0] == "words.txt" ==> r == FormatWithLineNumbers(Words)
    ensures args != [] && args[0] == "riddle.txt" ==> r == Riddle
    ensures args != [] && args[0] == "live.txt" ==> r == Live
  {
    if args == [] then CatUsage
    else
      var filename := args[0];
      FileTable();
      match Lookup(Files, filename)
      case None => NotFound(filename)
      case Some(content) =>
        if content == [] then NotFound(filename)
        else if filename == "words.txt" then FormatWithLineNumbers(content)
        else content
  }

  /** `answer`: correct exactly when the first argument lower-cases to "keyboard"; the hint otherwise. */
  function AnswerRiddle(args: seq<string>): (r: string)
    ensures r == AnswerCorrect <==> args != [] && ToLower(args[0]) == "keyboard"
    ensures r != AnswerCorrect ==> r == AnswerHint
  {
    assert |AnswerCorrect| != |AnswerHint|;
    if args != [] && ToLower(args[0]) == "keyboard" then AnswerCorrect else AnswerHint
  }

  function Run(c: Command, args: seq<string>): string {
    match c
    case Help => HelpText
    case Clear => ""
    case Ls => ListFiles()
    case Cat => CatFile(args)
    case Answer => AnswerRiddle(args)
  }

  /** A command line split into its name and its arguments. */
  datatype Tokens = Tokens(command: string, args: seq<string>)

  /** `cmd.trim().split(' ')`: the first part names the command, the rest are its arguments. */
  function Tokenize(cmd: string): (t: Tokens)
    ensures Join([t.command] + t.args, " ") == Trim(cmd)
    ensures ' ' !in t.command && forall a :: a in t.args ==> ' ' !in a
  {
    var parts := Split(Trim(cmd), ' ');
    assert [parts[0]] + parts[1..] == parts;
    assert parts[0] in parts;
    Tokens(parts[0], parts[1..])
  }

  /** Tokenising undoes joining words with single spaces, when the words have no spaces and the result needs no trimming. */
  lemma TokenizeJoin(words: seq<string>)
    requires |words| >= 1
    requires forall w :: w in words ==> ' ' !in w
    requires Trim(Join(words, " ")) == Join(words, " ")
    ensures Tokenize(Join(words, " ")) == Tokens(words[0], words[1..])
  {
    SplitJoin(words, ' ');
  }

  /**
   * The response to a non-`clear` command line: the table's command for the
   * lower-cased name, or the not-found line naming the command as typed.
   */
  function Respond(t: Tokens): (r: string)
    ensures ToLower(t.command) !in ["help", "clear", "ls", "cat", "answer"] ==> r == Unknown(t.command)
    ensures ToLower(t.command) == "help" ==> r == HelpText
    ensures ToLower(t.command) == "ls" ==> r == ListFiles()
    ensures ToLower(t.command) == "cat" ==> r == CatFile(t.args)
    ensures ToLower(t.command) == "answer" ==> r == AnswerRiddle(t.args)
  {
    match FindCommand(ToLower(t.command))
    case Some(c) => Run(c, t.args)
    case None => Unknown(t.command)
  }

  // -------------------------------------------------------------------- log

  datatype LineKind = CommandLine | OutputLine

  datatype Line = Line(text: string, kind: LineKind)

  const Greeting: Line := Line("Terminal initialized. Type 'help' for available commands.", OutputLine)

  /** The command name, lower-cased, is `clear`. */
  predicate IsClear(cmd: string) {
    ToLower(Tokenize(cmd).command) == "clear"
  }

  /**
   * The log after `cmd` is executed: `clear` empties it; anything else keeps
   * every earlier entry and adds exactly the echo and the response.
   */
  function AfterCommand(log: seq<Line>, cmd: string): (r: seq<Line>)
    ensures IsClear(cmd) ==> r == []
    ensures !IsClear(cmd) ==>
              && |r| == |log| + 2
              && r[..|log|] == log
              && r[|log|] == Line("$ " + cmd, CommandLine)
              && r[|log| + 1] == Line(Respond(Tokenize(cmd)), OutputLine)
  {
    if IsClear(cmd) then []
    else
      var r := log + [Line("$ " + cmd, CommandLine), Line(Respond(Tokenize(cmd)), OutputLine)];
      assert r[..|log|] == log;
      r
  }

  class TerminalState {
    var input: string
    var output: seq<Line>

    constructor ()
      ensures input == [] && output == [Greeting]
    {
      input, output := [], [Greeting];
    }

    /** `executeCommand`. */
    method ExecuteCommand(cmd: string)
      modifies this`output
      ensures output == AfterCommand(old(output), cmd)
    {
      var t := Tokenize(cmd);
      var cmdLower := ToLower(t.command);
      if cmdLower == "clear" {
        output := [];
        return;
      }
      var response;
      match FindCommand(cmdLower) {
        case Some(c) => response := Run(c, t.args);
        case None => response := Unknown(t.command);
      }
      output := output + [Line("$ " + cmd, CommandLine), Line(response, OutputLine)];
    }

    /** `handleKeyDown`: Enter runs a line that is not blank and clears the input; anything else does nothing. */
    method HandleKeyDown(key: string)
      modifies this
      ensures key == "Enter" && Trim(old(input)) != [] ==>
                input == [] && output == AfterCommand(old(output), old(input))
      ensures key != "Enter" || Trim(old(input)) == [] ==>
                input == old(input) && output == old(output)
    {
      if key == "Enter" {
        if Trim(input) != [] {
          ExecuteCommand(input);
          input := [];
        }
      }
    }

    /** The input field's `onChange`. */
    method HandleChange(value: string)
      modifies this`input
      ensures input == value
    {
      input := value;
    }
  }

  // ------------------------------------------------------------- properties

  /** Where each name of the table leads `cat`. */
  lemma FileTable()
    ensures Lookup(Files, "riddle.txt") == Some(Riddle)
    ensures Lookup(Files, "words.txt") == Some(Words)
    ensures Lookup(Files, "live.txt") == Some(Live)
    ensures Riddle != [] && Words != [] && Live != []
  {
    assert Files[1..] == [File("words.txt", Words), File("live.txt", Live)];
    assert Files[1..][1..] == [File("live.txt", Live)];
    assert Lookup([File("live.txt", Live)], "live.txt") == Some(Live);
    assert Lookup(Files[1..], "live.txt") == Some(Live);
    assert |Riddle| > 0 && |Words| > 0 && |Live| > 0;
  }

  /** The words `cat`, `` and `riddle.txt` joined by single spaces, which needs no trimming. */
  lemma DoubledSpaceLine()
    ensures Join(["cat", "", "riddle.txt"], " ") == "cat  riddle.txt"
    ensures Trim("cat  riddle.txt") == "cat  riddle.txt"
  {
    var line := "cat  riddle.txt";
    assert Join(["riddle.txt"], " ") == "riddle.txt";
    assert Join(["", "riddle.txt"], " ") == " riddle.txt";
    assert LeadingSpaces(line) == 0;
    assert TrailingSpaces(line) == 0;
  }

  /** Doubled spaces split into an empty argument: `cat  riddle.txt` asks `cat` for the file named "". */
  lemma DoubledSpaceGivesEmptyArgument()
    ensures Tokenize("cat  riddle.txt") == Tokens("cat", ["", "riddle.txt"])
  {
    DoubledSpaceLine();
    TokenizeJoin(["cat", "", "riddle.txt"]);
  }

  /** So that line answers with the not-found message for the empty name. */
  lemma EmptyArgumentNotFound()
    ensures Respond(Tokens("cat", ["", "riddle.txt"])) == NotFound("")
  {
    assert ToLower("cat") == "cat";
    assert ["", "riddle.txt"][0] == "";
  }
}
