/**
 * The non-widget logic of AIkoStreamingGUI.py: the command-line
 * interpreter that splits an input line at its first whitespace run and
 * dispatches through a command dictionary, the slot-to-text helper used to
 * display message windows, and the toggle state of an image button.
 *
 * Handlers are opaque Python callables; a handler is described here only
 * by which call shapes it accepts, since calling it with the wrong number
 * of arguments is what raises TypeError.
 */
module StreamingGUI {
  import opened Wrappers
  import opened Text
  import opened LimitedList
  import Aiko

  // ------------------------------------------------------------------------
  // Splitting an input line
  // ------------------------------------------------------------------------

  /** The length of the leading run of non-whitespace characters. */
  function WordLength(s: string): (n: nat)
    ensures n <= |s|
    ensures forall i :: 0 <= i < n ==> !IsSpace(s[i])
    ensures n == |s| || IsSpace(s[n])
  {
    if s == [] || IsSpace(s[0]) then 0 else 1 + WordLength(s[1..])
  }

  /**
   * Python's `s.split(maxsplit=1)`: leading whitespace is skipped, the first
   * word is cut at the next whitespace run, and the rest (if any) starts at
   * the next non-whitespace character and keeps its trailing whitespace.
   */
  function SplitOnce(s: string): (parts: seq<string>)
    ensures |parts| <= 2
  {
    var t := TrimStart(s);
    if t == [] then []
    else
      var n := WordLength(t);
      var rest := TrimStart(t[n..]);
      if rest == [] then [t[..n]] else [t[..n], rest]
  }

  /**
   * The split finds nothing exactly on blank input; otherwise the command
   * is a non-empty word with no whitespace, and an argument, when there is
   * one, is non-empty and starts with a non-whitespace character.
   */
  lemma SplitOnceShape(s: string)
    ensures SplitOnce(s) == [] <==> forall i :: 0 <= i < |s| ==> IsSpace(s[i])
    ensures |SplitOnce(s)| >= 1 ==>
              SplitOnce(s)[0] != [] && forall i :: 0 <= i < |SplitOnce(s)[0]| ==> !IsSpace(SplitOnce(s)[0][i])
    ensures |SplitOnce(s)| == 2 ==> SplitOnce(s)[1] != [] && !IsSpace(SplitOnce(s)[1][0])
  {
    var t := TrimStart(s);
    if t == [] {
      assert SplitOnce(s) == [];
    } else {
      assert !IsSpace(s[|s| - |t|]);
      var n := WordLength(t);
      assert n >= 1;
      var word := t[..n];
      forall i | 0 <= i < |word| ensures !IsSpace(word[i]) {
        assert word[i] == t[i];
      }
      var rest := TrimStart(t[n..]);
      assert SplitOnce(s) == if rest == [] then [word] else [word, rest];
    }
  }

  /** A command word, a space and an argument that starts with a non-space split back into the two. */
  lemma SplitOnceRoundTrip(command: string, argument: string)
    requires command != [] && forall i :: 0 <= i < |command| ==> !IsSpace(command[i])
    requires argument != [] && !IsSpace(argument[0])
    ensures SplitOnce(command + " " + argument) == [command, argument]
  {
    var s := command + " " + argument;
    assert s[0] == command[0];
    assert TrimStart(s) == s;
    assert s == command + (" " + argument);
    WordLengthOfWord(command, " " + argument);
    var n := |command|;
    var tail := s[n..];
    assert tail == " " + argument;
    assert TrimStart(tail) == argument by {
      assert tail[1..] == argument;
      assert TrimStart(argument) == argument;
    }
    assert s[..n] == command;
    assert SplitOnce(s) == [s[..n], TrimStart(tail)];
  }

  /** A lone command word splits into itself. */
  lemma SplitOnceBareCommand(command: string)
    requires command != [] && forall i :: 0 <= i < |command| ==> !IsSpace(command[i])
    ensures SplitOnce(command) == [command]
  {
    assert TrimStart(command) == command;
    WordLengthOfWord(command, "");
    assert command + "" == command;
    assert command[|command|..] == [];
  }

  lemma {:induction false} WordLengthOfWord(word: string, tail: string)
    requires forall i :: 0 <= i < |word| ==> !IsSpace(word[i])
    requires tail == [] || IsSpace(tail[0])
    ensures WordLength(word + tail) == |word|
    decreases |word|
  {
    if word != [] {
      assert (word + tail)[1..] == word[1..] + tail;
      WordLengthOfWord(word[1..], tail);
    } else {
      assert word + tail == tail;
    }
  }

  // ------------------------------------------------------------------------
  // Dispatch
  // ------------------------------------------------------------------------

  /** A registered callable, described by the call shapes it accepts. */
  datatype Handler = Handler(name: string, acceptsNoArgument: bool, acceptsOneArgument: bool)

  /** The call `input` made, if any. */
  datatype Call = Call(handler: Handler, argument: Option<string>)

  /** The handler call made (if any) and what `input` returned or raised. */
  datatype InputResult = InputResult(call: Option<Call>, result: Result<bool, PyException>)

  /**
   * `CommandLine.input` over a command dictionary: blank input raises
   * IndexError; a known command with an argument is called with it, and a
   * TypeError from that call is caught and gives False; a known command
   * without an argument is called with none, and a TypeError there is not
   * caught; an unknown command returns False.
   */
  function Dispatch(commands: map<string, Handler>, line: string): InputResult
  {
    DispatchWords(commands, SplitOnce(line))
  }

  /** The dispatch decision on the words of the line. */
  function DispatchWords(commands: map<string, Handler>, parts: seq<string>): InputResult
  {
    if parts == [] then InputResult(None, Failure(IndexError))
    else if |parts| > 1 then
      if parts[0] in commands then
        var h := commands[parts[0]];
        InputResult(Some(Call(h, Some(parts[1]))), Success(h.acceptsOneArgument))
      else InputResult(None, Success(false))
    else if parts[0] in commands then
      var h := commands[parts[0]];
      InputResult(Some(Call(h, None)), if h.acceptsNoArgument then Success(true) else Failure(TypeError))
    else InputResult(None, Success(false))
  }

  /**
   * True comes back exactly when a registered handler was called in the
   * shape it accepts; an unknown command returns False and calls nothing.
   */
  lemma DispatchReturnsTrueExactly(commands: map<string, Handler>, line: string)
    ensures var r := Dispatch(commands, line);
            r.result == Success(true) <==>
              r.call.Some?
              && (if r.call.value.argument.Some? then r.call.value.handler.acceptsOneArgument
                  else r.call.value.handler.acceptsNoArgument)
    ensures var parts := SplitOnce(line);
            parts != [] && parts[0] !in commands ==> Dispatch(commands, line) == InputResult(None, Success(false))
    ensures Dispatch(commands, line).call.Some? ==> Dispatch(commands, line).call.value.handler in commands.Values
  {
  }

  /** "command argument" calls that command's handler with exactly that argument. */
  lemma DispatchPassesArgument(commands: map<string, Handler>, command: string, argument: string)
    requires command in commands
    requires command != [] && forall i :: 0 <= i < |command| ==> !IsSpace(command[i])
    requires argument != [] && !IsSpace(argument[0])
    ensures Dispatch(commands, command + " " + argument).call == Some(Call(commands[command], Some(argument)))
  {
    SplitOnceRoundTrip(command, argument);
  }

  /** Blank input is not handled: it raises IndexError rather than returning False. */
  lemma BlankInputRaises(commands: map<string, Handler>, line: string)
    requires forall i :: 0 <= i < |line| ==> IsSpace(line[i])
    ensures Dispatch(commands, line) == InputResult(None, Failure(IndexError))
  {
    SplitOnceShape(line);
  }

  /** `CommandLine`: the interpreter with its mutable command dictionary. */
  class CommandLine {
    var commands: map<string, Handler>

    constructor (commands: map<string, Handler>)
      ensures this.commands == commands
    {
      this.commands := commands;
    }

    /** Inserts the mapping, replacing any handler already registered under that name. */
    method AddCommand(command: string, handler: Handler)
      modifies this
      ensures commands == old(commands)[command := handler]
    {
      commands := commands[command := handler];
    }

    /** `input`: dispatches one line; the dictionary is not changed. */
    method Input(line: string) returns (r: InputResult)
      ensures r == Dispatch(commands, line)
    {
      var parts := SplitOnce(line);
      r := DispatchWords(commands, parts);
    }
  }

  /**
   * Registering a command makes the next line naming it reach the new
   * handler, even when the name was taken before.
   */
  method RegisteredCommandIsCalled(name: string, handler: Handler, argument: string, previous: Handler)
    returns (replaced: InputResult, bare: InputResult)
    requires name != [] && forall i :: 0 <= i < |name| ==> !IsSpace(name[i])
    requires argument != [] && !IsSpace(argument[0])
    requires handler.acceptsOneArgument && !handler.acceptsNoArgument
    ensures replaced == InputResult(Some(Call(handler, Some(argument))), Success(true))
    ensures bare == InputResult(Some(Call(handler, None)), Failure(TypeError))
  {
    var cl := new CommandLine(map[name := previous]);
    cl.AddCommand(name, handler);
    SplitOnceRoundTrip(name, argument);
    SplitOnceBareCommand(name);
    replaced := cl.Input(name + " " + argument);
    bare := cl.Input(name);
  }

  // ------------------------------------------------------------------------
  // Window display and the image button
  // ------------------------------------------------------------------------

  /** `return_message_content`: a blank slot shows as "", a message as its content. */
  function ReturnMessageContent(item: Aiko.Slot): (text: string)
    ensures item.Turn? ==> text == item.content
    ensures item.Blank? ==> text == ""
  {
    match item
    case Blank => ""
    case Turn(_, content) => content
  }

  /** After a message is added to a window, the window's last line shows its text. */
  lemma NewestLineShowsAddedText(slots: seq<Aiko.Slot>, role: string, text: string)
    requires |slots| > 0
    ensures var after := ShiftIn(slots, Aiko.Turn(role, text));
            ReturnMessageContent(after[|after| - 1]) == text
            && forall i :: 0 <= i < |slots| - 1 ==> ReturnMessageContent(after[i]) == ReturnMessageContent(slots[i + 1])
  {
  }

  datatype ButtonImage = OnImage | OffImage

  /** `ImageButton`: a two-image toggle that ignores clicks while disabled. */
  class ImageButton {
    var toggleState: int
    var image: ButtonImage
    var disabled: bool

    /** The toggle state is 1 or -1 and the on image shows exactly at -1. */
    ghost predicate Valid()
      reads this
    {
      (toggleState == 1 || toggleState == -1) && (image == OnImage <==> toggleState == -1)
    }

    constructor (disabled: bool)
      ensures Valid() && toggleState == 1 && image == OffImage && this.disabled == disabled
    {
      toggleState := 1;
      image := OffImage;
      this.disabled := disabled;
    }

    method ClickFunction()
      requires Valid()
      modifies this
      ensures Valid() && disabled == old(disabled)
      ensures disabled ==> toggleState == old(toggleState) && image == old(image)
      ensures !disabled ==> toggleState == -old(toggleState)
    {
      if !disabled {
        toggleState := toggleState * -1;
        if toggleState == -1 {
          image := OnImage;
        } else {
          image := OffImage;
        }
      }
    }
  }

  /** Two clicks on an enabled button show the on image and then the off image again. */
  method TwoClicks() returns (first: ButtonImage, second: ButtonImage, ignored: ButtonImage)
    ensures first == OnImage && second == OffImage && ignored == OffImage
  {
    var button := new ImageButton(false);
    button.ClickFunction();
    first := button.image;
    button.ClickFunction();
    second := button.image;
    var off := new ImageButton(true);
    off.ClickFunction();
    ignored := off.image;
  }
}
