/** The hand-off file /tmp/aishell_suggestion: a single slot the background half
    overwrites and the shell's key binding later reads. */
module Handoff {
  import opened Wrappers

  /** A text without its final line terminator, if it has one. */
  function StripLineEnd(s: string): (r: string)
    ensures |s| > 0 && s[|s| - 1] == '\n' ==> s == r + "\n"
    ensures !(|s| > 0 && s[|s| - 1] == '\n') ==> r == s
  {
    if |s| > 0 && s[|s| - 1] == '\n' then s[..|s| - 1] else s
  }

  /** The line written for a command reads back as that command. */
  lemma StripWrittenLine(command: string)
    ensures StripLineEnd(command + "\n") == command
  {
    assert (command + "\n")[..|command|] == command;
  }

  /** The file's contents: nothing when it does not exist. */
  class SuggestionFile {
    var content: Option<string>

    /** The file as found when the program starts. */
    constructor (existing: Option<string>)
      ensures content == existing
    {
      content := existing;
    }

    /** The command the slot offers to the key binding, if any. */
    function Pending(): Option<string>
      reads this
    {
      match content
      case Some(text) => Some(StripLineEnd(text))
      case None => None
    }

    /** `insert_into_history(command)`: create or truncate the file and write
        the command followed by a newline. Whatever the slot held before is
        gone, and the slot offers exactly this command. */
    method InsertIntoHistory(command: string)
      modifies this
      ensures content == Some(command + "\n")
      ensures Pending() == Some(command)
    {
      content := Some(command + "\n");
      StripWrittenLine(command);
    }
  }

  /** Two writes with no read in between leave only the second: the last
      writer wins and the first suggestion is lost. */
  method LastWriterWins(file: SuggestionFile, first: string, second: string)
    modifies file
    ensures file.content == Some(second + "\n")
    ensures file.Pending() == Some(second)
  {
    file.InsertIntoHistory(first);
    file.InsertIntoHistory(second);
  }
}
