/** Command-line dispatch of `main` and the preparation of the error text:
    joining the trailing arguments and turning escaped newlines into real ones. */
module Cli {

  const UsageText := "Usage: aishell <failed_command> <error_output>"
  const InitUsageText := "Usage: aishell init <shell>"

  /** What `main` does with its arguments (the program name already dropped). */
  datatype Mode =
    | ShowUsage                                  // no argument at all
    | ShowInitUsage                              // "init" without a dialect
    | Init(shell: string)                        // "init <shell>"
    | Suggest(command: string, errorText: string) // a failed command and its error text

  /** `args[1..].join(" ")` */
  function Join(parts: seq<string>): string
  {
    if |parts| == 0 then ""
    else if |parts| == 1 then parts[0]
    else parts[0] + " " + Join(parts[1..])
  }

  /** Splitting at every space, empty pieces kept: the inverse of `Join` on
      pieces without spaces. */
  function Split(s: string): (r: seq<string>)
    ensures |r| >= 1
  {
    if s == [] then [""]
    else
      var rest := Split(s[1..]);
      if s[0] == ' ' then [""] + rest else [[s[0]] + rest[0]] + rest[1..]
  }

  predicate NoSpaces(parts: seq<string>)
  {
    forall i :: 0 <= i < |parts| ==> ' ' !in parts[i]
  }

  /** How the arguments select a mode: no argument gives the usage text, "init"
      alone the init usage text, "init" with a dialect the hook; anything else
      is a failed command whose error text is the rest joined by single spaces
      (empty when there is no rest). */
  function Dispatch(args: seq<string>): (m: Mode)
    ensures m == ShowUsage <==> args == []
    ensures m == ShowInitUsage <==> args == ["init"]
    ensures m.Init? <==> |args| >= 2 && args[0] == "init"
    ensures m.Init? ==> m.shell == args[1]
    ensures m.Suggest? <==> |args| >= 1 && args[0] != "init"
    ensures m.Suggest? ==> m.command == args[0] && m.errorText == Join(args[1..])
    ensures m.Suggest? && |args| == 1 ==> m.errorText == ""
  {
    if |args| == 0 then ShowUsage
    else if args[0] == "init" then
      if |args| < 2 then ShowInitUsage else Init(args[1])
    else Suggest(args[0], Join(args[1..]))
  }

  /** Splitting a space-free word followed by more text: the word opens the
      first piece. */
  lemma {:induction false} SplitAfterWord(w: string, t: string)
    requires ' ' !in w
    ensures Split(w + t) == [w + Split(t)[0]] + Split(t)[1..]
  {
    if w == [] {
      assert w + t == t;
      var pieces := Split(t);
      assert w + pieces[0] == pieces[0];
      assert [pieces[0]] + pieces[1..] == pieces;
    } else {
      assert (w + t)[1..] == w[1..] + t;
      SplitAfterWord(w[1..], t);
      assert [w[0]] + (w[1..] + Split(t)[0]) == w + Split(t)[0];
    }
  }

  /** Joining arguments without spaces and splitting the result at spaces gives
      the arguments back: the join separates them by exactly one space. */
  lemma {:induction false} SplitJoin(parts: seq<string>)
    requires |parts| >= 1 && NoSpaces(parts)
    ensures Split(Join(parts)) == parts
  {
    if |parts| == 1 {
      SplitAfterWord(parts[0], "");
      assert parts[0] + "" == parts[0];
    } else {
      var rest := Join(parts[1..]);
      SplitJoin(parts[1..]);
      assert Split(" " + rest) == [""] + Split(rest) by {
        assert (" " + rest)[1..] == rest;
      }
      assert parts[0] + " " + rest == parts[0] + (" " + rest);
      SplitAfterWord(parts[0], " " + rest);
      assert parts[0] + "" == parts[0];
      assert [parts[0]] + parts[1..] == parts;
    }
  }

  /** The failed command is the first argument, spaces and all, and, when the
      remaining arguments hold no spaces, splitting the error text at spaces
      gives them back. */
  lemma FailedCommandArguments(args: seq<string>)
    requires |args| >= 2 && args[0] != "init" && NoSpaces(args[1..])
    ensures Dispatch(args).Suggest? && Dispatch(args).command == args[0]
    ensures Split(Dispatch(args).errorText) == args[1..]
  {
    SplitJoin(args[1..]);
  }

  /** True when a backslash is immediately followed by the letter n somewhere in s. */
  predicate HasEscapedNewline(s: string)
  {
    exists i :: 0 <= i < |s| - 1 && s[i] == '\\' && s[i + 1] == 'n'
  }

  /** `s.replace("\\n", "\n")`: each backslash-n pair, scanning left to right,
      becomes a newline. The result holds no such pair any more, and text
      without one is left as it is. */
  function Unescape(s: string): (r: string)
    ensures !HasEscapedNewline(r)
    ensures !HasEscapedNewline(s) ==> r == s
    ensures |r| <= |s|
    ensures |s| > 0 ==> |r| > 0 && (r[0] == s[0] || r[0] == '\n')
  {
    if |s| < 2 then s
    else if s[0] == '\\' && s[1] == 'n' then
      var t := Unescape(s[2..]);
      NoEscapedNewlineCons('\n', t);
      "\n" + t
    else
      var t := Unescape(s[1..]);
      NoEscapedNewlineCons(s[0], t);
      EscapedNewlineInTail(s);
      [s[0]] + t
  }

  /** A backslash-n pair in the tail of a text is one of the text. */
  lemma EscapedNewlineInTail(s: string)
    requires |s| > 0
    ensures HasEscapedNewline(s[1..]) ==> HasEscapedNewline(s)
  {
    if HasEscapedNewline(s[1..]) {
      var i :| 0 <= i < |s[1..]| - 1 && s[1..][i] == '\\' && s[1..][i + 1] == 'n';
      assert s[i + 1] == '\\' && s[i + 2] == 'n';
    }
  }

  /** Putting a character in front of text without a backslash-n pair makes one
      only when that character is a backslash and the text starts with n. */
  lemma NoEscapedNewlineCons(c: char, t: string)
    requires !HasEscapedNewline(t)
    requires c == '\\' ==> t == [] || t[0] != 'n'
    ensures !HasEscapedNewline([c] + t)
  {
    var s := [c] + t;
    forall i | 0 <= i < |s| - 1
      ensures !(s[i] == '\\' && s[i + 1] == 'n')
    {
      if i > 0 {
        assert s[i] == t[i - 1] && s[i + 1] == t[i];
      }
    }
  }

  /** The escaping a shell would apply: each newline written as backslash-n. */
  function Escape(t: string): string
  {
    if t == [] then []
    else (if t[0] == '\n' then "\\n" else [t[0]]) + Escape(t[1..])
  }

  /** An escaped text starts with n only when the original did. */
  lemma EscapeStart(t: string)
    requires Escape(t) != []
    ensures Escape(t)[0] == 'n' ==> t != [] && t[0] == 'n'
  {
  }

  /** Printing restores escaped newlines: a text that had its newlines escaped
      is printed as it was, provided it held no literal backslash-n itself. */
  lemma {:induction false} UnescapeEscape(t: string)
    requires !HasEscapedNewline(t)
    ensures Unescape(Escape(t)) == t
  {
    if t != [] {
      var t' := t[1..];
      EscapedNewlineInTail(t);
      UnescapeEscape(t');
      var e := Escape(t);
      if t[0] == '\n' {
        assert e == "\\n" + Escape(t');
        assert e[2..] == Escape(t');
      } else {
        assert e == [t[0]] + Escape(t');
        assert e[1..] == Escape(t');
        if Escape(t') != [] {
          EscapeStart(t');
          assert t[0] == '\\' ==> t'[0] != 'n';
        }
      }
    }
  }
}
