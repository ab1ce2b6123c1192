/** What the background half writes to the terminal once the suggestion is
    known: save the cursor, go up two lines and clear that line, write the
    result line, restore the cursor. Output is a sequence of tokens; `Encode`
    gives the bytes each token stands for. */
module Render {
  import opened Wrappers

  const Robot := "\U{1F916}"
  const NoSuggestion := Robot + " No suggestion available.\n"
  const KeyHint := "(Ctrl+T)"

  /** A terminal control sequence or a piece of text. */
  datatype Token =
    | SaveCursor     // ESC [ s
    | PrevLine       // ESC [ F : to the start of the line above
    | ClearLine      // ESC [ 2K
    | RestoreCursor  // ESC [ u
    | Green          // ESC [ 32m
    | ResetStyle     // ESC [ 0m
    | Text(s: string)

  /** The bytes a token is written as. */
  function Ansi(t: Token): string
  {
    match t
    case SaveCursor => "\U{1B}[s"
    case PrevLine => "\U{1B}[F"
    case ClearLine => "\U{1B}[2K"
    case RestoreCursor => "\U{1B}[u"
    case Green => "\U{1B}[32m"
    case ResetStyle => "\U{1B}[0m"
    case Text(s) => s
  }

  /** The bytes a token sequence is written as. */
  function Encode(ts: seq<Token>): string
  {
    if ts == [] then "" else Ansi(ts[0]) + Encode(ts[1..])
  }

  /** Writing two token sequences one after the other writes their bytes one
      after the other. */
  lemma {:induction false} EncodeAppend(a: seq<Token>, b: seq<Token>)
    ensures Encode(a + b) == Encode(a) + Encode(b)
  {
    if a == [] {
      assert a + b == b;
    } else {
      assert (a + b)[1..] == a[1..] + b;
      EncodeAppend(a[1..], b);
    }
  }

  /** The text a token sequence puts on the screen, control sequences left out. */
  function Displayed(ts: seq<Token>): string
  {
    if ts == [] then "" else (if ts[0].Text? then ts[0].s else "") + Displayed(ts[1..])
  }

  lemma {:induction false} DisplayedAppend(a: seq<Token>, b: seq<Token>)
    ensures Displayed(a + b) == Displayed(a) + Displayed(b)
  {
    if a == [] {
      assert a + b == b;
    } else {
      assert (a + b)[1..] == a[1..] + b;
      DisplayedAppend(a[1..], b);
    }
  }

  /** The result line: the command with the key hint in green, or the
      no-suggestion line. */
  function ResultLine(fix: Option<string>): seq<Token>
  {
    match fix
    case Some(f) => [Text(Robot + " " + f + " "), Green, Text(KeyHint), ResetStyle]
    case None => [Text(NoSuggestion)]
  }

  /** The whole rewrite of the placeholder line. */
  function Notification(fix: Option<string>): seq<Token>
  {
    [SaveCursor] + [PrevLine, PrevLine, ClearLine] + ResultLine(fix) + [RestoreCursor]
  }

  /** True when the first token saves the cursor, the last restores it, and no
      token in between saves or restores it. */
  predicate CursorBracketed(ts: seq<Token>)
  {
    && |ts| >= 2
    && ts[0] == SaveCursor
    && ts[|ts| - 1] == RestoreCursor
    && forall i :: 0 < i < |ts| - 1 ==> ts[i] != SaveCursor && ts[i] != RestoreCursor
  }

  /** Whatever the outcome, the rewrite is bracketed by one save and one
      restore, and clears the line two above before writing. */
  lemma NotificationShape(fix: Option<string>)
    ensures CursorBracketed(Notification(fix))
    ensures Notification(fix)[1..4] == [PrevLine, PrevLine, ClearLine]
  {
  }

  lemma EncodeOne(t: Token)
    ensures Encode([t]) == Ansi(t)
  {
    assert [t][1..] == [];
  }

  lemma DisplayedOne(t: Token)
    ensures Displayed([t]) == if t.Text? then t.s else ""
  {
    assert [t][1..] == [];
  }

  /** The bytes and the screen text of four tokens written one after another. */
  lemma FourTokens(a: Token, b: Token, c: Token, d: Token)
    ensures Encode([a, b, c, d]) == Ansi(a) + Ansi(b) + Ansi(c) + Ansi(d)
    ensures Displayed([a, b, c, d]) == Displayed([a]) + Displayed([b]) + Displayed([c]) + Displayed([d])
  {
    assert [a, b, c, d] == [a] + [b] + [c] + [d];
    EncodeAppend([a] + [b] + [c], [d]);
    EncodeAppend([a] + [b], [c]);
    EncodeAppend([a], [b]);
    EncodeOne(a); EncodeOne(b); EncodeOne(c); EncodeOne(d);
    DisplayedAppend([a] + [b] + [c], [d]);
    DisplayedAppend([a] + [b], [c]);
    DisplayedAppend([a], [b]);
  }

  /** On screen, a suggestion shows as the robot, the command and the key hint;
      its absence as the no-suggestion line. */
  lemma {:induction false} DisplayedNotification(fix: Option<string>)
    ensures Displayed(Notification(fix)) ==
              match fix
              case Some(f) => Robot + " " + f + " " + KeyHint
              case None => NoSuggestion
  {
    var head := [SaveCursor] + [PrevLine, PrevLine, ClearLine];
    DisplayedAppend(head + ResultLine(fix), [RestoreCursor]);
    DisplayedAppend(head, ResultLine(fix));
    FourTokens(SaveCursor, PrevLine, PrevLine, ClearLine);
    assert head == [SaveCursor, PrevLine, PrevLine, ClearLine];
    DisplayedOne(SaveCursor); DisplayedOne(PrevLine); DisplayedOne(ClearLine);
    DisplayedOne(RestoreCursor);
    match fix
    case Some(f) =>
      var line := ResultLine(fix);
      FourTokens(line[0], line[1], line[2], line[3]);
      assert line == [line[0], line[1], line[2], line[3]];
      DisplayedOne(line[0]); DisplayedOne(line[1]); DisplayedOne(line[2]); DisplayedOne(line[3]);
    case None =>
      DisplayedOne(Text(NoSuggestion));
  }

  /** The bytes of the fixed part: save the cursor, up twice, clear the line. */
  lemma EncodedHead()
    ensures Encode([SaveCursor] + [PrevLine, PrevLine, ClearLine]) == "\U{1B}[s" + "\U{1B}[F\U{1B}[F\U{1B}[2K"
  {
    FourTokens(SaveCursor, PrevLine, PrevLine, ClearLine);
    assert [SaveCursor] + [PrevLine, PrevLine, ClearLine] == [SaveCursor, PrevLine, PrevLine, ClearLine];
  }

  /** The bytes written for a suggestion are the ones the program prints:
      "\x1B[s", "\x1B[F\x1B[F\x1B[2K", the robot, the command and the green
      hint, then "\x1B[u". */
  lemma {:induction false} EncodedSuggestion(f: string)
    ensures Encode(Notification(Some(f))) ==
              "\U{1B}[s" + "\U{1B}[F\U{1B}[F\U{1B}[2K"
              + (Robot + " " + f + " \U{1B}[32m(Ctrl+T)\U{1B}[0m")
              + "\U{1B}[u"
  {
    var head := [SaveCursor] + [PrevLine, PrevLine, ClearLine];
    var line := ResultLine(Some(f));
    EncodeAppend(head + line, [RestoreCursor]);
    EncodeAppend(head, line);
    EncodedHead();
    EncodeOne(RestoreCursor);
    FourTokens(line[0], line[1], line[2], line[3]);
    assert line == [line[0], line[1], line[2], line[3]];
    assert Encode(line) == Robot + " " + f + " \U{1B}[32m(Ctrl+T)\U{1B}[0m";
  }

  /** Without a suggestion the bytes are "\x1B[s", "\x1B[F\x1B[F\x1B[2K", the
      no-suggestion line and "\x1B[u". */
  lemma {:induction false} EncodedNoSuggestion()
    ensures Encode(Notification(None)) ==
              "\U{1B}[s" + "\U{1B}[F\U{1B}[F\U{1B}[2K"
              + (Robot + " No suggestion available.\n")
              + "\U{1B}[u"
  {
    var head := [SaveCursor] + [PrevLine, PrevLine, ClearLine];
    EncodeAppend(head + ResultLine(None), [RestoreCursor]);
    EncodeAppend(head, ResultLine(None));
    EncodedHead();
    EncodeOne(RestoreCursor);
    EncodeOne(Text(NoSuggestion));
  }
}
