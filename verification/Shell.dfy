/** Cutting a shell script into the commands it chains. */
module Shell {
  import opened Texts

  const NO_QUOTE: char := 0 as char

  /** The scanner's place: the open quote and whether the next character is escaped. */
  datatype Mode = Mode(quote: char, escaped: bool)
  const OUTSIDE := Mode(NO_QUOTE, false)

  /** Width of the command separator that starts `s`; 0 when none does. */
  function SeparatorWidth(s: string): (w: nat)
    requires s != ""
    ensures w <= |s|
  {
    if s[0] == '\n' || s[0] == ';' then 1
    else if s[0] == '|' then if |s| > 1 && s[1] == '|' then 2 else 1
    else if s[0] == '&' && |s| > 1 && s[1] == '&' then 2
    else 0
  }

  function After(m: Mode, c: char): Mode {
    if m.escaped then Mode(m.quote, false)
    else if c == '\\' && m.quote != '\'' then Mode(m.quote, true)
    else if m.quote != NO_QUOTE then Mode(if c == m.quote then NO_QUOTE else m.quote, false)
    else if c == '\'' || c == '"' then Mode(c, false)
    else OUTSIDE
  }

  /** At a place outside quotes and escapes, where separators count. */
  predicate Looks(m: Mode, c: char) {
    m == OUTSIDE && c != '\\' && c != '\'' && c != '"'
  }

  function Piece(s: string): seq<string> {
    if TrimSpace(s) == "" then [] else [TrimSpace(s)]
  }

  /** The commands of `current + rest`, the scanner standing between the two. */
  function Commands(current: string, rest: string, m: Mode): seq<string>
    decreases |rest|
  {
    if rest == "" then Piece(current)
    else if Looks(m, rest[0]) && SeparatorWidth(rest) > 0 then
      Piece(current) + Commands("", rest[SeparatorWidth(rest)..], OUTSIDE)
    else Commands(current + [rest[0]], rest[1..], After(m, rest[0]))
  }

  /** `splitCompoundCommand` */
  method SplitCompoundCommand(script: string) returns (subs: seq<string>)
    ensures subs == Commands("", script, OUTSIDE)
  {
    hide TrimSpace, SeparatorWidth;
    subs := [];
    var start, i := 0, 0;
    var quote := NO_QUOTE;
    var escaped := false;
    while i < |script|
      invariant start <= i <= |script|
      invariant Commands("", script, OUTSIDE) == subs + Commands(script[start..i], script[i..], Mode(quote, escaped))
      decreases |script| - i
    {
      var r := script[i];
      assert script[i..][0] == r && script[i..][1..] == script[i + 1..];
      assert script[start..i] + [r] == script[start..i + 1];
      if escaped {
        escaped := false;
      } else if r == '\\' && quote != '\'' {
        escaped := true;
      } else if quote != NO_QUOTE {
        if r == quote { quote := NO_QUOTE; }
      } else if r == '\'' || r == '"' {
        quote := r;
      } else {
        var width := SeparatorWidth(script[i..]);
        if width > 0 {
          if TrimSpace(script[start..i]) != "" { subs := subs + [TrimSpace(script[start..i])]; }
          assert script[i..][width..] == script[i + width..];
          start := i + width;
          i := start;
          assert script[start..i] == "";
          continue;
        }
      }
      i := i + 1;
    }
    assert script[start..i] == script[start..] && script[i..] == "";
    if TrimSpace(script[start..]) != "" { subs := subs + [TrimSpace(script[start..])]; }
  }

  // ----- splitting undoes joining -----

  datatype Separator = Newline | Semicolon | And | Or | Pipe

  function Text(s: Separator): string {
    match s
    case Newline => "\n"
    case Semicolon => ";"
    case And => " && "
    case Or => " || "
    case Pipe => " | "
  }

  /** No separator counts within `s` when the scanner enters it in mode `m`. */
  predicate Whole(s: string, m: Mode) {
    s == "" || (!(Looks(m, s[0]) && SeparatorWidth(s) > 0) && Whole(s[1..], After(m, s[0])))
  }

  function ModeAfter(s: string, m: Mode): Mode {
    if s == "" then m else ModeAfter(s[1..], After(m, s[0]))
  }

  /** One command: trimmed, its quotes closed, no separator outside quotes. */
  predicate IsCommand(s: string) {
    s != "" && Trimmed(s) && Whole(s, OUTSIDE) && ModeAfter(s, OUTSIDE) == OUTSIDE
  }

  /** Quoted text is one command, whatever operators it holds, up to its own closing quote. */
  lemma QuotedIsCommand(quote: char, s: string)
    requires quote in {'\'', '"'} && quote !in s && (quote == '"' ==> '\\' !in s)
    ensures IsCommand([quote] + s + [quote])
  {
    var t := [quote] + s + [quote];
    assert t[0] == quote && t[1..] == s + [quote] && t[|t| - 1] == quote;
    InsideQuotes(quote, s);
  }

  lemma {:induction false} InsideQuotes(quote: char, s: string)
    requires quote in {'\'', '"'} && quote !in s && (quote == '"' ==> '\\' !in s)
    ensures Whole(s + [quote], Mode(quote, false)) && ModeAfter(s + [quote], Mode(quote, false)) == OUTSIDE
    decreases |s|
  {
    var t := s + [quote];
    if s == "" {
      assert t[0] == quote && t[1..] == "";
    } else {
      assert s[0] in s && t[0] == s[0] && t[1..] == s[1..] + [quote];
      assert forall c :: c in s[1..] ==> c in s;
      InsideQuotes(quote, s[1..]);
    }
  }

  /** So is an escaped operator, and any trimmed text without operators, quotes and escapes. */
  lemma EscapedIsCommand(c: char)
    requires c !in {' ', '\t', '\n', '\r', 11 as char, 12 as char}
    ensures IsCommand(['\\', c])
  {
    var t := ['\\', c];
    assert t[1..] == [c] && [c][1..] == "";
    var m := After(OUTSIDE, '\\');
    assert ModeAfter([c], m) == ModeAfter("", OUTSIDE);
    assert Whole([c], m);
  }

  lemma {:induction false} PlainIsCommand(s: string)
    requires forall c :: c in s ==> c !in {'\n', ';', '|', '&', '\'', '"', '\\'}
    ensures Whole(s, OUTSIDE) && ModeAfter(s, OUTSIDE) == OUTSIDE
    decreases |s|
  {
    if s != "" {
      assert s[0] in s && forall c :: c in s[1..] ==> c in s;
      PlainIsCommand(s[1..]);
    }
  }

  /** The scanner walks over a whole text; what follows must not turn a last `&` into `&&`. */
  lemma {:induction false} WalksOver(current: string, s: string, rest: string, m: Mode)
    requires Whole(s, m) && (rest == "" || rest[0] != '&')
    ensures Commands(current, s + rest, m) == Commands(current + s, rest, ModeAfter(s, m))
    decreases |s|
  {
    if s == "" {
      assert s + rest == rest && current + s == current;
    } else {
      var t := s + rest;
      assert t[0] == s[0] && t[1..] == s[1..] + rest;
      assert |s| > 1 ==> t[1] == s[1];
      assert Looks(m, s[0]) ==> SeparatorWidth(t) == 0;
      WalksOver(current + [s[0]], s[1..], rest, After(m, s[0]));
      assert current + [s[0]] + s[1..] == current + s;
    }
  }

  function Join(commands: seq<string>, separators: seq<Separator>): string
    requires |commands| > 0 && |separators| == |commands| - 1
  {
    if |commands| == 1 then commands[0]
    else commands[0] + (Text(separators[0]) + Join(commands[1..], separators[1..]))
  }

  /** Around its operator, a separator leaves blanks to the commands on both sides. */
  function Before(s: Separator): string { if s == Newline || s == Semicolon then "" else " " }

  lemma SeparatorEnds(current: string, s: Separator, more: string)
    ensures Commands(current, Text(s) + more, OUTSIDE) == Piece(current + Before(s))
              + Commands(Before(s), more, OUTSIDE)
  {
    hide TrimSpace;
    var t := Text(s) + more;
    if s == Newline || s == Semicolon {
      assert t[1..] == more && current + "" == current;
    } else {
      var w := if s == Pipe then 1 else 2;
      assert t[0] == ' ' && t[1] == (if s == And then '&' else '|') && t[2] == (if s == Pipe then ' ' else t[1]);
      BlankIsWalkedOver(current, t);
      assert SeparatorWidth(t[1..]) == w;
      assert t[1..][w..] == " " + more;
      assert (" " + more)[1..] == more;
      BlankIsWalkedOver("", " " + more);
      assert "" + " " == " ";
    }
  }

  lemma BlankIsWalkedOver(current: string, rest: string)
    requires rest != "" && rest[0] == ' '
    ensures Commands(current, rest, OUTSIDE) == Commands(current + " ", rest[1..], OUTSIDE)
  {
    assert [rest[0]] == " ";
  }

  /** Commands joined by any separators split back into the same list. */
  lemma {:induction false} SplitUndoesJoin(commands: seq<string>, separators: seq<Separator>, lead: string)
    requires |commands| > 0 && |separators| == |commands| - 1
    requires forall c :: c in commands ==> IsCommand(c)
    requires AllSpace(lead)
    ensures Commands(lead, Join(commands, separators), OUTSIDE) == commands
    decreases |commands|
  {
    hide TrimSpace;
    var c := commands[0];
    assert c in commands;
    if |commands| == 1 {
      assert c + "" == c;
      WalksOver(lead, c, "", OUTSIDE);
      assert lead + c + "" == lead + c;
      TrimUndoesPadding(lead, c, "");
    } else {
      var more := Join(commands[1..], separators[1..]);
      WalksOver(lead, c, Text(separators[0]) + more, OUTSIDE);
      SeparatorEnds(lead + c, separators[0], more);
      TrimUndoesPadding(lead, c, Before(separators[0]));
      SplitUndoesJoin(commands[1..], separators[1..], Before(separators[0]));
    }
  }
}
