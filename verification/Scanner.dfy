/** Finding a JSON object in free text. A `char` here is one byte of the text. */
module Scanner {
  import opened Options

  // ----- the brace scanner -----

  /** One step of the scanner over the rest of the text: how many bytes until the braces balance. */
  function Scan(rest: string, depth: int, inString: bool, escape: bool): Option<nat> {
    if rest == "" then None
    else
      var c := rest[0];
      if inString then
        if escape then Plus(1, Scan(rest[1..], depth, true, false))
        else if c == '\\' then Plus(1, Scan(rest[1..], depth, true, true))
        else Plus(1, Scan(rest[1..], depth, c != '"', false))
      else if c == '"' then Plus(1, Scan(rest[1..], depth, true, escape))
      else if c == '{' then Plus(1, Scan(rest[1..], depth + 1, false, escape))
      else if c == '}' then
        if depth == 1 then Some(1) else Plus(1, Scan(rest[1..], depth - 1, false, escape))
      else Plus(1, Scan(rest[1..], depth, false, escape))
  }

  function Plus(n: nat, r: Option<nat>): Option<nat> {
    if r.Some? then Some(n + r.value) else None
  }

  /** `scanBalancedObject`: the exclusive end of the balanced object starting at `start`. */
  method ScanBalancedObject(text: string, start: nat) returns (end: Option<nat>)
    requires start <= |text|
    ensures end == Plus(start, Scan(text[start..], 0, false, false))
    ensures end.Some? ==> start < end.value <= |text| && text[end.value - 1] == '}'
  {
    var depth, inString, escape := 0, false, false;
    for i := start to |text|
      invariant Plus(start, Scan(text[start..], 0, false, false)) == Plus(i, Scan(text[i..], depth, inString, escape))
      invariant !inString ==> !escape
    {
      var c := text[i];
      assert text[i..][0] == c && text[i..][1..] == text[i + 1..];
      if inString {
        if escape {
          escape := false;
        } else if c == '\\' {
          escape := true;
        } else if c == '"' {
          inString := false;
        }
      } else if c == '"' {
        inString := true;
      } else if c == '{' {
        depth := depth + 1;
      } else if c == '}' {
        depth := depth - 1;
        if depth == 0 { return Some(i + 1); }
      }
    }
    assert text[|text|..] == "";
    end := None;
  }

  // ----- JSON text (RFC 8259) -----

  /** One element of a string literal: section 7 of RFC 8259. */
  datatype StringChar = Plain(c: char) | Escape(c: char) | Unicode(h0: char, h1: char, h2: char, h3: char)

  predicate HexDigit(c: char) {
    '0' <= c <= '9' || 'a' <= c <= 'f' || 'A' <= c <= 'F'
  }

  predicate StringCharOk(x: StringChar) {
    match x
    case Plain(c) => c >= ' ' && c != '"' && c != '\\'
    case Escape(c) => c == '"' || c == '\\' || c == '/' || c == 'b' || c == 'f' || c == 'n' || c == 'r' || c == 't'
    case Unicode(a, b, c, d) => HexDigit(a) && HexDigit(b) && HexDigit(c) && HexDigit(d)
  }

  function PrintChar(x: StringChar): string {
    match x
    case Plain(c) => [c]
    case Escape(c) => ['\\', c]
    case Unicode(a, b, c, d) => ['\\', 'u', a, b, c, d]
  }

  function PrintChars(xs: seq<StringChar>): string {
    if xs == [] then "" else PrintChar(xs[0]) + PrintChars(xs[1..])
  }

  /**
   * A JSON text with its layout: `before` and `after` are the whitespace around
   * a value; a `Token` is a number, `true`, `false` or `null`.
   */
  datatype Doc =
    | Token(before: string, text: string, after: string)
    | Text(before: string, chars: seq<StringChar>, after: string)
    | List(before: string, inner: string, items: seq<Doc>, after: string)
    | Object(before: string, inner: string, members: seq<Member>, after: string)

  datatype Member = Member(key: seq<StringChar>, keyBefore: string, keyAfter: string, value: Doc)

  predicate Blank(s: string) {
    forall c :: c in s ==> c == ' ' || c == '\t' || c == '\n' || c == '\r'
  }

  predicate TokenOk(s: string) {
    forall c :: c in s ==> c != '"' && c != '{' && c != '}'
  }

  /** The bytes of a number, `true`, `false` or `null`. */
  predicate TokenText(s: string) {
    forall c :: c in s ==> '0' <= c <= '9' || 'a' <= c <= 'z' || c == '+' || c == '-' || c == '.' || c == 'E'
  }

  predicate DocOk(d: Doc) {
    && Blank(d.before) && Blank(d.after)
    && match d
       case Token(_, text, _) => TokenText(text)
       case Text(_, chars, _) => forall x :: x in chars ==> StringCharOk(x)
       case List(_, inner, items, _) => Blank(inner) && forall x :: x in items ==> DocOk(x)
       case Object(_, inner, members, _) => Blank(inner) && forall m :: m in members ==> MemberOk(m)
  }

  predicate MemberOk(m: Member) {
    Blank(m.keyBefore) && Blank(m.keyAfter) && (forall x :: x in m.key ==> StringCharOk(x)) && DocOk(m.value)
  }

  /** The value itself, without the whitespace around it. */
  function Bare(d: Doc): string
    decreases d, 0
  {
    match d
    case Token(_, text, _) => text
    case Text(_, chars, _) => "\"" + PrintChars(chars) + "\""
    case List(_, inner, items, _) => "[" + (if items == [] then inner else PrintItems(items)) + "]"
    case Object(_, inner, members, _) => "{" + (if members == [] then inner else PrintMembers(members)) + "}"
  }

  function Print(d: Doc): string
    decreases d, 1
  {
    d.before + Bare(d) + d.after
  }

  function PrintItems(items: seq<Doc>): string {
    if items == [] then ""
    else if |items| == 1 then Print(items[0])
    else Print(items[0]) + "," + PrintItems(items[1..])
  }

  function PrintMember(m: Member): string {
    m.keyBefore + "\"" + PrintChars(m.key) + "\"" + m.keyAfter + ":" + Print(m.value)
  }

  function PrintMembers(members: seq<Member>): string {
    if members == [] then ""
    else if |members| == 1 then PrintMember(members[0])
    else PrintMember(members[0]) + "," + PrintMembers(members[1..])
  }

  // ----- the scanner passes over printed JSON -----

  /** Scanning passes over `s` at any depth of at least `from` and resumes after it. */
  ghost predicate Passes(s: string) {
    forall rest: string, depth: int :: depth >= 1 ==>
        Scan(s + rest, depth, false, false) == Plus(|s|, Scan(rest, depth, false, false))
  }

  lemma PassesTogether(a: string, b: string)
    requires Passes(a) && Passes(b)
    ensures Passes(a + b)
  {
    forall rest: string, depth: int | depth >= 1
      ensures Scan(a + b + rest, depth, false, false) == Plus(|a + b|, Scan(rest, depth, false, false))
    {
      assert a + b + rest == a + (b + rest);
    }
  }

  /** Bytes that are no quote and no brace are passed over. */
  lemma {:induction false} PlainPasses(s: string)
    requires TokenOk(s)
    ensures Passes(s)
  {
    if s == "" {
      forall rest: string, depth: int | depth >= 1
        ensures Scan(s + rest, depth, false, false) == Plus(|s|, Scan(rest, depth, false, false))
      {
        assert s + rest == rest;
      }
    } else {
      assert forall c :: c in s[1..] ==> c in s;
      PlainPasses(s[1..]);
      var first := s[0];
      assert first in s;
      forall rest: string, depth: int | depth >= 1
        ensures Scan(s + rest, depth, false, false) == Plus(|s|, Scan(rest, depth, false, false))
      {
        assert (s + rest)[0] == first && (s + rest)[1..] == s[1..] + rest;
      }
    }
  }

  lemma {:induction false} CharsPass(xs: seq<StringChar>, rest: string, depth: int)
    requires forall x :: x in xs ==> StringCharOk(x)
    ensures Scan(PrintChars(xs) + rest, depth, true, false) == Plus(|PrintChars(xs)|, Scan(rest, depth, true, false))
  {
    if xs == [] {
      assert PrintChars(xs) + rest == rest;
    } else {
      var tail := PrintChars(xs[1..]) + rest;
      CharsPass(xs[1..], rest, depth);
      assert PrintChars(xs) + rest == PrintChar(xs[0]) + tail;
      CharPasses(xs[0], tail, depth);
    }
  }

  lemma PlainCharPasses(c: char, tail: string, depth: int)
    requires c != '"' && c != '\\'
    ensures Scan([c] + tail, depth, true, false) == Plus(1, Scan(tail, depth, true, false))
  {
    assert ([c] + tail)[1..] == tail;
  }

  lemma EscapePasses(c: char, tail: string, depth: int)
    ensures Scan(['\\', c] + tail, depth, true, false) == Plus(2, Scan(tail, depth, true, false))
  {
    var t := ['\\', c] + tail;
    assert t[1..] == [c] + tail && t[1..][1..] == tail;
  }

  lemma CharPasses(x: StringChar, tail: string, depth: int)
    requires StringCharOk(x)
    ensures Scan(PrintChar(x) + tail, depth, true, false) == Plus(|PrintChar(x)|, Scan(tail, depth, true, false))
  {
    hide Scan;
    match x
    case Plain(c) => PlainCharPasses(c, tail, depth);
    case Escape(c) => EscapePasses(c, tail, depth);
    case Unicode(a, b, c, d) =>
      PlainCharPasses(d, tail, depth);
      PlainCharPasses(c, [d] + tail, depth);
      PlainCharPasses(b, [c] + ([d] + tail), depth);
      PlainCharPasses(a, [b] + ([c] + ([d] + tail)), depth);
      EscapePasses('u', [a] + ([b] + ([c] + ([d] + tail))), depth);
      assert PrintChar(x) + tail == ['\\', 'u'] + ([a] + ([b] + ([c] + ([d] + tail))));
  }

  lemma QuotedScan(xs: seq<StringChar>, rest: string, depth: int)
    requires forall x :: x in xs ==> StringCharOk(x)
    ensures
      var s := "\"" + PrintChars(xs) + "\"";
      Scan(s + rest, depth, false, false) == Plus(|s|, Scan(rest, depth, false, false))
  {
    var p := PrintChars(xs);
    var s := "\"" + p + "\"";
    var closing := "\"" + rest;
    assert (s + rest)[0] == '"' && (s + rest)[1..] == p + closing;
    CharsPass(xs, closing, depth);
    assert closing[0] == '"' && closing[1..] == rest;
    assert Scan(closing, depth, true, false) == Plus(1, Scan(rest, depth, false, false));
  }

  lemma QuotedPasses(xs: seq<StringChar>)
    requires forall x :: x in xs ==> StringCharOk(x)
    ensures Passes("\"" + PrintChars(xs) + "\"")
  {
    forall rest: string, depth: int | depth >= 1
      ensures
        var s := "\"" + PrintChars(xs) + "\"";
        Scan(s + rest, depth, false, false) == Plus(|s|, Scan(rest, depth, false, false))
    {
      QuotedScan(xs, rest, depth);
    }
  }

  lemma BracedPasses(inner: string)
    requires Passes(inner)
    ensures Passes("{" + inner + "}")
  {
    var s := "{" + inner + "}";
    forall rest: string, depth: int | depth >= 1
      ensures Scan(s + rest, depth, false, false) == Plus(|s|, Scan(rest, depth, false, false))
    {
      assert (s + rest)[1..] == inner + ("}" + rest);
      assert ("}" + rest)[1..] == rest;
      assert Scan(inner + ("}" + rest), depth + 1, false, false)
          == Plus(|inner|, Scan("}" + rest, depth + 1, false, false));
    }
  }

  lemma {:induction false} DocPasses(d: Doc)
    requires DocOk(d)
    ensures Passes(Print(d)) && Passes(Bare(d))
    decreases d, 0
  {
    match d {
      case Token(_, text, _) => PlainPasses(text);
      case Text(_, chars, _) => QuotedPasses(chars);
      case List(_, inner, items, _) =>
        PlainPasses("["); PlainPasses("]"); PlainPasses(inner);
        ItemsPass(items);
        var mid := if items == [] then inner else PrintItems(items);
        PassesTogether("[", mid);
        PassesTogether("[" + mid, "]");
      case Object(_, inner, members, _) =>
        PlainPasses(inner);
        MembersPass(members);
        BracedPasses(if members == [] then inner else PrintMembers(members));
    }
    PlainPasses(d.before);
    PlainPasses(d.after);
    PassesTogether(d.before, Bare(d));
    PassesTogether(d.before + Bare(d), d.after);
  }

  lemma {:induction false} ItemsPass(items: seq<Doc>)
    requires forall x :: x in items ==> DocOk(x)
    ensures Passes(PrintItems(items))
    decreases items, 1
  {
    if items == [] {
      PlainPasses("");
    } else {
      DocPasses(items[0]);
      if |items| > 1 {
        ItemsPass(items[1..]);
        PlainPasses(",");
        PassesTogether(Print(items[0]), ",");
        PassesTogether(Print(items[0]) + ",", PrintItems(items[1..]));
      }
    }
  }

  lemma {:induction false} MemberPasses(m: Member)
    requires MemberOk(m)
    ensures Passes(PrintMember(m))
    decreases m, 1
  {
    var quoted := "\"" + PrintChars(m.key) + "\"";
    PlainPasses(m.keyBefore); PlainPasses(m.keyAfter); PlainPasses(":");
    QuotedPasses(m.key);
    DocPasses(m.value);
    PassesTogether(m.keyBefore, quoted);
    PassesTogether(m.keyBefore + quoted, m.keyAfter);
    PassesTogether(m.keyBefore + quoted + m.keyAfter, ":");
    PassesTogether(m.keyBefore + quoted + m.keyAfter + ":", Print(m.value));
    assert PrintMember(m) == m.keyBefore + quoted + m.keyAfter + ":" + Print(m.value);
  }

  lemma {:induction false} MembersPass(members: seq<Member>)
    requires forall m :: m in members ==> MemberOk(m)
    ensures Passes(PrintMembers(members))
    decreases members, 1
  {
    if members == [] {
      PlainPasses("");
    } else {
      MemberPasses(members[0]);
      if |members| > 1 {
        MembersPass(members[1..]);
        PlainPasses(",");
        PassesTogether(PrintMember(members[0]), ",");
        PassesTogether(PrintMember(members[0]) + ",", PrintMembers(members[1..]));
      }
    }
  }

  /** The scanner undoes the printer: from an object's first byte it finds exactly its end, whatever follows. */
  lemma ScanUndoesPrint(d: Doc, post: string)
    requires d.Object? && DocOk(d)
    ensures Scan(Bare(d) + post, 0, false, false) == Some(|Bare(d)|)
  {
    var mid := if d.members == [] then d.inner else PrintMembers(d.members);
    if d.members == [] { PlainPasses(mid); } else { MembersPass(d.members); }
    var t := Bare(d) + post;
    assert t[1..] == mid + ("}" + post);
    assert Scan(mid + ("}" + post), 1, false, false) == Plus(|mid|, Scan("}" + post, 1, false, false));
  }
}
