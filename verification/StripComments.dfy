/** `stripJsonComments`: a hand-written lexer that drops comments and copies string literals verbatim. */
module StripComments {

  /** The lexer's `inString` and `stringChar`. */
  datatype Mode = Code | InString(quote: char)

  predicate IsQuote(c: char) { c == '"' || c == '\'' }

  /** What is left once a line comment that starts here is over: the newline itself stays. */
  function AfterLine(s: string): (r: string)
    ensures |r| <= |s|
  {
    if s == [] || s[0] == '\n' then s else AfterLine(s[1..])
  }

  /** What is left once a block comment that starts here is over; nothing, if it is never closed. */
  function AfterBlock(s: string): (r: string)
    ensures |r| <= |s|
  {
    if s == [] then []
    else if s[0] == '*' && 1 < |s| && s[1] == '/' then s[2..]
    else AfterBlock(s[1..])
  }

  /** The output for the rest `s` of the input when the lexer is in mode `m`. */
  function Strip(m: Mode, s: string): string
    decreases |s|
  {
    if s == [] then []
    else if m.InString? then
      if s[0] == '\\' && 1 < |s| then s[..2] + Strip(m, s[2..])
      else [s[0]] + Strip(if s[0] == m.quote then Code else m, s[1..])
    else if IsQuote(s[0]) then [s[0]] + Strip(InString(s[0]), s[1..])
    else if s[0] == '/' && 1 < |s| && s[1] == '/' then Strip(m, AfterLine(s[2..]))
    else if s[0] == '/' && 1 < |s| && s[1] == '*' then Strip(m, AfterBlock(s[2..]))
    else [s[0]] + Strip(m, s[1..])
  }

  predicate OpensComment(input: string, i: nat) {
    i + 1 < |input| && input[i] == '/' && (input[i + 1] == '/' || input[i + 1] == '*')
  }

  /** `Strip` at position `i` of the input, in terms of later positions. */
  lemma StripAt(m: Mode, input: string, i: nat)
    requires i < |input|
    ensures m.InString? && input[i] == '\\' && i + 1 < |input| ==>
      Strip(m, input[i..]) == [input[i]] + [input[i + 1]] + Strip(m, input[i + 2..])
    ensures m.InString? && !(input[i] == '\\' && i + 1 < |input|) ==>
      Strip(m, input[i..]) == [input[i]] + Strip(if input[i] == m.quote then Code else m, input[i + 1..])
    ensures m.Code? && IsQuote(input[i]) ==>
      Strip(m, input[i..]) == [input[i]] + Strip(InString(input[i]), input[i + 1..])
    ensures m.Code? && input[i] == '/' && i + 1 < |input| && input[i + 1] == '/' ==>
      Strip(m, input[i..]) == Strip(m, AfterLine(input[i + 2..]))
    ensures m.Code? && input[i] == '/' && i + 1 < |input| && input[i + 1] == '*' ==>
      Strip(m, input[i..]) == Strip(m, AfterBlock(input[i + 2..]))
    ensures m.Code? && !IsQuote(input[i]) && !OpensComment(input, i) ==>
      Strip(m, input[i..]) == [input[i]] + Strip(m, input[i + 1..])
  {
    var s := input[i..];
    assert s[1..] == input[i + 1..];
    if i + 1 < |input| {
      assert s[2..] == input[i + 2..];
      assert s[..2] == [input[i]] + [input[i + 1]];
    }
  }

  /** What the lexer still has to read at `index`, which may have run past the end. */
  function Rest(input: string, index: nat): string {
    if index <= |input| then input[index..] else []
  }

  method SkipLine(input: string, start: nat) returns (index: nat)
    requires start <= |input|
    ensures start <= index <= |input|
    ensures input[index..] == AfterLine(input[start..])
  {
    index := start;
    while index < |input| && input[index] != '\n'
      invariant start <= index <= |input|
      invariant AfterLine(input[index..]) == AfterLine(input[start..])
    {
      assert input[index..][1..] == input[index + 1..];
      index := index + 1;
    }
  }

  method SkipBlock(input: string, start: nat) returns (index: nat)
    requires start <= |input|
    ensures start < index
    ensures Rest(input, index) == AfterBlock(input[start..])
  {
    index := start;
    while index < |input| && !(input[index] == '*' && index + 1 < |input| && input[index + 1] == '/')
      invariant start <= index <= |input|
      invariant AfterBlock(input[index..]) == AfterBlock(input[start..])
    {
      assert input[index..][1..] == input[index + 1..];
      index := index + 1;
    }
    if index < |input| {
      assert input[index..][2..] == input[index + 2..];
    }
    index := index + 2;
  }

  lemma Assoc(a: string, b: string, c: string)
    ensures (a + b) + c == a + (b + c)
  {
  }

  /** The loop of the lexer keeps: what is written, and what the rest will still add, is the answer. */
  ghost predicate Pending(output: string, m: Mode, rest: string, input: string) {
    output + Strip(m, rest) == Strip(Code, input)
  }

  lemma PendingStep(output: string, m: Mode, rest: string, copied: string, m': Mode, rest': string, input: string)
    requires Pending(output, m, rest, input)
    requires Strip(m, rest) == copied + Strip(m', rest')
    ensures Pending(output + copied, m', rest', input)
  {
    Assoc(output, copied, Strip(m', rest'));
  }

  method StripJsonComments(input: string) returns (output: string)
    ensures output == Strip(Code, input)
  {
    hide Strip;
    hide AfterLine;
    hide AfterBlock;
    output := "";
    var inString := false;
    var stringChar := ' ';
    var index: nat := 0;
    ghost var m := Code;
    while index < |input|
      invariant Pending(output, m, Rest(input, index), input)
      invariant m == if inString then InString(stringChar) else Code
      decreases |input| - index
    {
      var current := input[index];
      var hasNext := index + 1 < |input|;
      ghost var written, mode, rest := output, m, Rest(input, index);
      StripAt(m, input, index);
      if inString {
        output := output + [current];
        if current == '\\' && hasNext {
          output := output + [input[index + 1]];
          Assoc(written, [current], [input[index + 1]]);
          index := index + 2;
        } else {
          if current == stringChar {
            inString := false;
          }
          index := index + 1;
        }
      } else if current == '"' || current == '\'' {
        inString := true;
        stringChar := current;
        output := output + [current];
        index := index + 1;
      } else if current == '/' && hasNext && input[index + 1] == '/' {
        index := SkipLine(input, index + 2);
      } else if current == '/' && hasNext && input[index + 1] == '*' {
        index := SkipBlock(input, index + 2);
      } else {
        output := output + [current];
        index := index + 1;
      }
      m := if inString then InString(stringChar) else Code;
      PendingStep(written, mode, rest, output[|written|..], m, Rest(input, index), input);
      assert output == written + output[|written|..];
    }
    assert Rest(input, index) == [];
    StripNothing(m);
    assert output + [] == output;
  }

  lemma StripNothing(m: Mode)
    ensures Strip(m, []) == []
  {
  }

  // ---------------------------------------------------------------- idempotence

  /** A slash kept from code is never followed, in the output, by a slash or a star. */
  lemma {:induction false} NoCommentOpens(s: string)
    requires s != [] ==> s[0] != '/' && s[0] != '*'
    ensures s == [] ==> Strip(Code, s) == []
    ensures s != [] ==> Strip(Code, s) != [] && Strip(Code, s)[0] == s[0]
  {
  }

  /** Stripping twice is stripping once, for every input whatever. */
  lemma {:induction false} StripIdempotent(m: Mode, s: string)
    ensures Strip(m, Strip(m, s)) == Strip(m, s)
    decreases |s|
  {
    if s == [] {
    } else if m.InString? {
      if s[0] == '\\' && 1 < |s| {
        StripIdempotent(m, s[2..]);
        var out := Strip(m, s);
        assert out[..2] == s[..2] && out[2..] == Strip(m, s[2..]);
      } else {
        var m' := if s[0] == m.quote then Code else m;
        StripIdempotent(m', s[1..]);
        assert Strip(m, s)[1..] == Strip(m', s[1..]);
        assert s[0] == '\\' ==> s[1..] == [];
      }
    } else if IsQuote(s[0]) {
      StripIdempotent(InString(s[0]), s[1..]);
      assert Strip(m, s)[1..] == Strip(InString(s[0]), s[1..]);
    } else if s[0] == '/' && 1 < |s| && s[1] == '/' {
      StripIdempotent(m, AfterLine(s[2..]));
    } else if s[0] == '/' && 1 < |s| && s[1] == '*' {
      StripIdempotent(m, AfterBlock(s[2..]));
    } else {
      StripIdempotent(m, s[1..]);
      assert Strip(m, s)[1..] == Strip(m, s[1..]);
      if s[0] == '/' {
        NoCommentOpens(s[1..]);
      }
    }
  }

  // ------------------------------------------------------------------ tokens

  datatype StringPart = Plain(c: char) | Escaped(c: char)

  /** The lexical pieces of a file. `OpenText` and `OpenBlock` are a string and a block comment that the
      file ends in the middle of; a string can also end on a lone backslash. */
  datatype Token =
    | CodeChar(c: char)
    | Text(quote: char, parts: seq<StringPart>)
    | OpenText(quote: char, parts: seq<StringPart>, loneBackslash: bool)
    | LineComment(body: string)
    | BlockComment(body: string)
    | OpenBlock(body: string)

  predicate IsComment(t: Token) { t.LineComment? || t.BlockComment? || t.OpenBlock? }

  function RenderPart(p: StringPart): string {
    match p case Plain(c) => [c] case Escaped(c) => ['\\', c]
  }

  function RenderParts(ps: seq<StringPart>): string {
    if ps == [] then [] else RenderPart(ps[0]) + RenderParts(ps[1..])
  }

  function RenderToken(t: Token): string {
    match t
    case CodeChar(c) => [c]
    case Text(q, ps) => [q] + RenderParts(ps) + [q]
    case OpenText(q, ps, lone) => [q] + RenderParts(ps) + (if lone then ['\\'] else [])
    case LineComment(b) => "//" + b
    case BlockComment(b) => "/*" + b + "*/"
    case OpenBlock(b) => "/*" + b
  }

  function Render(ts: seq<Token>): string {
    if ts == [] then [] else RenderToken(ts[0]) + Render(ts[1..])
  }

  function DropComments(ts: seq<Token>): seq<Token> {
    if ts == [] then []
    else (if IsComment(ts[0]) then [] else [ts[0]]) + DropComments(ts[1..])
  }

  ghost predicate PartsOk(q: char, ps: seq<StringPart>) {
    forall p :: p in ps ==> p.Plain? ==> p.c != q && p.c != '\\'
  }

  ghost predicate Closes(s: string) {
    exists i :: 0 <= i < |s| - 1 && s[i] == '*' && s[i + 1] == '/'
  }

  ghost predicate TokenOk(t: Token) {
    match t
    case CodeChar(c) => !IsQuote(c)
    case Text(q, ps) => IsQuote(q) && PartsOk(q, ps)
    case OpenText(q, ps, _) => IsQuote(q) && PartsOk(q, ps)
    case LineComment(b) => '\n' !in b
    case BlockComment(b) => !Closes(b)
    case OpenBlock(b) => !Closes(b)
  }

  /** `t` may be followed by text that renders as `rest`: a code slash not by a slash or a star, a line
      comment only by its newline or the end, an unclosed token only by the end. */
  ghost predicate MayPrecede(t: Token, rest: string) {
    match t
    case CodeChar(c) => c == '/' ==> rest == [] || (rest[0] != '/' && rest[0] != '*')
    case LineComment(_) => rest == [] || rest[0] == '\n'
    case OpenText(_, _, _) => rest == []
    case OpenBlock(_) => rest == []
    case _ => true
  }

  ghost predicate WellFormed(ts: seq<Token>) {
    ts != [] ==> TokenOk(ts[0]) && MayPrecede(ts[0], Render(ts[1..])) && WellFormed(ts[1..])
  }

  /** `Strip` on one more character in front, away from comments. */
  lemma StripCons(m: Mode, c: char, rest: string)
    ensures m.InString? && c != '\\' ==> Strip(m, [c] + rest) == [c] + Strip(if c == m.quote then Code else m, rest)
    ensures m.InString? && c == '\\' && rest != [] ==> Strip(m, [c] + rest) == [c, rest[0]] + Strip(m, rest[1..])
    ensures m.Code? && IsQuote(c) ==> Strip(m, [c] + rest) == [c] + Strip(InString(c), rest)
    ensures m.Code? && !IsQuote(c) && (c == '/' ==> rest == [] || (rest[0] != '/' && rest[0] != '*'))
         ==> Strip(m, [c] + rest) == [c] + Strip(m, rest)
  {
    var s := [c] + rest;
    assert s[1..] == rest;
    if rest != [] {
      assert s[2..] == rest[1..] && s[..2] == [c, rest[0]];
    }
  }

  lemma StripPart(q: char, p: StringPart, tail: string)
    requires p.Plain? ==> p.c != q && p.c != '\\'
    ensures Strip(InString(q), RenderPart(p) + tail) == RenderPart(p) + Strip(InString(q), tail)
  {
    match p {
      case Plain(c) => StripCons(InString(q), c, tail);
      case Escaped(c) =>
        var more := [c] + tail;
        assert ['\\', c] + tail == ['\\'] + more && more[0] == c && more[1..] == tail;
        StripCons(InString(q), '\\', more);
        hide Strip;
    }
  }

  lemma {:induction false} StripParts(q: char, ps: seq<StringPart>, rest: string)
    requires PartsOk(q, ps)
    ensures Strip(InString(q), RenderParts(ps) + rest) == RenderParts(ps) + Strip(InString(q), rest)
  {
    hide Strip;
    hide RenderPart;
    if ps == [] {
      assert RenderParts(ps) + rest == rest;
      assert RenderParts(ps) + Strip(InString(q), rest) == Strip(InString(q), rest);
    } else {
      StripParts(q, ps[1..], rest);
      assert ps[0] in ps;
      StripPart(q, ps[0], RenderParts(ps[1..]) + rest);
      Assoc(RenderPart(ps[0]), RenderParts(ps[1..]), rest);
      Assoc(RenderPart(ps[0]), RenderParts(ps[1..]), Strip(InString(q), rest));
    }
  }

  lemma {:induction false} AfterLineSkips(body: string, rest: string)
    requires '\n' !in body && (rest == [] || rest[0] == '\n')
    ensures AfterLine(body + rest) == rest
  {
    if body == [] {
      assert body + rest == rest;
    } else {
      assert (body + rest)[1..] == body[1..] + rest;
      AfterLineSkips(body[1..], rest);
    }
  }

  lemma ClosesTail(c: char, body: string)
    ensures Closes([c] + body) <==> Closes(body) || (c == '*' && body != [] && body[0] == '/')
  {
    var s := [c] + body;
    if Closes(body) {
      var i :| 0 <= i < |body| - 1 && body[i] == '*' && body[i + 1] == '/';
      assert s[i + 1] == '*' && s[i + 1 + 1] == '/';
    }
    if c == '*' && body != [] && body[0] == '/' {
      assert s[0] == '*' && s[0 + 1] == '/';
    }
    if Closes(s) {
      var i :| 0 <= i < |s| - 1 && s[i] == '*' && s[i + 1] == '/';
      if i > 0 {
        assert body[i - 1] == '*' && body[i - 1 + 1] == '/';
      }
    }
  }

  lemma {:induction false} AfterBlockSkips(body: string, rest: string)
    requires !Closes(body)
    ensures AfterBlock(body + "*/" + rest) == rest
    ensures AfterBlock(body) == []
  {
    if body == [] {
      assert body + "*/" + rest == "*/" + rest;
    } else {
      var s := body + "*/" + rest;
      assert s[1..] == body[1..] + "*/" + rest;
      ClosesTail(body[0], body[1..]);
      assert body == [body[0]] + body[1..];
      AfterBlockSkips(body[1..], rest);
      assert |body| == 1 ==> s[1] == '*';
      assert 1 < |body| ==> s[1] == body[1] && !(body[0] == '*' && body[1] == '/');
    }
  }

  lemma StripText(q: char, ps: seq<StringPart>, rest: string)
    requires IsQuote(q) && PartsOk(q, ps)
    ensures Strip(Code, RenderToken(Text(q, ps)) + rest) == RenderToken(Text(q, ps)) + Strip(Code, rest)
  {
    var inside := RenderParts(ps) + ([q] + rest);
    assert RenderToken(Text(q, ps)) + rest == [q] + inside;
    StripCons(Code, q, inside);
    StripParts(q, ps, [q] + rest);
    StripCons(InString(q), q, rest);
  }

  lemma StripOpenText(q: char, ps: seq<StringPart>, lone: bool)
    requires IsQuote(q) && PartsOk(q, ps)
    ensures Strip(Code, RenderToken(OpenText(q, ps, lone))) == RenderToken(OpenText(q, ps, lone))
  {
    var tail := if lone then ['\\'] else [];
    assert RenderToken(OpenText(q, ps, lone)) == [q] + (RenderParts(ps) + tail);
    StripCons(Code, q, RenderParts(ps) + tail);
    StripParts(q, ps, tail);
    assert Strip(InString(q), tail) == tail;
  }

  /** One token: a comment disappears, everything else is copied. */
  lemma StripToken(t: Token, rest: string)
    requires TokenOk(t) && MayPrecede(t, rest)
    ensures Strip(Code, RenderToken(t) + rest) == (if IsComment(t) then [] else RenderToken(t)) + Strip(Code, rest)
  {
    hide RenderParts;
    if IsComment(t) {
      StripComment(t, rest);
      assert [] + Strip(Code, rest) == Strip(Code, rest);
      hide Strip;
    } else {
      match t {
        case CodeChar(c) => StripCons(Code, c, rest);
        case Text(q, ps) => StripText(q, ps, rest);
        case OpenText(q, ps, lone) =>
          StripOpenText(q, ps, lone);
          assert RenderToken(t) + rest == RenderToken(t);
        case _ =>
      }
    }
  }

  lemma StripMarks(x: string)
    ensures Strip(Code, "//" + x) == Strip(Code, AfterLine(x))
    ensures Strip(Code, "/*" + x) == Strip(Code, AfterBlock(x))
  {
    var s, t := "//" + x, "/*" + x;
    assert s[0] == '/' && s[1] == '/' && s[2..] == x;
    assert t[0] == '/' && t[1] == '*' && t[2..] == x;
  }

  lemma StripComment(t: Token, rest: string)
    requires TokenOk(t) && MayPrecede(t, rest) && IsComment(t)
    ensures Strip(Code, RenderToken(t) + rest) == Strip(Code, rest)
  {
    hide RenderParts;
    hide PartsOk;
    hide Closes;
    hide Strip;
    hide AfterLine;
    hide AfterBlock;
    match t {
      case LineComment(b) =>
        Assoc("//", b, rest);
        StripMarks(b + rest);
        AfterLineSkips(b, rest);
      case BlockComment(b) =>
        Assoc("/*" + b, "*/", rest);
        Assoc("/*", b, "*/" + rest);
        Assoc(b, "*/", rest);
        StripMarks(b + "*/" + rest);
        AfterBlockSkips(b, rest);
      case OpenBlock(b) =>
        assert RenderToken(t) + rest == "/*" + b;
        StripMarks(b);
        AfterBlockSkips(b, rest);
      case _ =>
    }
  }

  /** Stripping the rendering of a token list gives the rendering of the list without its comments. */
  lemma {:induction false} StripDropsComments(ts: seq<Token>)
    requires WellFormed(ts)
    ensures Strip(Code, Render(ts)) == Render(DropComments(ts))
  {
    if ts != [] {
      StripToken(ts[0], Render(ts[1..]));
      StripDropsComments(ts[1..]);
      if !IsComment(ts[0]) {
        assert DropComments(ts)[1..] == DropComments(ts[1..]);
      } else {
        assert DropComments(ts) == DropComments(ts[1..]);
      }
    }
  }

  // ------------------------------------------- every input is a token list

  lemma LexMore(q: char, p: StringPart, ps: seq<StringPart>, rest: string, tail: string)
    requires PartsOk(q, ps) && (p.Plain? ==> p.c != q && p.c != '\\')
    requires rest == RenderParts(ps) + tail
    ensures PartsOk(q, [p] + ps)
    ensures RenderPart(p) + rest == RenderParts([p] + ps) + tail
  {
    assert ([p] + ps)[1..] == ps;
    Assoc(RenderPart(p), RenderParts(ps), tail);
  }

  /** The first part of the inside of a string, and what follows it. */
  function FirstPart(q: char, s: string): (r: (StringPart, string))
    requires s != [] && s[0] != q && s != ['\\']
    ensures r.0.Plain? ==> r.0.c != q && r.0.c != '\\'
    ensures s == RenderPart(r.0) + r.1 && |r.1| < |s|
  {
    if s[0] == '\\' then (Escaped(s[1]), s[2..]) else (Plain(s[0]), s[1..])
  }

  /** Reads the inside of a string: its parts, whether it was closed, and what follows. */
  function LexString(q: char, s: string): (r: (seq<StringPart>, bool, bool, string))
    requires q != '\\'
    ensures PartsOk(q, r.0)
    ensures s == RenderParts(r.0) + (if r.1 then [q] + r.3 else if r.2 then ['\\'] else [])
    ensures |r.3| <= |s| && (!r.1 ==> r.3 == [])
  {
    if s == [] then ([], false, false, [])
    else if s == ['\\'] then ([], false, true, [])
    else if s[0] == q then ([], true, false, s[1..])
    else
      var (p, rest) := FirstPart(q, s);
      var (ps, closed, lone, after) := LexString(q, rest);
      LexMore(q, p, ps, rest, if closed then [q] + after else if lone then ['\\'] else []);
      ([p] + ps, closed, lone, after)
  }

  function LexLine(s: string): (r: (string, string))
    ensures s == r.0 + r.1 && '\n' !in r.0 && (r.1 == [] || r.1[0] == '\n')
  {
    if s == [] || s[0] == '\n' then ([], s)
    else var (b, rest) := LexLine(s[1..]); ([s[0]] + b, rest)
  }

  function LexBlock(s: string): (r: (string, bool, string))
    ensures !Closes(r.0)
    ensures s == if r.1 then r.0 + "*/" + r.2 else r.0
    ensures r.0 != [] ==> s != [] && r.0[0] == s[0]
    ensures r.0 == [] && r.1 ==> |s| >= 2 && s[..2] == "*/"
    ensures !r.1 ==> r.2 == []
  {
    if s == [] then ([], false, [])
    else if s[0] == '*' && 1 < |s| && s[1] == '/' then ([], true, s[2..])
    else
      var (b, closed, rest) := LexBlock(s[1..]);
      ClosesTail(s[0], b);
      ([s[0]] + b, closed, rest)
  }

  /** A token at the start of `s`, and what follows it. */
  ghost predicate Lexed(s: string, t: Token, rest: string) {
    TokenOk(t) && MayPrecede(t, rest) && s == RenderToken(t) + rest && |rest| < |s|
  }

  lemma Quoted(a: string, b: string, c: string, d: string)
    ensures (a + b + c) + d == a + (b + (c + d))
  {
  }

  function LexText(s: string): (r: (Token, string))
    requires s != [] && IsQuote(s[0])
    ensures Lexed(s, r.0, r.1)
  {
    var (ps, closed, lone, rest) := LexString(s[0], s[1..]);
    assert s == [s[0]] + s[1..];
    var inside := RenderParts(ps);
    Quoted([s[0]], inside, [s[0]], rest);
    Assoc([s[0]], inside, if lone then ['\\'] else []);
    (if closed then Text(s[0], ps) else OpenText(s[0], ps, lone), rest)
  }

  function LexComment(s: string): (r: (Token, string))
    requires OpensComment(s, 0)
    ensures Lexed(s, r.0, r.1)
  {
    assert s == s[..2] + s[2..];
    if s[1] == '/' then
      var (b, rest) := LexLine(s[2..]);
      assert s[..2] == "//";
      (LineComment(b), rest)
    else
      var (b, closed, rest) := LexBlock(s[2..]);
      assert s[..2] == "/*";
      (if closed then BlockComment(b) else OpenBlock(b), rest)
  }

  function FirstToken(s: string): (r: (Token, string))
    requires s != []
    ensures Lexed(s, r.0, r.1)
  {
    if IsQuote(s[0]) then LexText(s)
    else if OpensComment(s, 0) then LexComment(s)
    else
      assert s == [s[0]] + s[1..];
      (CodeChar(s[0]), s[1..])
  }

  function Tokenize(s: string): (ts: seq<Token>)
    ensures Render(ts) == s && WellFormed(ts)
    decreases |s|
  {
    if s == [] then []
    else
      var (t, rest) := FirstToken(s);
      var ts := Tokenize(rest);
      assert ([t] + ts)[1..] == ts;
      [t] + ts
  }

  /** Full specification: every input is the rendering of a well-formed token list, and stripping it
      removes exactly that list's comments. */
  lemma StripMeaning(s: string)
    ensures Render(Tokenize(s)) == s && WellFormed(Tokenize(s))
    ensures Strip(Code, s) == Render(DropComments(Tokenize(s)))
  {
    StripDropsComments(Tokenize(s));
  }
}
