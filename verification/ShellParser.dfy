/** The command parser of user/sh.c.  s is the input line without its final NUL; a position is
  an index into it, and the position |s| is that of the NUL. */
module ShellParser {

  const MAXARGS: nat := 10

  /** A word of the input: q is the position of its first character, eq the one behind it. */
  datatype Span = Span(q: nat, eq: nat)

  /** <, > and >>; they stand for the open mode and the descriptor. */
  datatype Kind = In | Out | Append

  datatype Cmd<W> =
    | Exec(argv: seq<W>)
    | Redir(cmd: Cmd<W>, file: W, kind: Kind)
    | Pipe(left: Cmd<W>, right: Cmd<W>)
    | List(left: Cmd<W>, right: Cmd<W>)
    | Back(cmd: Cmd<W>)

  /** Panic stands for the shell's panic, with its message. */
  datatype Result<T> = Ok(value: T, i: nat) | Panic(msg: string)

  // ---------------------------------------------------------------- tokens

  predicate IsWs(c: char) {
    c == ' ' || c == '\t' || c == '\r' || c == '\n' || c == '\U{000b}'
  }

  predicate IsSym(c: char) {
    c == '<' || c == '|' || c == '>' || c == '&' || c == ';' || c == '(' || c == ')'
  }

  predicate IsWord(c: char) {
    !IsWs(c) && !IsSym(c)
  }

  /** The next position that is not white space. */
  function Skip(s: string, i: nat): (j: nat)
    requires i <= |s|
    ensures i <= j <= |s| && (j < |s| ==> !IsWs(s[j]))
    decreases |s| - i
  {
    if i < |s| && IsWs(s[i]) then Skip(s, i + 1) else i
  }

  function WordEnd(s: string, i: nat): (j: nat)
    requires i <= |s|
    ensures i <= j <= |s| && (j < |s| ==> !IsWord(s[j]))
    decreases |s| - i
  {
    if i < |s| && IsWord(s[i]) then WordEnd(s, i + 1) else i
  }

  /** kind is NUL at the end, 'a' for a word, '+' for >>, else the symbol; next is where the
      following token starts. */
  datatype Token = Token(kind: char, q: nat, eq: nat, next: nat)

  const NUL: char := '\0'

  function TokenEnd(s: string, q: nat): (eq: nat)
    requires q <= |s|
    ensures q <= eq <= |s| && (q < |s| ==> eq > q || IsWs(s[q]))
  {
    if q == |s| then q
    else if s[q] == '>' then if q + 1 < |s| && s[q + 1] == '>' then q + 2 else q + 1
    else if IsSym(s[q]) then q + 1
    else WordEnd(s, q)
  }

  function TokenKind(s: string, q: nat): char
    requires q <= |s|
  {
    if q == |s| then NUL
    else if s[q] == '>' then if q + 1 < |s| && s[q + 1] == '>' then '+' else '>'
    else if IsSym(s[q]) then s[q]
    else 'a'
  }

  function TokenAt(s: string, i: nat): (t: Token)
    requires i <= |s|
    ensures i <= t.q <= t.eq <= t.next <= |s| && (Skip(s, i) < |s| ==> t.q < t.eq)
  {
    var q := Skip(s, i);
    var eq := TokenEnd(s, q);
    Token(TokenKind(s, q), q, eq, Skip(s, eq))
  }

  /** A word of the input: it ends where no character of a word follows. */
  predicate WordSpan(s: string, w: Span) {
    && w.q < w.eq <= |s| && (forall k :: w.q <= k < w.eq ==> IsWord(s[k])) && (w.eq < |s| ==> !IsWord(s[w.eq]))
  }

  lemma {:induction false} InWord(s: string, i: nat, k: nat)
    requires i <= |s| && i <= k < WordEnd(s, i)
    ensures IsWord(s[k])
    decreases |s| - i
  {
    if i < k { InWord(s, i + 1, k); }
  }

  /** gettoken finds whole words. */
  lemma TokenIsWord(s: string, i: nat)
    requires i <= |s|
    ensures var t := TokenAt(s, i); t.kind == 'a' ==> WordSpan(s, Span(t.q, t.eq))
  {
    var t := TokenAt(s, i);
    if t.kind == 'a' {
      forall k | t.q <= k < t.eq ensures IsWord(s[k]) { InWord(s, t.q, k); }
    }
  }

  lemma {:induction false} SkipMeans(s: string, i: nat)
    requires i <= |s|
    ensures forall k :: i <= k < Skip(s, i) ==> s[k] in " \t\r\n\U{000b}"
    ensures Skip(s, i) < |s| ==> s[Skip(s, i)] !in " \t\r\n\U{000b}"
    decreases |s| - i
  {
    if i < |s| && IsWs(s[i]) { SkipMeans(s, i + 1); }
  }

  lemma {:induction false} WordEndMeans(s: string, i: nat)
    requires i <= |s|
    ensures forall k :: i <= k < WordEnd(s, i) ==> s[k] !in " \t\r\n\U{000b}<|>&;()"
    ensures WordEnd(s, i) < |s| ==> s[WordEnd(s, i)] in " \t\r\n\U{000b}<|>&;()"
    decreases |s| - i
  {
    if i < |s| && IsWord(s[i]) { WordEndMeans(s, i + 1); }
  }

  /** What a token is, in characters: white space goes before and after it; it is the end of the
      line, a symbol, or the longest run of other characters. */
  lemma TokenMeans(s: string, i: nat)
    requires i <= |s|
    ensures var t := TokenAt(s, i);
      && (forall k :: i <= k < t.q || t.eq <= k < t.next ==> s[k] in " \t\r\n\U{000b}")
      && (t.q < |s| ==> s[t.q] !in " \t\r\n\U{000b}") && (t.next < |s| ==> s[t.next] !in " \t\r\n\U{000b}")
      && (t.kind == NUL <==> t.q == |s|)
    ensures var t := TokenAt(s, i); t.q < |s| && s[t.q] in "<|&;()" ==> t.kind == s[t.q] && t.eq == t.q + 1
    ensures var t := TokenAt(s, i); t.q < |s| && s[t.q] == '>' ==>
      if t.q + 1 < |s| && s[t.q + 1] == '>' then t.kind == '+' && t.eq == t.q + 2
      else t.kind == '>' && t.eq == t.q + 1
    ensures var t := TokenAt(s, i); t.q < |s| && s[t.q] !in "<|>&;()" ==>
      && t.kind == 'a' && (forall k :: t.q <= k < t.eq ==> s[k] !in " \t\r\n\U{000b}<|>&;()")
      && (t.eq < |s| ==> s[t.eq] in " \t\r\n\U{000b}<|>&;()")
  {
    var t := TokenAt(s, i);
    SkipMeans(s, i);
    SkipMeans(s, t.eq);
    WordEndMeans(s, t.q);
  }

  predicate Peeks(s: string, i: nat, toks: string)
    requires i <= |s|
  {
    Skip(s, i) < |s| && s[Skip(s, i)] in toks
  }

  /** The loops that skip white space. */
  method SkipLoop(s: string, i: nat) returns (j: nat)
    requires i <= |s|
    ensures j == Skip(s, i)
  {
    j := i;
    while j < |s| && IsWs(s[j])
      invariant i <= j <= |s| && Skip(s, j) == Skip(s, i)
    {
      j := j + 1;
    }
  }

  /** gettoken. */
  method GetToken(s: string, i: nat) returns (t: Token)
    requires i <= |s|
    ensures t == TokenAt(s, i)
  {
    var q := SkipLoop(s, i);
    var j: nat, kind := q, if q < |s| then s[q] else NUL;
    if q < |s| {
      if s[q] == '>' {
        j := j + 1;
        if j < |s| && s[j] == '>' {
          kind := '+';
          j := j + 1;
        }
      } else if IsSym(s[q]) {
        j := j + 1;
      } else {
        kind := 'a';
        while j < |s| && IsWord(s[j])
          invariant q <= j <= |s| && WordEnd(s, j) == WordEnd(s, q)
        {
          j := j + 1;
        }
      }
    }
    var next := SkipLoop(s, j);
    t := Token(kind, q, j, next);
  }

  /** peek: whether the next token starts with one of these characters, and where it is. */
  method Peek(s: string, i: nat, toks: string) returns (r: bool, j: nat)
    requires i <= |s|
    ensures r == Peeks(s, i, toks) && j == Skip(s, i)
  {
    j := SkipLoop(s, i);
    r := j < |s| && s[j] in toks;
  }

  // ---------------------------------------------------------------- the grammar

  datatype Redirection<W> = Redirection(file: W, kind: Kind)

  function Wrap<W>(cmd: Cmd<W>, rs: seq<Redirection<W>>): Cmd<W> {
    if rs == [] then cmd else var r := rs[|rs| - 1]; Redir(Wrap(cmd, rs[..|rs| - 1]), r.file, r.kind)
  }

  function KindOf(c: char): Kind {
    if c == '<' then In else if c == '>' then Out else Append
  }

  predicate Fine<T>(s: string, i: nat, r: Result<T>) {
    r.Ok? ==> i <= r.i <= |s|
  }

  /** redirs*, added to those that are there. */
  function Redirs(s: string, i: nat, rs: seq<Redirection<Span>>): (r: Result<seq<Redirection<Span>>>)
    requires i <= |s|
    ensures Fine(s, i, r)
    decreases |s| - i
  {
    if !Peeks(s, i, "<>") then Ok(rs, Skip(s, i))
    else
      var t := TokenAt(s, i);
      var f := TokenAt(s, t.next);
      if f.kind != 'a' then Panic("missing file for redirection")
      else Redirs(s, f.next, rs + [Redirection(Span(f.q, f.eq), KindOf(t.kind))])
  }

  /** (word redirs*)* */
  function ExecRest(s: string, i: nat, argv: seq<Span>, rs: seq<Redirection<Span>>): (r: Result<Cmd<Span>>)
    requires i <= |s|
    ensures Fine(s, i, r)
    decreases |s| - i
  {
    if Peeks(s, i, "|)&;") then Ok(Wrap(Exec(argv), rs), Skip(s, i))
    else
      var t := TokenAt(s, i);
      if t.kind == NUL then Ok(Wrap(Exec(argv), rs), t.next)
      else if t.kind != 'a' then Panic("syntax")
      else if |argv| + 1 >= MAXARGS then Panic("too many args")
      else
        match Redirs(s, t.next, rs)
        case Panic(m) => Panic(m)
        case Ok(rs', j) => ExecRest(s, j, argv + [Span(t.q, t.eq)], rs')
  }

  /** block | redirs* (word redirs* )* */
  function ParseExec(s: string, i: nat): (r: Result<Cmd<Span>>)
    requires i <= |s|
    ensures Fine(s, i, r)
    decreases |s| - i, 1
  {
    if Peeks(s, i, "(") then ParseBlock(s, i)
    else
      match Redirs(s, i, [])
      case Panic(m) => Panic(m)
      case Ok(rs, j) => ExecRest(s, j, [], rs)
  }

  /** ( line ) redirs* */
  function ParseBlock(s: string, i: nat): (r: Result<Cmd<Span>>)
    requires i <= |s| && Peeks(s, i, "(")
    ensures Fine(s, i, r)
    decreases |s| - i, 0
  {
    match ParseLine(s, TokenAt(s, i).next)
    case Panic(m) => Panic(m)
    case Ok(c, j) =>
      if !Peeks(s, j, ")") then Panic("syntax - missing )")
      else
        match Redirs(s, TokenAt(s, j).next, [])
        case Panic(m) => Panic(m)
        case Ok(rs, k) => Ok(Wrap(c, rs), k)
  }

  /** exec | exec '|' pipe */
  function ParsePipe(s: string, i: nat): (r: Result<Cmd<Span>>)
    requires i <= |s|
    ensures Fine(s, i, r)
    decreases |s| - i, 2
  {
    match ParseExec(s, i)
    case Panic(m) => Panic(m)
    case Ok(c, j) =>
      if !Peeks(s, j, "|") then Ok(c, Skip(s, j))
      else
        match ParsePipe(s, TokenAt(s, j).next)
        case Panic(m) => Panic(m)
        case Ok(d, k) => Ok(Pipe(c, d), k)
  }

  /** &* */
  function Backs(s: string, i: nat, c: Cmd<Span>): (r: Result<Cmd<Span>>)
    requires i <= |s|
    ensures r.Ok? && Fine(s, i, r)
    decreases |s| - i
  {
    if Peeks(s, i, "&") then Backs(s, TokenAt(s, i).next, Back(c)) else Ok(c, Skip(s, i))
  }

  /** pipe &* | pipe &* ; line */
  function ParseLine(s: string, i: nat): (r: Result<Cmd<Span>>)
    requires i <= |s|
    ensures Fine(s, i, r)
    decreases |s| - i, 3
  {
    match ParsePipe(s, i)
    case Panic(m) => Panic(m)
    case Ok(c, j) =>
      var b := Backs(s, j, c);
      if !Peeks(s, b.i, ";") then Ok(b.value, Skip(s, b.i))
      else
        match ParseLine(s, TokenAt(s, b.i).next)
        case Panic(m) => Panic(m)
        case Ok(d, k) => Ok(List(b.value, d), k)
  }

  function ParseCmd(s: string): (r: Result<Cmd<Span>>)
    ensures r.Ok? ==> r.i == |s|
  {
    match ParseLine(s, 0)
    case Panic(m) => Panic(m)
    case Ok(c, j) => if Skip(s, j) == |s| then Ok(c, |s|) else Panic("syntax")
  }

  // ---------------------------------------------------------------- the parser

  /** White space in front makes no difference to what comes next. */
  lemma Shift(s: string, i: nat)
    requires i <= |s|
    ensures Skip(s, Skip(s, i)) == Skip(s, i) && TokenAt(s, Skip(s, i)) == TokenAt(s, i)
    ensures forall toks :: Peeks(s, Skip(s, i), toks) == Peeks(s, i, toks)
  {
  }

  lemma RedirsShift(s: string, i: nat, rs: seq<Redirection<Span>>)
    requires i <= |s|
    ensures Redirs(s, Skip(s, i), rs) == Redirs(s, i, rs)
  {
    Shift(s, i);
  }

  lemma RedirsStep(s: string, i: nat, rs: seq<Redirection<Span>>)
    requires i <= |s| && Peeks(s, i, "<>")
    ensures var t := TokenAt(s, i);
      var f := TokenAt(s, t.next);
      && i < f.next
      && if f.kind != 'a' then Redirs(s, i, rs) == Panic("missing file for redirection")
         else Redirs(s, i, rs) == Redirs(s, f.next, rs + [Redirection(Span(f.q, f.eq), KindOf(t.kind))])
  {
  }

  /** parseredirs, on the list of redirections; the command that they wrap is put in later. */
  method Parseredirs(s: string, i: nat, rs: seq<Redirection<Span>>) returns (r: Result<seq<Redirection<Span>>>)
    requires i <= |s|
    ensures r == Redirs(s, i, rs)
  {
    var list := rs;
    var more, j := Peek(s, i, "<>");
    Shift(s, i);
    RedirsShift(s, i, rs);
    while more
      invariant j <= |s| && Redirs(s, j, list) == Redirs(s, i, rs)
      invariant more == Peeks(s, j, "<>") && Skip(s, j) == j
      decreases |s| - j
    {
      RedirsStep(s, j, list);
      var t := GetToken(s, j);
      var f := GetToken(s, t.next);
      if f.kind != 'a' {
        return Panic("missing file for redirection");
      }
      list := list + [Redirection(Span(f.q, f.eq), KindOf(t.kind))];
      Shift(s, f.next);
      RedirsShift(s, f.next, list);
      more, j := Peek(s, f.next, "<>");
    }
    r := Ok(list, j);
  }

  lemma ExecRestShift(s: string, i: nat, argv: seq<Span>, rs: seq<Redirection<Span>>)
    requires i <= |s|
    ensures ExecRest(s, Skip(s, i), argv, rs) == ExecRest(s, i, argv, rs)
  {
    Shift(s, i);
  }

  /** The loop of parseexec. */
  method ParseArgs(s: string, i: nat, rs: seq<Redirection<Span>>) returns (r: Result<Cmd<Span>>)
    requires i <= |s|
    ensures r == ExecRest(s, i, [], rs)
  {
    var argv: seq<Span>, list := [], rs;
    var stop, j := Peek(s, i, "|)&;");
    Shift(s, i);
    ExecRestShift(s, i, argv, list);
    while !stop
      invariant j <= |s|
      invariant ExecRest(s, j, argv, list) == ExecRest(s, i, [], rs) && stop == Peeks(s, j, "|)&;") && Skip(s, j) == j
      decreases |s| - j
    {
      var t := GetToken(s, j);
      if t.kind == NUL {
        return Ok(Wrap(Exec(argv), list), t.next);
      }
      if t.kind != 'a' {
        return Panic("syntax");
      }
      argv := argv + [Span(t.q, t.eq)];
      if |argv| >= MAXARGS {
        return Panic("too many args");
      }
      var rr := Parseredirs(s, t.next, list);
      if rr.Panic? {
        return Panic(rr.msg);
      }
      list := rr.value;
      Shift(s, rr.i);
      ExecRestShift(s, rr.i, argv, list);
      stop, j := Peek(s, rr.i, "|)&;");
    }
    r := Ok(Wrap(Exec(argv), list), j);
  }

  method Parseexec(s: string, i: nat) returns (r: Result<Cmd<Span>>)
    requires i <= |s|
    ensures r == ParseExec(s, i)
    decreases |s| - i, 1
  {
    var block, j := Peek(s, i, "(");
    Shift(s, i);
    if block {
      r := Parseblock(s, i);
    } else {
      var rr := Parseredirs(s, j, []);
      RedirsShift(s, i, []);
      if rr.Panic? {
        return Panic(rr.msg);
      }
      r := ParseArgs(s, rr.i, rr.value);
    }
  }

  method Parseblock(s: string, i: nat) returns (r: Result<Cmd<Span>>)
    requires i <= |s| && Peeks(s, i, "(")
    ensures r == ParseBlock(s, i)
    decreases |s| - i, 0
  {
    var t := GetToken(s, i);
    var c := Parseline(s, t.next);
    if c.Panic? {
      return c;
    }
    var close, j := Peek(s, c.i, ")");
    if !close {
      return Panic("syntax - missing )");
    }
    Shift(s, c.i);
    t := GetToken(s, j);
    var rr := Parseredirs(s, t.next, []);
    if rr.Panic? {
      return Panic(rr.msg);
    }
    r := Ok(Wrap(c.value, rr.value), rr.i);
  }

  method Parsepipe(s: string, i: nat) returns (r: Result<Cmd<Span>>)
    requires i <= |s|
    ensures r == ParsePipe(s, i)
    decreases |s| - i, 2
  {
    var c := Parseexec(s, i);
    if c.Panic? {
      return c;
    }
    var bar, j := Peek(s, c.i, "|");
    if !bar {
      return Ok(c.value, j);
    }
    Shift(s, c.i);
    var t := GetToken(s, j);
    var d := Parsepipe(s, t.next);
    if d.Panic? {
      return d;
    }
    r := Ok(Pipe(c.value, d.value), d.i);
  }

  lemma BacksShift(s: string, i: nat, c: Cmd<Span>)
    requires i <= |s|
    ensures Backs(s, Skip(s, i), c) == Backs(s, i, c)
  {
    Shift(s, i);
  }

  /** The loop of parseline. */
  method ParseBacks(s: string, i: nat, c: Cmd<Span>) returns (d: Cmd<Span>, j: nat)
    requires i <= |s|
    ensures Ok(d, j) == Backs(s, i, c)
  {
    d := c;
    var more;
    more, j := Peek(s, i, "&");
    Shift(s, i);
    BacksShift(s, i, c);
    while more
      invariant j <= |s| && Backs(s, j, d) == Backs(s, i, c) && more == Peeks(s, j, "&") && Skip(s, j) == j
      decreases |s| - j
    {
      var t := GetToken(s, j);
      d := Back(d);
      Shift(s, t.next);
      BacksShift(s, t.next, d);
      more, j := Peek(s, t.next, "&");
    }
  }

  method Parseline(s: string, i: nat) returns (r: Result<Cmd<Span>>)
    requires i <= |s|
    ensures r == ParseLine(s, i)
    decreases |s| - i, 3
  {
    var c := Parsepipe(s, i);
    if c.Panic? {
      return c;
    }
    var b, j := ParseBacks(s, c.i, c.value);
    var semi, k := Peek(s, j, ";");
    if !semi {
      return Ok(b, k);
    }
    Shift(s, j);
    var t := GetToken(s, k);
    var d := Parseline(s, t.next);
    if d.Panic? {
      return d;
    }
    r := Ok(List(b, d.value), d.i);
  }

  // ---------------------------------------------------------------- words

  /** All words of a command are words of the input. */
  predicate Spanned(s: string, c: Cmd<Span>) {
    match c
    case Exec(argv) => forall k :: 0 <= k < |argv| ==> WordSpan(s, argv[k])
    case Redir(d, file, _) => Spanned(s, d) && WordSpan(s, file)
    case Pipe(l, r) => Spanned(s, l) && Spanned(s, r)
    case List(l, r) => Spanned(s, l) && Spanned(s, r)
    case Back(d) => Spanned(s, d)
  }

  predicate FilesOk(s: string, rs: seq<Redirection<Span>>) {
    forall k :: 0 <= k < |rs| ==> WordSpan(s, rs[k].file)
  }

  lemma {:induction false} WrapSpanned(s: string, c: Cmd<Span>, rs: seq<Redirection<Span>>)
    requires Spanned(s, c) && FilesOk(s, rs)
    ensures Spanned(s, Wrap(c, rs))
  {
    if rs != [] { WrapSpanned(s, c, rs[..|rs| - 1]); }
  }

  lemma {:induction false} RedirsSpanned(s: string, i: nat, rs: seq<Redirection<Span>>)
    requires i <= |s| && FilesOk(s, rs)
    ensures Redirs(s, i, rs).Ok? ==> FilesOk(s, Redirs(s, i, rs).value)
    decreases |s| - i
  {
    if Peeks(s, i, "<>") {
      var t := TokenAt(s, i);
      var f := TokenAt(s, t.next);
      TokenIsWord(s, t.next);
      if f.kind == 'a' { RedirsSpanned(s, f.next, rs + [Redirection(Span(f.q, f.eq), KindOf(t.kind))]); }
    }
  }

  lemma {:induction false} ExecRestSpanned(s: string, i: nat, argv: seq<Span>, rs: seq<Redirection<Span>>)
    requires i <= |s| && FilesOk(s, rs) && Spanned(s, Exec(argv))
    ensures ExecRest(s, i, argv, rs).Ok? ==> Spanned(s, ExecRest(s, i, argv, rs).value)
    decreases |s| - i
  {
    WrapSpanned(s, Exec(argv), rs);
    var t := TokenAt(s, i);
    TokenIsWord(s, i);
    if !Peeks(s, i, "|)&;") && t.kind == 'a' {
      RedirsSpanned(s, t.next, rs);
      var r := Redirs(s, t.next, rs);
      if r.Ok? { ExecRestSpanned(s, r.i, argv + [Span(t.q, t.eq)], r.value); }
    }
  }

  lemma {:induction false} ExecSpanned(s: string, i: nat)
    requires i <= |s|
    ensures ParseExec(s, i).Ok? ==> Spanned(s, ParseExec(s, i).value)
    decreases |s| - i, 1
  {
    if Peeks(s, i, "(") {
      BlockSpanned(s, i);
    } else {
      RedirsSpanned(s, i, []);
      var r := Redirs(s, i, []);
      if r.Ok? { ExecRestSpanned(s, r.i, [], r.value); }
    }
  }

  lemma {:induction false} BlockSpanned(s: string, i: nat)
    requires i <= |s| && Peeks(s, i, "(")
    ensures ParseBlock(s, i).Ok? ==> Spanned(s, ParseBlock(s, i).value)
    decreases |s| - i, 0
  {
    LineSpanned(s, TokenAt(s, i).next);
    var c := ParseLine(s, TokenAt(s, i).next);
    if c.Ok? && Peeks(s, c.i, ")") {
      RedirsSpanned(s, TokenAt(s, c.i).next, []);
      var r := Redirs(s, TokenAt(s, c.i).next, []);
      if r.Ok? { WrapSpanned(s, c.value, r.value); }
    }
  }

  lemma {:induction false} PipeSpanned(s: string, i: nat)
    requires i <= |s|
    ensures ParsePipe(s, i).Ok? ==> Spanned(s, ParsePipe(s, i).value)
    decreases |s| - i, 2
  {
    ExecSpanned(s, i);
    var c := ParseExec(s, i);
    if c.Ok? && Peeks(s, c.i, "|") { PipeSpanned(s, TokenAt(s, c.i).next); }
  }

  lemma {:induction false} BacksSpanned(s: string, i: nat, c: Cmd<Span>)
    requires i <= |s| && Spanned(s, c)
    ensures Spanned(s, Backs(s, i, c).value)
    decreases |s| - i
  {
    if Peeks(s, i, "&") { BacksSpanned(s, TokenAt(s, i).next, Back(c)); }
  }

  lemma {:induction false} LineSpanned(s: string, i: nat)
    requires i <= |s|
    ensures ParseLine(s, i).Ok? ==> Spanned(s, ParseLine(s, i).value)
    decreases |s| - i, 3
  {
    PipeSpanned(s, i);
    var c := ParsePipe(s, i);
    if c.Ok? {
      BacksSpanned(s, c.i, c.value);
      var b := Backs(s, c.i, c.value);
      if Peeks(s, b.i, ";") { LineSpanned(s, TokenAt(s, b.i).next); }
    }
  }

  /** Every word of a parsed command is a whole word of the input. */
  lemma CmdSpanned(s: string)
    ensures ParseCmd(s).Ok? ==> Spanned(s, ParseCmd(s).value)
  {
    LineSpanned(s, 0);
  }

  // ---------------------------------------------------------------- nulterminate

  /** Some word of the command ends at k. */
  predicate EndsAt(c: Cmd<Span>, k: nat) {
    match c
    case Exec(argv) => exists x :: 0 <= x < |argv| && argv[x].eq == k
    case Redir(d, file, _) => EndsAt(d, k) || file.eq == k
    case Pipe(l, r) => EndsAt(l, k) || EndsAt(r, k)
    case List(l, r) => EndsAt(l, k) || EndsAt(r, k)
    case Back(d) => EndsAt(d, k)
  }

  /** nulterminate: a NUL behind every word, and nothing else. */
  method Nulterminate(s: string, c: Cmd<Span>, buf: array<char>)
    requires Spanned(s, c) && buf.Length == |s| + 1
    modifies buf
    ensures forall k: nat :: k < buf.Length ==> buf[k] == if EndsAt(c, k) then NUL else old(buf[k])
    decreases c
  {
    match c
    case Exec(argv) =>
      var i := 0;
      while i < |argv|
        invariant 0 <= i <= |argv|
        invariant forall k: nat :: k < buf.Length ==>
          buf[k] == if exists x :: 0 <= x < i && argv[x].eq == k then NUL else old(buf[k])
      {
        buf[argv[i].eq] := NUL;
        i := i + 1;
      }
    case Redir(d, file, _) =>
      Nulterminate(s, d, buf);
      buf[file.eq] := NUL;
    case Pipe(l, r) =>
      Nulterminate(s, l, buf);
      Nulterminate(s, r, buf);
    case List(l, r) =>
      Nulterminate(s, l, buf);
      Nulterminate(s, r, buf);
    case Back(d) =>
      Nulterminate(s, d, buf);
  }

  /** Words never end inside a word. */
  lemma {:induction false} EndsOutside(s: string, c: Cmd<Span>, k: nat)
    requires Spanned(s, c) && EndsAt(c, k)
    ensures k <= |s| && (k < |s| ==> !IsWord(s[k]))
  {
    match c
    case Exec(argv) =>
    case Redir(d, _, _) => if EndsAt(d, k) { EndsOutside(s, d, k); }
    case Pipe(l, r) => if EndsAt(l, k) { EndsOutside(s, l, k); } else { EndsOutside(s, r, k); }
    case List(l, r) => if EndsAt(l, k) { EndsOutside(s, l, k); } else { EndsOutside(s, r, k); }
    case Back(d) => EndsOutside(s, d, k);
  }

  /** After nulterminate, whichever word of the command is read as a C string is intact, and
      ends where it should. */
  lemma WordsIntact(s: string, c: Cmd<Span>, buf: string, w: Span)
    requires Spanned(s, c) && WordSpan(s, w) && EndsAt(c, w.eq) && |buf| == |s| + 1 && NUL !in s
    requires forall k: nat :: k <= |s| ==> buf[k] == if EndsAt(c, k) then NUL else (s + [NUL])[k]
    ensures buf[w.q..w.eq] == s[w.q..w.eq] && buf[w.eq] == NUL && NUL !in buf[w.q..w.eq]
  {
    forall k | w.q <= k < w.eq ensures buf[k] == s[k] {
      if EndsAt(c, k) { EndsOutside(s, c, k); }
    }
    assert forall k :: w.q <= k < w.eq ==> s[k] in s;
  }

  predicate HasWord(c: Cmd<Span>, w: Span) {
    match c
    case Exec(argv) => w in argv
    case Redir(d, file, _) => HasWord(d, w) || w == file
    case Pipe(l, r) => HasWord(l, w) || HasWord(r, w)
    case List(l, r) => HasWord(l, w) || HasWord(r, w)
    case Back(d) => HasWord(d, w)
  }

  lemma {:induction false} WordEnds(s: string, c: Cmd<Span>, w: Span)
    requires Spanned(s, c) && HasWord(c, w)
    ensures WordSpan(s, w) && EndsAt(c, w.eq)
  {
    match c
    case Exec(argv) =>
    case Redir(d, _, _) => if HasWord(d, w) { WordEnds(s, d, w); }
    case Pipe(l, r) => if HasWord(l, w) { WordEnds(s, l, w); } else { WordEnds(s, r, w); }
    case List(l, r) => if HasWord(l, w) { WordEnds(s, l, w); } else { WordEnds(s, r, w); }
    case Back(d) => WordEnds(s, d, w);
  }

  /** The word, read from the buffer as a C string, is what the line had there. */
  predicate Terminated(s: string, buf: string, w: Span) {
    && w.q <= w.eq < |buf| && w.eq <= |s| && buf[w.q..w.eq] == s[w.q..w.eq] && buf[w.eq] == NUL
    && NUL !in buf[w.q..w.eq]
  }

  /** parsecmd of the line in buf, whose last character is its NUL: the tree that the grammar
      gives, each word of which is now a C string in the buffer, with nothing else changed; or
      the grammar's error. */
  method Parsecmd(buf: array<char>) returns (r: Result<Cmd<Span>>)
    requires 0 < buf.Length && buf[buf.Length - 1] == NUL && NUL !in buf[..buf.Length - 1]
    modifies buf
    ensures r == ParseCmd(old(buf[..buf.Length - 1]))
    ensures r.Panic? ==> buf[..] == old(buf[..])
    ensures r.Ok? ==> forall w: Span :: HasWord(r.value, w) ==> Terminated(old(buf[..buf.Length - 1]), buf[..], w)
    ensures r.Ok? ==> forall k: nat :: k < buf.Length && !EndsAt(r.value, k) ==> buf[k] == old(buf[k])
  {
    var s := buf[..buf.Length - 1];
    var c := Parseline(s, 0);
    if c.Panic? {
      return c;
    }
    var _, j := Peek(s, c.i, "");
    if j != |s| {
      return Panic("syntax");
    }
    r := Ok(c.value, |s|);
    CmdSpanned(s);
    Nulterminate(s, c.value, buf);
    forall w: Span | HasWord(c.value, w) ensures Terminated(s, buf[..], w) {
      WordEnds(s, c.value, w);
      WordsIntact(s, c.value, buf[..], w);
    }
  }
}
