/** Printing a command as a user would type it, with parentheses only where they are needed, and
  parsing it again with the parser of user/sh.c gives the same command. */
module ShellRoundTrip {
  import opened ShellParser

  type Tree = Cmd<string>

  predicate ValidWord(w: string) {
    w != "" && forall k :: 0 <= k < |w| ==> IsWord(w[k])
  }

  /** Words that can be typed without quoting, and not too many of them. */
  predicate ValidTree(t: Tree) {
    match t
    case Exec(args) => |args| < MAXARGS && forall k :: 0 <= k < |args| ==> ValidWord(args[k])
    case Redir(c, f, _) => ValidTree(c) && ValidWord(f)
    case Pipe(l, r) => ValidTree(l) && ValidTree(r)
    case List(l, r) => ValidTree(l) && ValidTree(r)
    case Back(c) => ValidTree(c)
  }

  function Join(args: seq<string>): string {
    if args == [] then "" else if |args| == 1 then args[0] else args[0] + " " + Join(args[1..])
  }

  function Arrow(k: Kind): string {
    match k
    case In => "<"
    case Out => ">"
    case Append => ">>"
  }

  /** How loosely a command binds: redirections bind tightest, then |, then &, then ;. */
  function Level(t: Tree): nat {
    match t
    case Exec(_) => 0
    case Redir(_, _, _) => 0
    case Pipe(_, _) => 1
    case Back(_) => 2
    case List(_, _) => 3
  }

  /** A command where one of at most this level can stand. */
  function Show(t: Tree, level: nat): string
    decreases t, 1
  {
    if Level(t) <= level then Print(t) else "(" + Print(t) + ")"
  }

  function Print(t: Tree): string
    decreases t, 0
  {
    match t
    case Exec(args) => Join(args)
    case Redir(c, f, k) => Show(c, 0) + (Arrow(k) + f)
    case Pipe(l, r) => Show(l, 0) + ("|" + Show(r, 1))
    case Back(c) => Show(c, 2) + "&"
    case List(l, r) => Show(l, 2) + (";" + Show(r, 3))
  }

  // ---------------------------------------------------------------- what the spans stand for

  function Text(s: string, w: Span): string {
    if w.q <= w.eq <= |s| then s[w.q..w.eq] else ""
  }

  function Texts(s: string, ws: seq<Span>): (r: seq<string>)
    ensures |r| == |ws|
  {
    if ws == [] then [] else [Text(s, ws[0])] + Texts(s, ws[1..])
  }

  function Resolve(s: string, c: Cmd<Span>): Tree {
    match c
    case Exec(argv) => Exec(Texts(s, argv))
    case Redir(d, f, k) => Redir(Resolve(s, d), Text(s, f), k)
    case Pipe(l, r) => Pipe(Resolve(s, l), Resolve(s, r))
    case List(l, r) => List(Resolve(s, l), Resolve(s, r))
    case Back(d) => Back(Resolve(s, d))
  }

  // ---------------------------------------------------------------- strings in the input

  /** w is in s at position i. */
  predicate At(s: string, i: nat, w: string) {
    i + |w| <= |s| && forall k :: 0 <= k < |w| ==> w[k] == s[i + k]
  }

  lemma AtConcat(s: string, i: nat, a: string, b: string)
    requires At(s, i, a + b)
    ensures At(s, i, a) && At(s, i + |a|, b)
  {
    forall k | 0 <= k < |a| ensures a[k] == s[i + k] { assert (a + b)[k] == a[k]; }
    forall k | 0 <= k < |b| ensures b[k] == s[i + |a| + k] { assert (a + b)[|a| + k] == b[k]; }
  }

  lemma AtChar(s: string, i: nat, c: char)
    requires At(s, i, [c])
    ensures i < |s| && s[i] == c
  {
    assert [c][0] == c;
  }

  /** What can come behind a line; behind a pipe of a line; behind a command of a pipe; behind a
      word. */
  predicate EndsLine(s: string, j: nat) {
    j <= |s| && (j < |s| ==> s[j] == ')')
  }

  predicate EndsPipe(s: string, j: nat) {
    j <= |s| && (j < |s| ==> s[j] == ')' || s[j] == '&' || s[j] == ';')
  }

  predicate EndsExec(s: string, j: nat) {
    j <= |s| && (j < |s| ==> s[j] == ')' || s[j] == '&' || s[j] == ';' || s[j] == '|')
  }

  predicate EndsWord(s: string, j: nat) {
    j <= |s| && (j < |s| ==> s[j] == ')' || s[j] == '&' || s[j] == ';' || s[j] == '|' || s[j] == '<' || s[j] == '>')
  }

  /** Position i is not at white space. */
  predicate Solid(s: string, i: nat) {
    i <= |s| && (i < |s| ==> !IsWs(s[i]))
  }

  lemma {:induction false} WordEndAt(s: string, i: nat, n: nat)
    requires i + n <= |s| && (forall k :: i <= k < i + n ==> IsWord(s[k])) && (i + n < |s| ==> !IsWord(s[i + n]))
    ensures WordEnd(s, i) == i + n
    decreases n
  {
    if n > 0 { WordEndAt(s, i + 1, n - 1); }
  }

  /** gettoken on a word. */
  lemma WordToken(s: string, i: nat, w: string)
    requires At(s, i, w) && ValidWord(w) && (i + |w| < |s| ==> !IsWord(s[i + |w|]))
    ensures TokenAt(s, i) == Token('a', i, i + |w|, Skip(s, i + |w|)) && Text(s, Span(i, i + |w|)) == w
    ensures i < |s| && IsWord(s[i])
  {
    forall k | i <= k < i + |w| ensures IsWord(s[k]) { assert w[k - i] == s[i + (k - i)]; }
    WordEndAt(s, i, |w|);
  }

  /** gettoken on a single symbol. */
  lemma SymbolToken(s: string, i: nat)
    requires i < |s| && IsSym(s[i]) && s[i] != '>'
    ensures TokenAt(s, i) == Token(s[i], i, i + 1, Skip(s, i + 1))
  {
  }

  /** Nothing to skip. */
  lemma NoSkip(s: string, i: nat)
    requires i <= |s| && (i < |s| ==> !IsWs(s[i]))
    ensures Skip(s, i) == i && forall toks :: Peeks(s, i, toks) == (i < |s| && s[i] in toks)
  {
  }

  lemma NoRedirs(s: string, i: nat, rs: seq<Redirection<Span>>)
    requires Solid(s, i) && (i < |s| ==> s[i] != '<' && s[i] != '>')
    ensures Redirs(s, i, rs) == Ok(rs, i)
  {
  }

  // ---------------------------------------------------------------- simple commands

  /** Where the words of a printed simple command are. */
  function WordSpans(args: seq<string>, i: nat): (r: seq<Span>)
    ensures |r| == |args|
  {
    if args == [] then [] else [Span(i, i + |args[0]|)] + WordSpans(args[1..], i + |args[0]| + 1)
  }

  predicate GoodArgs(s: string, i: nat, args: seq<string>) {
    At(s, i, Join(args)) && EndsWord(s, i + |Join(args)|) && forall k :: 0 <= k < |args| ==> ValidWord(args[k])
  }

  lemma LastArg(s: string, i: nat, w: string)
    requires At(s, i, w) && ValidWord(w) && EndsWord(s, i + |w|)
    ensures TokenAt(s, i) == Token('a', i, i + |w|, i + |w|) && i < |s| && IsWord(s[i])
    ensures Text(s, Span(i, i + |w|)) == w
  {
    WordToken(s, i, w);
    NoSkip(s, i + |w|);
  }

  /** A word, a space, and more words. */
  lemma FirstArg(s: string, i: nat, w: string, rest: string)
    requires At(s, i, w + " " + rest) && ValidWord(w) && rest != "" && IsWord(rest[0])
    ensures TokenAt(s, i) == Token('a', i, i + |w|, i + |w| + 1) && i < |s| && IsWord(s[i])
    ensures Text(s, Span(i, i + |w|)) == w
    ensures At(s, i + |w| + 1, rest) && i + |w| + 1 < |s| && IsWord(s[i + |w| + 1])
  {
    AtConcat(s, i, w + " ", rest);
    AtConcat(s, i, w, " ");
    AtChar(s, i + |w|, ' ');
    WordToken(s, i, w);
    Starts(s, i + |w| + 1, rest);
  }

  lemma Starts(s: string, i: nat, w: string)
    requires At(s, i, w) && w != ""
    ensures i < |s| && s[i] == w[0]
  {
    assert w[0] == s[i + 0];
  }

  lemma JoinMore(args: seq<string>)
    requires |args| > 1 && forall k :: 0 <= k < |args| ==> ValidWord(args[k])
    ensures Join(args) == args[0] + " " + Join(args[1..]) && Join(args[1..]) != "" && IsWord(Join(args[1..])[0])
  {
    var rest := args[1..];
    assert rest[0] == args[1] && ValidWord(args[1]);
    assert Join(rest)[0] == rest[0][0];
  }

  /** What is left to do for parseexec or parseblock that has got to j: more redirections, and
      more words unless it is a block. */
  function Finish(s: string, j: nat, core: Cmd<Span>, rs: seq<Redirection<Span>>, block: bool): Result<Cmd<Span>>
    requires j <= |s| && (block || core.Exec?)
  {
    match Redirs(s, j, rs)
    case Panic(m) => Panic(m)
    case Ok(rs', k) => if block then Ok(Wrap(core, rs'), k) else ExecRest(s, k, core.argv, rs')
  }

  /** One turn of parseexec's loop, on a word. */
  lemma ArgsStep(s: string, i: nat, argv: seq<Span>, eq: nat, j: nat)
    requires i < |s| && IsWord(s[i]) && TokenAt(s, i) == Token('a', i, eq, j) && |argv| + 1 < MAXARGS
    ensures j <= |s| && ExecRest(s, i, argv, []) == Finish(s, j, Exec(argv + [Span(i, eq)]), [], false)
  {
    NoSkip(s, i);
  }

  /** Parsing the rest of a simple command gets to e with these words. */
  predicate Yields(s: string, i: nat, argv: seq<Span>, all: seq<Span>, e: nat) {
    i <= |s| && e <= |s| && ExecRest(s, i, argv, []) == Finish(s, e, Exec(all), [], false)
  }

  lemma OneArg(s: string, i: nat, w: string, argv: seq<Span>)
    requires At(s, i, w) && ValidWord(w) && EndsWord(s, i + |w|) && |argv| + 1 < MAXARGS
    ensures Yields(s, i, argv, argv + [Span(i, i + |w|)], i + |w|)
  {
    LastArg(s, i, w);
    ArgsStep(s, i, argv, i + |w|, i + |w|);
  }

  /** A word, a space, and what parsing the rest gives. */
  lemma MoreArgs(s: string, i: nat, w: string, rest: string, argv: seq<Span>, all: seq<Span>, e: nat)
    requires At(s, i, w + " " + rest) && ValidWord(w) && rest != "" && IsWord(rest[0]) && |argv| + 1 < MAXARGS
    requires Yields(s, i + |w| + 1, argv + [Span(i, i + |w|)], all, e)
    ensures Yields(s, i, argv, all, e)
  {
    FirstArg(s, i, w, rest);
    ArgsGoOn(s, i, argv, i + |w|, i + |w| + 1, all, e);
  }

  lemma ArgsGoOn(s: string, i: nat, argv: seq<Span>, eq: nat, j: nat, all: seq<Span>, e: nat)
    requires i < |s| && IsWord(s[i]) && TokenAt(s, i) == Token('a', i, eq, j) && |argv| + 1 < MAXARGS
    requires j < |s| && IsWord(s[j]) && Yields(s, j, argv + [Span(i, eq)], all, e)
    ensures Yields(s, i, argv, all, e)
  {
    NoRedirs(s, j, []);
    ArgsStep(s, i, argv, eq, j);
  }

  /** What is left after the first of several words. */
  lemma RestArgs(s: string, i: nat, args: seq<string>)
    requires GoodArgs(s, i, args) && |args| > 1
    ensures var w, rest := args[0], args[1..];
      && At(s, i, w + " " + Join(rest)) && ValidWord(w) && Join(rest) != "" && IsWord(Join(rest)[0])
      && GoodArgs(s, i + |w| + 1, rest) && |Join(args)| == |w| + 1 + |Join(rest)|
  {
    JoinMore(args);
    FirstArg(s, i, args[0], Join(args[1..]));
  }

  lemma RestSpans(argv: seq<Span>, args: seq<string>, i: nat)
    requires args != []
    ensures argv + WordSpans(args, i) == (argv + [Span(i, i + |args[0]|)]) + WordSpans(args[1..], i + |args[0]| + 1)
  {
  }

  lemma {:induction false} ArgsBack(s: string, i: nat, args: seq<string>, argv: seq<Span>, all: seq<Span>, e: nat)
    requires GoodArgs(s, i, args) && args != [] && |argv| + |args| < MAXARGS
    requires all == argv + WordSpans(args, i) && e == i + |Join(args)|
    ensures Yields(s, i, argv, all, e)
    decreases |args|
  {
    if |args| == 1 {
      ArgsOne(s, i, args, argv, all, e);
    } else {
      RestGood(s, i, args);
      RestSpans(argv, args, i);
      ArgsBack(s, i + |args[0]| + 1, args[1..], argv + [Span(i, i + |args[0]|)], all, e);
      ArgsMore(s, i, args, argv, all, e);
    }
  }

  lemma ArgsOne(s: string, i: nat, args: seq<string>, argv: seq<Span>, all: seq<Span>, e: nat)
    requires GoodArgs(s, i, args) && |args| == 1 && |argv| + 1 < MAXARGS
    requires all == argv + WordSpans(args, i) && e == i + |Join(args)|
    ensures Yields(s, i, argv, all, e)
  {
    assert all == argv + [Span(i, i + |args[0]|)];
    OneArg(s, i, args[0], argv);
  }

  lemma RestGood(s: string, i: nat, args: seq<string>)
    requires GoodArgs(s, i, args) && |args| > 1
    ensures GoodArgs(s, i + |args[0]| + 1, args[1..]) && |Join(args)| == |args[0]| + 1 + |Join(args[1..])|
  {
    RestArgs(s, i, args);
  }

  lemma ArgsMore(s: string, i: nat, args: seq<string>, argv: seq<Span>, all: seq<Span>, e: nat)
    requires GoodArgs(s, i, args) && |args| > 1 && |argv| + 1 < MAXARGS
    requires Yields(s, i + |args[0]| + 1, argv + [Span(i, i + |args[0]|)], all, e)
    ensures Yields(s, i, argv, all, e)
  {
    RestArgs(s, i, args);
    MoreArgs(s, i, args[0], Join(args[1..]), argv, all, e);
  }

  lemma TextsCons(s: string, w: Span, ws: seq<Span>)
    ensures Texts(s, [w] + ws) == [Text(s, w)] + Texts(s, ws)
  {
    assert ([w] + ws)[1..] == ws;
  }

  lemma {:induction false} TextsBack(s: string, i: nat, args: seq<string>)
    requires GoodArgs(s, i, args)
    ensures Texts(s, WordSpans(args, i)) == args
    decreases |args|
  {
    if args != [] {
      var w := args[0];
      TextsCons(s, Span(i, i + |w|), WordSpans(args[1..], i + |w| + 1));
      assert args == [w] + args[1..];
      if |args| == 1 {
        LastArg(s, i, w);
      } else {
        RestArgs(s, i, args);
        FirstArg(s, i, w, Join(args[1..]));
        TextsBack(s, i + |w| + 1, args[1..]);
      }
    }
  }

  /** A printed simple command starts with a word, unless it is empty. */
  lemma ArgsStart(s: string, i: nat, args: seq<string>)
    requires GoodArgs(s, i, args)
    ensures args == [] ==> EndsWord(s, i)
    ensures args != [] ==> i < |s| && IsWord(s[i])
  {
    if args != [] {
      assert Join(args) != "" && Join(args)[0] == args[0][0];
      Starts(s, i, Join(args));
    }
  }

  // ---------------------------------------------------------------- redirections and blocks

  /** Reading the command at i, the parser has got to j with this part of it. */
  predicate InExec(s: string, i: nat, j: nat, core: Cmd<Span>, rs: seq<Redirection<Span>>, block: bool) {
    i <= |s| && j <= |s| && (block || core.Exec?) && ParseExec(s, i) == Finish(s, j, core, rs, block)
  }

  lemma SimpleStart(s: string, i: nat, args: seq<string>, all: seq<Span>, e: nat)
    requires GoodArgs(s, i, args) && |args| < MAXARGS && all == WordSpans(args, i) && e == i + |Join(args)|
    ensures InExec(s, i, e, Exec(all), [], false)
  {
    ArgsStart(s, i, args);
    if args == [] {
      EmptyStart(s, i);
    } else {
      assert [] + all == all;
      ArgsBack(s, i, args, [], all, e);
      WordsStart(s, i, all, e);
    }
  }

  lemma EmptyStart(s: string, i: nat)
    requires EndsWord(s, i)
    ensures InExec(s, i, i, Exec([]), [], false)
  {
    NoSkip(s, i);
  }

  lemma WordsStart(s: string, i: nat, all: seq<Span>, e: nat)
    requires i < |s| && IsWord(s[i]) && Yields(s, i, [], all, e)
    ensures InExec(s, i, e, Exec(all), [], false)
  {
    NoSkip(s, i);
    NoRedirs(s, i, []);
  }

  /** ( line ) */
  lemma BlockStart(s: string, i: nat, j: nat)
    requires i < |s| && s[i] == '(' && Solid(s, i + 1) && ParseLine(s, i + 1).Ok? && ParseLine(s, i + 1).i == j
    requires j < |s| && s[j] == ')' && Solid(s, j + 1)
    ensures InExec(s, i, j + 1, ParseLine(s, i + 1).value, [], true)
  {
    NoSkip(s, i);
    NoSkip(s, i + 1);
    NoSkip(s, j);
    NoSkip(s, j + 1);
    SymbolToken(s, i);
    SymbolToken(s, j);
  }

  lemma ArrowToken(s: string, i: nat, k: Kind)
    requires At(s, i, Arrow(k)) && i + |Arrow(k)| < |s| && IsWord(s[i + |Arrow(k)|])
    ensures i < |s| && TokenAt(s, i).next == i + |Arrow(k)| && KindOf(TokenAt(s, i).kind) == k && Peeks(s, i, "<>")
  {
    assert Arrow(k)[0] == s[i + 0];
    if k == Append { assert Arrow(k)[1] == s[i + 1]; }
    NoSkip(s, i);
    NoSkip(s, i + |Arrow(k)|);
  }

  /** One redirection more. */
  lemma NextRedir(s: string, i: nat, j: nat, core: Cmd<Span>, rs: seq<Redirection<Span>>, block: bool, k: Kind,
      f: string, q: nat, e: nat)
    requires InExec(s, i, j, core, rs, block) && At(s, j, Arrow(k) + f) && ValidWord(f)
    requires q == j + |Arrow(k)| && e == q + |f| && EndsWord(s, e)
    ensures InExec(s, i, e, core, rs + [Redirection(Span(q, e), k)], block) && Text(s, Span(q, e)) == f
  {
    RedirToken(s, j, k, f, q, e);
    RedirsStep(s, j, rs);
  }

  lemma RedirToken(s: string, j: nat, k: Kind, f: string, q: nat, e: nat)
    requires At(s, j, Arrow(k) + f) && ValidWord(f) && q == j + |Arrow(k)| && e == q + |f| && EndsWord(s, e)
    ensures j < |s| && Peeks(s, j, "<>") && TokenAt(s, j).next == q && KindOf(TokenAt(s, j).kind) == k
    ensures TokenAt(s, q) == Token('a', q, e, e) && Text(s, Span(q, e)) == f
  {
    AtConcat(s, j, Arrow(k), f);
    LastArg(s, q, f);
    ArrowToken(s, j, k);
  }

  lemma WrapMore(core: Cmd<Span>, rs: seq<Redirection<Span>>, r: Redirection<Span>)
    ensures Wrap(core, rs + [r]) == Redir(Wrap(core, rs), r.file, r.kind)
  {
    assert (rs + [r])[..|rs|] == rs;
  }

  lemma ExecEnds(s: string, i: nat, j: nat, core: Cmd<Span>, rs: seq<Redirection<Span>>, block: bool)
    requires InExec(s, i, j, core, rs, block) && EndsExec(s, j)
    ensures ParseExec(s, i) == Ok(Wrap(core, rs), j)
  {
    NoSkip(s, j);
    NoRedirs(s, j, rs);
  }

  // ---------------------------------------------------------------- pipes, & and ;

  /** The parser functions read t from i to j. */
  predicate ReadsTree(s: string, r: Result<Cmd<Span>>, t: Tree, j: nat) {
    r.Ok? && r.i == j && Resolve(s, r.value) == t
  }

  predicate ExecIs(s: string, i: nat, t: Tree, j: nat) {
    i <= |s| && j <= |s| && ReadsTree(s, ParseExec(s, i), t, j)
  }

  predicate PipeIs(s: string, i: nat, t: Tree, j: nat) {
    i <= |s| && j <= |s| && ReadsTree(s, ParsePipe(s, i), t, j)
  }

  predicate LineIs(s: string, i: nat, t: Tree, j: nat) {
    i <= |s| && j <= |s| && ReadsTree(s, ParseLine(s, i), t, j)
  }

  /** In parseline's loop over &, the parser has got to j with c. */
  predicate InLine(s: string, i: nat, j: nat, c: Cmd<Span>) {
    && i <= |s| && j <= |s| && ParsePipe(s, i).Ok?
    && Backs(s, ParsePipe(s, i).i, ParsePipe(s, i).value) == Backs(s, j, c)
  }

  lemma PipeOne(s: string, i: nat, t: Tree, j: nat)
    requires ExecIs(s, i, t, j) && EndsPipe(s, j)
    ensures PipeIs(s, i, t, j)
  {
    NoSkip(s, j);
  }

  lemma PipeTwo(s: string, i: nat, l: Tree, j: nat, r: Tree, k: nat)
    requires ExecIs(s, i, l, j) && j < |s| && s[j] == '|' && Solid(s, j + 1) && PipeIs(s, j + 1, r, k)
    ensures PipeIs(s, i, Pipe(l, r), k)
  {
    NoSkip(s, j);
    NoSkip(s, j + 1);
    SymbolToken(s, j);
  }

  lemma NextAmp(s: string, i: nat, j: nat, c: Cmd<Span>)
    requires InLine(s, i, j, c) && j < |s| && s[j] == '&' && Solid(s, j + 1)
    ensures InLine(s, i, j + 1, Back(c))
  {
    NoSkip(s, j);
    NoSkip(s, j + 1);
    SymbolToken(s, j);
  }

  lemma LineOne(s: string, i: nat, j: nat, c: Cmd<Span>)
    requires InLine(s, i, j, c) && EndsLine(s, j)
    ensures LineIs(s, i, Resolve(s, c), j)
  {
    NoSkip(s, j);
  }

  lemma LineTwo(s: string, i: nat, j: nat, c: Cmd<Span>, r: Tree, k: nat)
    requires InLine(s, i, j, c) && j < |s| && s[j] == ';' && Solid(s, j + 1) && LineIs(s, j + 1, r, k)
    ensures LineIs(s, i, List(Resolve(s, c), r), k)
  {
    NoSkip(s, j);
    NoSkip(s, j + 1);
    SymbolToken(s, j);
  }

  // ---------------------------------------------------------------- the round trip

  /** A printed command does not start with white space. */
  lemma {:induction false} PrintStarts(t: Tree, level: nat)
    requires ValidTree(t)
    ensures Show(t, level) != "" ==> !IsWs(Show(t, level)[0])
    ensures Print(t) != "" ==> !IsWs(Print(t)[0])
    decreases t
  {
    match t
    case Exec(args) => if args != [] { assert Join(args)[0] == args[0][0]; }
    case Redir(c, f, k) => PrintStarts(c, 0);
    case Pipe(l, r) => PrintStarts(l, 0);
    case Back(c) => PrintStarts(c, 2);
    case List(l, r) => PrintStarts(l, 2);
  }

  /** Nor does the place where it is printed. */
  lemma SolidAt(s: string, i: nat, t: Tree, level: nat)
    requires ValidTree(t) && At(s, i, Show(t, level)) && Solid(s, i + |Show(t, level)|)
    ensures Solid(s, i)
  {
    PrintStarts(t, level);
    if Show(t, level) != "" { Starts(s, i, Show(t, level)); }
  }

  /** The characters around a command in parentheses. */
  lemma ParensAt(s: string, i: nat, t: Tree)
    requires At(s, i, "(" + Print(t) + ")") && ValidTree(t)
    ensures i < |s| && s[i] == '(' && At(s, i + 1, Print(t)) && Solid(s, i + 1)
    ensures var j := i + 1 + |Print(t)|; j < |s| && s[j] == ')'
  {
    AtConcat(s, i, "(" + Print(t), ")");
    AtConcat(s, i, "(", Print(t));
    AtChar(s, i, '(');
    AtChar(s, i + 1 + |Print(t)|, ')');
    SolidAt(s, i + 1, t, 3);
  }

  /** Two parts with a symbol between them. */
  lemma SymbolAt(s: string, i: nat, a: string, c: char, b: string, j: nat)
    requires At(s, i, a + ([c] + b)) && j == i + |a|
    ensures At(s, i, a) && j < |s| && s[j] == c && At(s, j + 1, b)
  {
    AtConcat(s, i, a, [c] + b);
    AtConcat(s, j, [c], b);
    AtChar(s, j, c);
  }

  /** ( line ), with more to come. */
  lemma {:induction false} ParensTrip(s: string, i: nat, t: Tree, e: nat) returns (core: Cmd<Span>)
    requires ValidTree(t) && At(s, i, "(" + Print(t) + ")") && e == i + 2 + |Print(t)| && Solid(s, e)
    ensures InExec(s, i, e, core, [], true) && Resolve(s, core) == t
    decreases t, 3
  {
    ParensAt(s, i, t);
    LineRoundTrip(s, i + 1, t, e - 1);
    BlockStart(s, i, e - 1);
    core := ParseLine(s, i + 1).value;
  }

  /** A simple command or a block with redirections, and maybe more to come. */
  lemma {:induction false} ExecTrip(s: string, i: nat, t: Tree, e: nat)
    returns (core: Cmd<Span>, rs: seq<Redirection<Span>>, block: bool)
    requires ValidTree(t) && Level(t) == 0 && At(s, i, Print(t)) && e == i + |Print(t)| && EndsWord(s, e)
    ensures InExec(s, i, e, core, rs, block) && Resolve(s, Wrap(core, rs)) == t
    decreases t, 0
  {
    match t
    case Exec(args) =>
      SimpleStart(s, i, args, WordSpans(args, i), e);
      TextsBack(s, i, args);
      core, rs, block := Exec(WordSpans(args, i)), [], false;
    case Redir(c, f, k) =>
      var j := i + |Show(c, 0)|;
      RedirAt(s, i, Show(c, 0), j, k, f);
      if Level(c) == 0 {
        core, rs, block := ExecTrip(s, i, c, j);
      } else {
        core := ParensTrip(s, i, c, j);
        rs, block := [], true;
      }
      rs := RedirTrip(s, i, j, core, rs, block, c, k, f, e);
  }

  lemma RedirAt(s: string, i: nat, a: string, j: nat, k: Kind, f: string)
    requires At(s, i, a + (Arrow(k) + f)) && j == i + |a|
    ensures At(s, i, a) && At(s, j, Arrow(k) + f) && EndsWord(s, j) && Solid(s, j)
  {
    AtConcat(s, i, a, Arrow(k) + f);
    Starts(s, j, Arrow(k) + f);
  }

  lemma RedirTrip(s: string, i: nat, j: nat, core: Cmd<Span>, rs: seq<Redirection<Span>>, block: bool, c: Tree, k: Kind,
      f: string, e: nat)
    returns (more: seq<Redirection<Span>>)
    requires InExec(s, i, j, core, rs, block) && Resolve(s, Wrap(core, rs)) == c
    requires At(s, j, Arrow(k) + f) && ValidWord(f) && e == j + |Arrow(k) + f| && EndsWord(s, e)
    ensures InExec(s, i, e, core, more, block) && Resolve(s, Wrap(core, more)) == Redir(c, f, k)
  {
    var q := j + |Arrow(k)|;
    NextRedir(s, i, j, core, rs, block, k, f, q, e);
    WrapMore(core, rs, Redirection(Span(q, e), k));
    more := rs + [Redirection(Span(q, e), k)];
  }

  lemma {:induction false} ShowExec(s: string, i: nat, t: Tree, e: nat)
    requires ValidTree(t) && At(s, i, Show(t, 0)) && e == i + |Show(t, 0)| && EndsExec(s, e)
    ensures ExecIs(s, i, t, e)
    decreases t, 4
  {
    if Level(t) == 0 {
      var core, rs, block := ExecTrip(s, i, t, e);
      ExecEnds(s, i, e, core, rs, block);
    } else {
      var core := ParensTrip(s, i, t, e);
      ExecEnds(s, i, e, core, [], true);
    }
  }

  lemma PipeAt(s: string, i: nat, l: Tree, r: Tree, j: nat, e: nat)
    requires ValidTree(r) && At(s, i, Show(l, 0) + ("|" + Show(r, 1))) && j == i + |Show(l, 0)|
    requires e == j + 1 + |Show(r, 1)| && EndsPipe(s, e)
    ensures At(s, i, Show(l, 0)) && j < |s| && s[j] == '|' && At(s, j + 1, Show(r, 1)) && Solid(s, j + 1)
  {
    SymbolAt(s, i, Show(l, 0), '|', Show(r, 1), j);
    SolidAt(s, j + 1, r, 1);
  }

  lemma {:induction false} PipeTrip(s: string, i: nat, l: Tree, r: Tree, e: nat)
    requires ValidTree(l) && ValidTree(r) && At(s, i, Show(l, 0) + ("|" + Show(r, 1)))
    requires e == i + |Show(l, 0)| + 1 + |Show(r, 1)| && EndsPipe(s, e)
    ensures PipeIs(s, i, Pipe(l, r), e)
    decreases Pipe(l, r), 1
  {
    var j := i + |Show(l, 0)|;
    PipeAt(s, i, l, r, j, e);
    ShowExec(s, i, l, j);
    ShowPipe(s, j + 1, r, e);
    PipeTwo(s, i, l, j, r, e);
  }

  lemma {:induction false} ShowPipe(s: string, i: nat, t: Tree, e: nat)
    requires ValidTree(t) && At(s, i, Show(t, 1)) && e == i + |Show(t, 1)| && EndsPipe(s, e)
    ensures PipeIs(s, i, t, e)
    decreases t, 5
  {
    if t.Pipe? {
      PipeTrip(s, i, t.left, t.right, e);
    } else {
      ShowExec(s, i, t, e);
      PipeOne(s, i, t, e);
    }
  }

  lemma {:induction false} BackTrip(s: string, i: nat, c: Tree, e: nat) returns (b: Cmd<Span>)
    requires ValidTree(c) && At(s, i, Print(Back(c))) && e == i + |Print(Back(c))| && EndsPipe(s, e)
    ensures InLine(s, i, e, b) && Resolve(s, b) == Back(c)
    decreases Back(c), 1
  {
    AtConcat(s, i, Show(c, 2), "&");
    AtChar(s, e - 1, '&');
    b := ShowBack(s, i, c, e - 1);
    NextAmp(s, i, e - 1, b);
    b := Back(b);
  }

  lemma {:induction false} ShowBack(s: string, i: nat, t: Tree, e: nat) returns (b: Cmd<Span>)
    requires ValidTree(t) && At(s, i, Show(t, 2)) && e == i + |Show(t, 2)| && EndsPipe(s, e)
    ensures InLine(s, i, e, b) && Resolve(s, b) == t
    decreases t, 6
  {
    if t.Back? {
      b := BackTrip(s, i, t.cmd, e);
    } else {
      ShowPipe(s, i, t, e);
      b := ParsePipe(s, i).value;
    }
  }

  lemma ListAt(s: string, i: nat, l: Tree, r: Tree, j: nat, e: nat)
    requires ValidTree(r) && At(s, i, Show(l, 2) + (";" + Show(r, 3))) && j == i + |Show(l, 2)|
    requires e == j + 1 + |Print(r)| && EndsLine(s, e)
    ensures At(s, i, Show(l, 2)) && j < |s| && s[j] == ';' && At(s, j + 1, Print(r)) && Solid(s, j + 1)
  {
    SymbolAt(s, i, Show(l, 2), ';', Show(r, 3), j);
    SolidAt(s, j + 1, r, 3);
  }

  lemma {:induction false} ListTrip(s: string, i: nat, l: Tree, r: Tree, e: nat)
    requires ValidTree(List(l, r)) && At(s, i, Print(List(l, r))) && e == i + |Print(List(l, r))| && EndsLine(s, e)
    ensures LineIs(s, i, List(l, r), e)
    decreases List(l, r), 1
  {
    var j := i + |Show(l, 2)|;
    ListAt(s, i, l, r, j, e);
    var b := ShowBack(s, i, l, j);
    LineRoundTrip(s, j + 1, r, e);
    LineTwo(s, i, j, b, r, e);
  }

  /** Parsing what Print prints gives the command back. */
  lemma {:induction false} LineRoundTrip(s: string, i: nat, t: Tree, e: nat)
    requires ValidTree(t) && At(s, i, Print(t)) && e == i + |Print(t)| && EndsLine(s, e)
    ensures LineIs(s, i, t, e)
    decreases t, 2
  {
    match t
    case List(l, r) => ListTrip(s, i, l, r, e);
    case Back(c) =>
      var b := BackTrip(s, i, c, e);
      LineOne(s, i, e, b);
    case Pipe(l, r) =>
      PipeTrip(s, i, l, r, e);
      LineOne(s, i, e, ParsePipe(s, i).value);
    case _ =>
      var core, rs, block := ExecTrip(s, i, t, e);
      ExecEnds(s, i, e, core, rs, block);
      PipeOne(s, i, t, e);
      LineOne(s, i, e, ParsePipe(s, i).value);
  }

  /** parsecmd of a printed command is that command. */
  lemma RoundTrip(t: Tree)
    requires ValidTree(t)
    ensures var r := ParseCmd(Print(t)); r.Ok? && Resolve(Print(t), r.value) == t
  {
    LineRoundTrip(Print(t), 0, t, |Print(t)|);
    NoSkip(Print(t), |Print(t)|);
  }
}
