/**
 The slash-command parser (src/command-core/parser.ts): a scanner for quoted and
 escaped arguments, and the exact set of commands that survive being written
 out with quotes and parsed again.

 `toLowerCase` is the parameter `lower`.
 */
module CommandParser {
  import opened Common

  /** What `\s` and `trim` take for white space. */
  predicate IsSpace(c: char) {
    || c == ' ' || '\t' <= c <= '\r' || c == '\U{A0}' || c == '\U{1680}' || '\U{2000}' <= c <= '\U{200A}'
    || c == '\U{2028}' || c == '\U{2029}' || c == '\U{202F}' || c == '\U{205F}' || c == '\U{3000}' || c == '\U{FEFF}'
  }

  /** What `.` does not match. */
  predicate EndsLine(c: char) {
    c == '\n' || c == '\r' || c == '\U{2028}' || c == '\U{2029}'
  }

  predicate IsQuote(c: char) {
    c == '"' || c == '\''
  }

  /** `unescapeString`: a backslash before anything but a line end is dropped, and what follows it is kept. */
  function Unescape(s: string): string {
    if s == "" then ""
    else if s[0] == '\\' && |s| > 1 && !EndsLine(s[1]) then [s[1]] + Unescape(s[2..])
    else [s[0]] + Unescape(s[1..])
  }

  // --------------------------------------------------------------------- the scanner

  datatype Scanner = Scanner(args: seq<string>, current: string, quote: Option<char>, escaped: bool)

  const Start := Scanner([], "", None, false)

  /** Finish the argument under way, if it has any character. */
  function Close(st: Scanner): seq<string> {
    if st.current == "" then st.args else st.args + [Unescape(st.current)]
  }

  /** Inside quotes, a backslash before either quote stands for that quote. */
  predicate TakesTwo(st: Scanner, s: string) {
    !st.escaped && st.quote.Some? && |s| > 1 && s[0] == '\\' && IsQuote(s[1])
  }

  function Advance(st: Scanner, s: string): Scanner
    requires s != ""
  {
    var c := s[0];
    if st.escaped then st.(current := st.current + [c], escaped := false)
    else if TakesTwo(st, s) then st.(current := st.current + [s[1]])
    else if c == '\\' && st.quote.None? then st.(escaped := true)
    else if IsQuote(c) && st.quote.None? then st.(quote := Some(c))
    else if IsQuote(c) && st.quote == Some(c) then st.(quote := None)
    else if IsSpace(c) && st.quote.None? then Scanner(Close(st), "", None, false)
    else st.(current := st.current + [c])
  }

  function Scan(st: Scanner, s: string): seq<string>
    decreases |s|
  {
    if s == "" then Close(st) else Scan(Advance(st, s), s[if TakesTwo(st, s) then 2 else 1..])
  }

  /** `parseArgs`. */
  method ParseArgs(input: string) returns (args: seq<string>)
    ensures args == Scan(Start, input)
  {
    args := [];
    var current: string := "";
    var inQuotes: Option<char> := None;
    var escaped := false;
    var i := 0;
    while i < |input|
      invariant 0 <= i <= |input|
      invariant Scan(Scanner(args, current, inQuotes, escaped), input[i..]) == Scan(Start, input)
    {
      var c := input[i];
      ghost var s := input[i..];
      assert s[1..] == input[i + 1..] && (|s| > 1 ==> s[1] == input[i + 1] && s[2..] == input[i + 2..]);
      i := i + 1;
      if escaped {
        current := current + [c];
        escaped := false;
        continue;
      }
      if c == '\\' && inQuotes.Some? && i < |input| && IsQuote(input[i]) {
        current := current + [input[i]];
        i := i + 1;
        continue;
      }
      if c == '\\' && inQuotes.None? {
        escaped := true;
        continue;
      }
      if IsQuote(c) {
        if inQuotes.None? {
          inQuotes := Some(c);
        } else if inQuotes == Some(c) {
          inQuotes := None;
        } else {
          current := current + [c];
        }
        continue;
      }
      if IsSpace(c) && inQuotes.None? {
        if |current| > 0 {
          args := args + [Unescape(current)];
          current := "";
        }
        continue;
      }
      current := current + [c];
    }
    if |current| > 0 {
      args := args + [Unescape(current)];
    }
  }

  // --------------------------------------------------------------------- the command

  datatype Parsed = Parsed(command: string, args: seq<string>, rawInput: string, isEscaped: bool)

  function TrimStart(s: string): string {
    if s != "" && IsSpace(s[0]) then TrimStart(s[1..]) else s
  }

  function TrimEnd(s: string): string {
    if s != "" && IsSpace(s[|s| - 1]) then TrimEnd(s[..|s| - 1]) else s
  }

  function Trim(s: string): string {
    TrimEnd(TrimStart(s))
  }

  /** The index of the first white space, or the length. */
  function FirstSpace(s: string): (i: nat)
    ensures i <= |s| && (i < |s| ==> IsSpace(s[i]))
    ensures forall k :: 0 <= k < i ==> !IsSpace(s[k])
  {
    if s == "" || IsSpace(s[0]) then 0 else 1 + FirstSpace(s[1..])
  }

  /** The text before the first white space, and the trimmed text after it. */
  function Split(body: string): (string, string) {
    var i := FirstSpace(body);
    (body[..i], if i == |body| then "" else Trim(body[i + 1..]))
  }

  function ParsedCommand(input: string, lower: string -> string): Option<Parsed> {
    var trimmed := Trim(input);
    if "//" <= trimmed then Some(Parsed("", [], trimmed[2..], true))
    else if !("/" <= trimmed) then None
    else
      var (name, rest) := Split(trimmed[1..]);
      Some(Parsed(lower(name), Scan(Start, rest), trimmed, false))
  }

  /** `parseCommand`. */
  method ParseCommand(input: string, lower: string -> string) returns (r: Option<Parsed>)
    ensures r == ParsedCommand(input, lower)
  {
    var trimmed := Trim(input);
    if "//" <= trimmed {
      return Some(Parsed("", [], trimmed[2..], true));
    }
    if !("/" <= trimmed) {
      return None;
    }
    var body := trimmed[1..];
    var i := FirstSpace(body);
    var rest := "";
    if i < |body| {
      rest := Trim(body[i + 1..]);
    }
    var args := ParseArgs(rest);
    return Some(Parsed(lower(body[..i]), args, trimmed, false));
  }

  // -------------------------------------------------------------- writing a command out

  function EscapeChar(c: char): string {
    if c == '"' then ['\\', '"'] else [c]
  }

  function Escape(a: string): string {
    if a == "" then "" else EscapeChar(a[0]) + Escape(a[1..])
  }

  function Quoted(a: string): string {
    "\"" + Escape(a) + "\""
  }

  function Written(args: seq<string>): string {
    if args == [] then "" else " " + Quoted(args[0]) + Written(args[1..])
  }

  function Rendered(name: string, args: seq<string>): string {
    "/" + name + Written(args)
  }

  predicate Spaceless(s: string) {
    forall i :: 0 <= i < |s| ==> !IsSpace(s[i])
  }

  predicate PlainName(name: string, lower: string -> string) {
    Spaceless(name) && !("/" <= name) && lower(name) == name
  }

  /** Every backslash stands before a line end; in particular, an argument without backslashes. */
  predicate Unharmed(a: string) {
    forall i :: 0 <= i < |a| && a[i] == '\\' ==> i + 1 < |a| && EndsLine(a[i + 1])
  }

  predicate Plain(a: string) {
    a != "" && Unharmed(a)
  }

  // ---------------------------------------------------------------------- small facts

  function Quotes(s: string): nat {
    if s == "" then 0 else (if s[0] == '"' then 1 else 0) + Quotes(s[1..])
  }

  lemma {:induction false} QuotesAppend(s: string, t: string)
    ensures Quotes(s + t) == Quotes(s) + Quotes(t)
  {
    if s == "" {
      assert s + t == t;
    } else {
      QuotesAppend(s[1..], t);
      assert (s + t)[1..] == s[1..] + t;
    }
  }

  lemma {:induction false} UnescapeFacts(s: string)
    ensures Quotes(Unescape(s)) == Quotes(s)
    ensures |Unescape(s)| <= |s| && (s != "" ==> Unescape(s) != "")
    ensures (exists i :: 0 <= i < |s| - 1 && s[i] == '\\' && !EndsLine(s[i + 1])) ==> |Unescape(s)| < |s|
    decreases |s|
  {
    if s != "" {
      if s[0] == '\\' && |s| > 1 && !EndsLine(s[1]) {
        UnescapeFacts(s[2..]);
        assert s[1..][1..] == s[2..];
        assert Quotes(s) == Quotes(s[1..]);
        QuotesAppend([s[1]], Unescape(s[2..]));
      } else {
        UnescapeFacts(s[1..]);
        QuotesAppend([s[0]], Unescape(s[1..]));
        forall i | 0 <= i < |s| - 1 && s[i] == '\\' && !EndsLine(s[i + 1])
          ensures |Unescape(s)| < |s|
        {
          assert s[1..][i - 1] == '\\' && s[1..][i] == s[i + 1];
        }
      }
    }
  }

  lemma {:induction false} UnescapeUnharmed(a: string)
    requires Unharmed(a)
    ensures Unescape(a) == a
  {
    if a != "" {
      UnharmedTail(a);
      UnescapeUnharmed(a[1..]);
    }
  }

  /** What the scanner keeps of an argument written between double quotes. */
  function Kept(a: string): string {
    if a == "" then ""
    else if a[0] == '\\' && |a| > 1 && a[1] == '\'' then "'" + Kept(a[2..])
    else [a[0]] + Kept(a[1..])
  }

  lemma {:induction false} KeptQuotes(a: string)
    ensures Quotes(Kept(a)) == Quotes(a)
    decreases |a|
  {
    if a != "" {
      if a[0] == '\\' && |a| > 1 && a[1] == '\'' {
        KeptQuotes(a[2..]);
        assert a[1..][1..] == a[2..];
        QuotesAppend("'", Kept(a[2..]));
        assert Quotes("'") == 0;
        assert Quotes(a) == Quotes(a[1..]);
      } else {
        KeptQuotes(a[1..]);
        QuotesAppend([a[0]], Kept(a[1..]));
      }
    }
  }

  lemma {:induction false} KeptLength(a: string)
    ensures |Kept(a)| <= |a| && (|Kept(a)| == |a| ==> Kept(a) == a) && (a != "" ==> Kept(a) != "")
    decreases |a|
  {
    if a != "" {
      if a[0] == '\\' && |a| > 1 && a[1] == '\'' {
        KeptLength(a[2..]);
      } else {
        KeptLength(a[1..]);
      }
    }
  }

  lemma UnharmedTail(a: string)
    requires a != "" && Unharmed(a)
    ensures Unharmed(a[1..])
  {
    forall i | 0 <= i < |a[1..]| && a[1..][i] == '\\'
      ensures i + 1 < |a[1..]| && EndsLine(a[1..][i + 1])
    {
      assert a[i + 1] == '\\';
    }
  }

  lemma {:induction false} KeptUnharmed(a: string)
    requires Unharmed(a)
    ensures Kept(a) == a
  {
    if a != "" {
      UnharmedTail(a);
      KeptUnharmed(a[1..]);
    }
  }

  // ------------------------------------------------------------ how the scanner proceeds

  /** The scanner only appends to the list, and what is under way becomes its next argument. */
  lemma {:induction false} ScanExtends(st: Scanner, s: string)
    ensures st.args <= Scan(st, s)
    ensures st.current != "" ==> |Scan(st, s)| > |st.args| && Quotes(Scan(st, s)[|st.args|]) >= Quotes(st.current)
    decreases |s|
  {
    UnescapeFacts(st.current);
    if s != "" {
      var next := Advance(st, s);
      ScanExtends(next, s[if TakesTwo(st, s) then 2 else 1..]);
      if next.args == st.args && st.current <= next.current {
        QuotesAppend(st.current, next.current[|st.current|..]);
        assert st.current + next.current[|st.current|..] == next.current;
      }
    }
  }

  ghost predicate NoneEmpty(args: seq<string>) {
    forall i :: 0 <= i < |args| ==> args[i] != ""
  }

  /** No parsed argument is empty. */
  lemma {:induction false} ScanYieldsNoEmpty(st: Scanner, s: string)
    requires NoneEmpty(st.args)
    ensures NoneEmpty(Scan(st, s))
    decreases |s|
  {
    UnescapeFacts(st.current);
    if s != "" {
      ScanYieldsNoEmpty(Advance(st, s), s[if TakesTwo(st, s) then 2 else 1..]);
    }
  }

  lemma ScanOne(st: Scanner, c: char, more: string)
    requires !TakesTwo(st, [c] + more)
    ensures Scan(st, [c] + more) == Scan(Advance(st, [c] + more), more)
  {
    assert ([c] + more)[1..] == more;
  }

  /** Inside double quotes, an escaped quote is taken as a quote. */
  lemma ScanTwo(st: Scanner, q: char, more: string)
    requires st.quote.Some? && !st.escaped && IsQuote(q)
    ensures Scan(st, ['\\', q] + more) == Scan(st.(current := st.current + [q]), more)
  {
    assert (['\\', q] + more)[2..] == more;
  }

  lemma Grow(current: string, c: char, tail: string)
    ensures current + [c] + tail == current + ([c] + tail)
  {
  }

  lemma EscapeStart(a: string, rest: string)
    requires a != ""
    ensures Escape(a) + rest == EscapeChar(a[0]) + (Escape(a[1..]) + rest)
  {
  }

  lemma EscapeOpensWith(a: string)
    requires a != ""
    ensures Escape(a) != "" && Escape(a)[0] == if a[0] == '"' then '\\' else a[0]
  {
  }

  /** Between double quotes the scanner collects `Kept`. */
  lemma {:induction false} ScanQuoted(st: Scanner, a: string, rest: string)
    requires st.quote == Some('"') && !st.escaped
    requires a != "" && a[|a| - 1] == '\\' && rest != "" ==> !IsQuote(rest[0])
    ensures Scan(st, Escape(a) + rest) == Scan(st.(current := st.current + Kept(a)), rest)
    decreases |a|
  {
    if a == "" {
      assert Escape(a) + rest == rest && st.current + Kept(a) == st.current;
      return;
    }
    if a[0] == '\\' && |a| > 1 && a[1] == '\'' {
      QuotedApostrophe(st, a, rest);
      ScanQuoted(st.(current := st.current + ['\'']), a[2..], rest);
      Grow(st.current, '\'', Kept(a[2..]));
    } else {
      QuotedChar(st, a, rest);
      ScanQuoted(st.(current := st.current + [a[0]]), a[1..], rest);
      Grow(st.current, a[0], Kept(a[1..]));
    }
  }

  lemma QuotedApostrophe(st: Scanner, a: string, rest: string)
    requires st.quote == Some('"') && !st.escaped && |a| > 1 && a[0] == '\\' && a[1] == '\''
    ensures Scan(st, Escape(a) + rest) == Scan(st.(current := st.current + ['\'']), Escape(a[2..]) + rest)
  {
    var more := Escape(a[2..]) + rest;
    EscapeApostrophe(a, rest);
    ScanTwo(st, '\'', more);
  }

  lemma EscapeApostrophe(a: string, rest: string)
    requires |a| > 1 && a[0] == '\\' && a[1] == '\''
    ensures Escape(a) + rest == ['\\', '\''] + (Escape(a[2..]) + rest)
  {
    var more := Escape(a[2..]) + rest;
    EscapeStart(a, rest);
    EscapeStart(a[1..], rest);
    assert a[1..][1..] == a[2..];
    Pair('\\', '\'', more);
  }

  lemma Pair(c: char, d: char, more: string)
    ensures [c] + ([d] + more) == [c, d] + more
  {
  }

  lemma ScanOrdinary(st: Scanner, c: char, more: string)
    requires st.quote == Some('"') && !st.escaped && c != '"'
    requires c == '\\' && more != "" ==> !IsQuote(more[0])
    ensures Scan(st, [c] + more) == Scan(st.(current := st.current + [c]), more)
  {
    ScanOne(st, c, more);
  }

  lemma QuotedChar(st: Scanner, a: string, rest: string)
    requires st.quote == Some('"') && !st.escaped
    requires a != "" && (a[0] == '\\' && |a| > 1 ==> a[1] != '\'')
    requires a[|a| - 1] == '\\' && rest != "" ==> !IsQuote(rest[0])
    ensures Scan(st, Escape(a) + rest) == Scan(st.(current := st.current + [a[0]]), Escape(a[1..]) + rest)
  {
    var s, c, more := Escape(a) + rest, a[0], Escape(a[1..]) + rest;
    EscapeStart(a, rest);
    assert s == EscapeChar(c) + more;
    if c == '"' {
      ScanTwo(st, c, more);
    } else {
      NotAnEscape(a, rest);
      ScanOrdinary(st, c, more);
    }
  }

  /** A backslash that stands before no quote is an ordinary character. */
  lemma NotAnEscape(a: string, rest: string)
    requires a != "" && (a[0] == '\\' && |a| > 1 ==> a[1] != '\'')
    requires a[|a| - 1] == '\\' && rest != "" ==> !IsQuote(rest[0])
    ensures var more := Escape(a[1..]) + rest; a[0] == '\\' && more != "" ==> !IsQuote(more[0])
  {
    if |a| > 1 {
      EscapeOpensWith(a[1..]);
    } else {
      assert Escape(a[1..]) + rest == rest;
    }
  }

  /** The scanner between arguments, about to read the ones that are left. */
  function Between(done: seq<string>, current: string): Scanner {
    Scanner(done, current, None, false)
  }

  /** A space and the opening quote finish the argument under way. */
  lemma OpenQuote(done: seq<string>, current: string, more: string)
    ensures Scan(Between(done, current), " \"" + more)
              == Scan(Scanner(Close(Between(done, current)), "", Some('"'), false), more)
  {
    var s := " \"" + more;
    var base := Close(Between(done, current));
    assert s[1..] == "\"" + more && s[1..][1..] == more;
    assert Scan(Between(done, current), s) == Scan(Between(base, ""), s[1..]);
  }

  lemma WrittenStart(a: string, args: seq<string>)
    ensures Written([a] + args) == " \"" + (Escape(a) + ("\"" + Written(args)))
  {
    assert ([a] + args)[1..] == args;
  }

  /** An argument that does not end in a backslash is read as what is kept of it. */
  lemma ReadArgument(done: seq<string>, current: string, a: string, args: seq<string>)
    requires a == "" || a[|a| - 1] != '\\'
    ensures Scan(Between(done, current), Written([a] + args))
              == Scan(Between(Close(Between(done, current)), Kept(a)), Written(args))
  {
    var base := Close(Between(done, current));
    var more := Written(args);
    WrittenStart(a, args);
    OpenQuote(done, current, Escape(a) + ("\"" + more));
    ScanQuoted(Scanner(base, "", Some('"'), false), a, "\"" + more);
    assert "" + Kept(a) == Kept(a);
    assert ("\"" + more)[1..] == more;
  }

  lemma WrittenWithBackslash(b: string, args: seq<string>)
    ensures Written([b + "\\"] + args) == " \"" + (Escape(b) + ("\\\"" + Written(args)))
  {
    WrittenStart(b + "\\", args);
    EscapeAppend(b, "\\");
    EscapeBackslash();
    Regroup(Escape(b), Written(args));
  }

  lemma EscapeBackslash()
    ensures Escape("\\") == "\\"
  {
    assert "\\"[1..] == "";
  }

  lemma Regroup(e: string, more: string)
    ensures (e + "\\") + ("\"" + more) == e + ("\\\"" + more)
  {
  }

  lemma SwallowScan(base: seq<string>, b: string, more: string)
    ensures var r := Scan(Scanner(base, "", Some('"'), false), Escape(b) + ("\\\"" + more));
            |r| > |base| && Quotes(r[|base|]) > Quotes(b)
  {
    var st := Scanner(base, "", Some('"'), false);
    ScanQuoted(st, b, "\\\"" + more);
    assert "" + Kept(b) == Kept(b);
    ScanTwo(st.(current := Kept(b)), '"', more);
    assert ['\\', '"'] + more == "\\\"" + more;
    ScanExtends(st.(current := Kept(b) + ['"']), more);
    KeptQuotes(b);
    QuotesAppend(Kept(b), ['"']);
    assert Quotes(['"']) == 1;
  }

  /** A backslash at the end of an argument swallows the closing quote: the argument read has a quote too many. */
  lemma SwallowedQuote(done: seq<string>, current: string, b: string, args: seq<string>)
    ensures var base := Close(Between(done, current));
            var r := Scan(Between(done, current), Written([b + "\\"] + args));
            |r| > |base| && Quotes(r[|base|]) > Quotes(b + "\\")
  {
    var more := Written(args);
    WrittenWithBackslash(b, args);
    OpenQuote(done, current, Escape(b) + ("\\\"" + more));
    SwallowScan(Close(Between(done, current)), b, more);
    QuotesAppend(b, "\\");
    assert Quotes("\\") == 0;
  }

  lemma {:induction false} EscapeAppend(a: string, b: string)
    ensures Escape(a + b) == Escape(a) + Escape(b)
  {
    if a == "" {
      assert a + b == b;
    } else {
      EscapeAppend(a[1..], b);
      assert (a + b)[1..] == a[1..] + b && (a + b)[0] == a[0];
      assert EscapeChar(a[0]) + (Escape(a[1..]) + Escape(b)) == EscapeChar(a[0]) + Escape(a[1..]) + Escape(b);
    }
  }

  // -------------------------------------------------------------------- the round trip

  ghost predicate AllPlain(args: seq<string>) {
    forall i :: 0 <= i < |args| ==> Plain(args[i])
  }

  /** A plain argument is read as itself. */
  lemma ReadPlain(done: seq<string>, current: string, a: string, args: seq<string>)
    requires Plain(a)
    ensures var base := Close(Between(done, current));
            && Scan(Between(done, current), Written([a] + args)) == Scan(Between(base, a), Written(args))
            && Close(Between(base, a)) == base + [a]
  {
    KeptUnharmed(a);
    UnescapeUnharmed(a);
    ReadArgument(done, current, a, args);
  }

  lemma {:induction false} PlainArgumentsReturn(done: seq<string>, current: string, args: seq<string>)
    requires AllPlain(args)
    ensures Scan(Between(done, current), Written(args)) == Close(Between(done, current)) + args
    decreases |args|
  {
    if args != [] {
      var a, rest := args[0], args[1..];
      assert args == [a] + rest;
      ReadPlain(done, current, a, rest);
      PlainArgumentsReturn(Close(Between(done, current)), a, rest);
    }
  }

  /** An argument that is not empty and not plain comes back changed. */
  lemma HarmedArgumentChanges(done: seq<string>, current: string, a: string, args: seq<string>)
    requires a != "" && !Unharmed(a)
    ensures var base := Close(Between(done, current));
            var r := Scan(Between(done, current), Written([a] + args));
            |r| > |base| && r[|base|] != a
  {
    var base := Close(Between(done, current));
    if a[|a| - 1] == '\\' {
      assert a == a[..|a| - 1] + "\\";
      SwallowedQuote(done, current, a[..|a| - 1], args);
    } else {
      ReadArgument(done, current, a, args);
      KeptLength(a);
      UnescapeFacts(Kept(a));
      assert |Unescape(Kept(a))| < |a|;
      ClosedArgumentStays(base, Kept(a), args);
    }
  }

  /** Once its closing quote is read, an argument is what `Unescape` makes of it. */
  lemma ClosedArgumentStays(done: seq<string>, current: string, args: seq<string>)
    requires current != ""
    ensures var r := Scan(Between(done, current), Written(args));
            |r| > |done| && r[|done|] == Unescape(current)
  {
    if args != [] {
      var more := Escape(args[0]) + ("\"" + Written(args[1..]));
      assert Written(args) == " \"" + more;
      OpenQuote(done, current, more);
      ScanExtends(Scanner(Close(Between(done, current)), "", Some('"'), false), more);
    }
  }

  lemma RestNotPlain(args: seq<string>)
    requires NoneEmpty(args) && !AllPlain(args) && Unharmed(args[0])
    ensures !AllPlain(args[1..])
  {
    var i :| 0 <= i < |args| && !Plain(args[i]);
    assert Plain(args[0]);
    assert args[1..][i - 1] == args[i];
  }

  lemma {:induction false} OtherArgumentsChange(done: seq<string>, current: string, args: seq<string>)
    requires NoneEmpty(args) && !AllPlain(args)
    ensures Scan(Between(done, current), Written(args)) != Close(Between(done, current)) + args
    decreases |args|
  {
    var a, rest := args[0], args[1..];
    var base := Close(Between(done, current));
    assert args == [a] + rest;
    if Unharmed(a) {
      ReadPlain(done, current, a, rest);
      RestNotPlain(args);
      OtherArgumentsChange(base, a, rest);
      assert base + args == base + [a] + rest;
    } else {
      HarmedArgumentChanges(done, current, a, rest);
      assert (base + args)[|base|] == a;
    }
  }

  /** Parsing the written arguments gives them back exactly when each is non-empty and unharmed. */
  lemma ArgumentsReturnIff(args: seq<string>)
    ensures Scan(Start, Written(args)) == args <==> AllPlain(args)
  {
    assert Start == Between([], "");
    if AllPlain(args) {
      PlainArgumentsReturn([], "", args);
    } else {
      ScanYieldsNoEmpty(Start, Written(args));
      if NoneEmpty(args) {
        OtherArgumentsChange([], "", args);
        assert [] + args == args;
      }
    }
  }

  // ------------------------------------------------------- words, single quotes, backslashes

  /** Read between arguments, or inside a word, as itself. */
  predicate IsWordChar(c: char) {
    !IsSpace(c) && c != '"' && c != '\'' && c != '\\'
  }

  predicate IsWord(w: string) {
    w != "" && forall i :: 0 <= i < |w| ==> IsWordChar(w[i])
  }

  predicate IsGap(gap: string) {
    gap != "" && forall i :: 0 <= i < |gap| ==> IsSpace(gap[i])
  }

  /** Words, each behind a gap. */
  function Spaced(words: seq<string>, gaps: seq<string>): string
    requires |gaps| == |words|
  {
    if words == [] then "" else gaps[0] + (words[0] + Spaced(words[1..], gaps[1..]))
  }

  lemma Cons(s: string, rest: string)
    requires s != ""
    ensures s + rest == [s[0]] + (s[1..] + rest)
  {
  }

  lemma {:induction false} ScanWord(done: seq<string>, current: string, w: string, rest: string)
    requires forall i :: 0 <= i < |w| ==> IsWordChar(w[i])
    ensures Scan(Between(done, current), w + rest) == Scan(Between(done, current + w), rest)
    decreases |w|
  {
    if w == "" {
      assert w + rest == rest && current + w == current;
    } else {
      Cons(w, rest);
      ScanOne(Between(done, current), w[0], w[1..] + rest);
      ScanWord(done, current + [w[0]], w[1..], rest);
      assert current + [w[0]] + w[1..] == current + w;
    }
  }

  lemma {:induction false} ScanGap(done: seq<string>, current: string, gap: string, rest: string)
    requires IsGap(gap)
    ensures Scan(Between(done, current), gap + rest) == Scan(Between(Close(Between(done, current)), ""), rest)
    decreases |gap|
  {
    Cons(gap, rest);
    ScanOne(Between(done, current), gap[0], gap[1..] + rest);
    if |gap| > 1 {
      ScanGap(Close(Between(done, current)), "", gap[1..], rest);
    } else {
      assert gap[1..] + rest == rest;
    }
  }

  /** A gap ends the argument under way, and a word is the next one. */
  lemma ReadWord(done: seq<string>, current: string, gap: string, w: string, rest: string)
    requires IsGap(gap) && IsWord(w)
    ensures var base := Close(Between(done, current));
            && Scan(Between(done, current), gap + (w + rest)) == Scan(Between(base, w), rest)
            && Close(Between(base, w)) == base + [w]
  {
    ScanGap(done, current, gap, w + rest);
    ScanWord(Close(Between(done, current)), "", w, rest);
    assert "" + w == w;
    UnescapeUnharmed(w);
  }

  /** Words, and gaps to stand before them. */
  ghost predicate AreSpacedWords(words: seq<string>, gaps: seq<string>) {
    |gaps| == |words| && forall i :: 0 <= i < |words| ==> IsWord(words[i]) && IsGap(gaps[i])
  }

  lemma SpacedStart(words: seq<string>, gaps: seq<string>)
    requires AreSpacedWords(words, gaps) && words != []
    ensures AreSpacedWords(words[1..], gaps[1..]) && IsWord(words[0]) && IsGap(gaps[0])
  {
  }

  lemma Regain<T>(base: seq<T>, all: seq<T>)
    requires all != []
    ensures base + [all[0]] + all[1..] == base + all
  {
  }

  lemma {:induction false} SpacedWordsReturn(done: seq<string>, current: string, words: seq<string>, gaps: seq<string>)
    requires AreSpacedWords(words, gaps)
    ensures Scan(Between(done, current), Spaced(words, gaps)) == Close(Between(done, current)) + words
    decreases |words|
  {
    if words != [] {
      var base := Close(Between(done, current));
      SpacedStart(words, gaps);
      ReadWord(done, current, gaps[0], words[0], Spaced(words[1..], gaps[1..]));
      SpacedWordsReturn(base, words[0], words[1..], gaps[1..]);
      Regain(base, words);
    }
  }

  /** Unquoted words come back, whatever white space separates them. */
  lemma WordsReturn(words: seq<string>, gaps: seq<string>)
    requires AreSpacedWords(words, gaps)
    ensures Scan(Start, Spaced(words, gaps)) == words
  {
    SpacedWordsReturn([], "", words, gaps);
    assert [] + words == words;
  }

  lemma {:induction false} ScanSingleQuoted(st: Scanner, a: string, rest: string)
    requires st.quote == Some('\'') && !st.escaped
    requires forall i :: 0 <= i < |a| ==> a[i] != '\'' && a[i] != '\\'
    ensures Scan(st, a + rest) == Scan(st.(current := st.current + a), rest)
    decreases |a|
  {
    if a == "" {
      assert a + rest == rest && st.current + a == st.current;
    } else {
      Cons(a, rest);
      ScanOne(st, a[0], a[1..] + rest);
      ScanSingleQuoted(st.(current := st.current + [a[0]]), a[1..], rest);
      assert st.current + [a[0]] + a[1..] == st.current + a;
    }
  }

  /** Between single quotes, double quotes and white space are themselves; single quotes and backslashes are not. */
  lemma SingleQuotedReturns(a: string)
    requires a != "" && forall i :: 0 <= i < |a| ==> a[i] != '\'' && a[i] != '\\'
    ensures Scan(Start, "'" + (a + "'")) == [a]
  {
    var open := Scanner([], "", Some('\''), false);
    ScanOne(Start, '\'', a + "'");
    ScanSingleQuoted(open, a, "'");
    assert "" + a == a;
    ScanOne(open.(current := a), '\'', "");
    assert "'" + "" == "'";
    UnescapeUnharmed(a);
  }

  /** Every character behind a backslash. */
  function Backslashed(a: string): string {
    if a == "" then "" else ['\\', a[0]] + Backslashed(a[1..])
  }

  lemma {:induction false} ScanBackslashed(current: string, a: string)
    ensures Scan(Between([], current), Backslashed(a)) == Close(Between([], current + a))
    decreases |a|
  {
    if a == "" {
      assert current + a == current;
    } else {
      var more := Backslashed(a[1..]);
      assert Backslashed(a) == ['\\'] + ([a[0]] + more);
      ScanOne(Between([], current), '\\', [a[0]] + more);
      ScanOne(Scanner([], current, None, true), a[0], more);
      ScanBackslashed(current + [a[0]], a[1..]);
      assert current + [a[0]] + a[1..] == current + a;
    }
  }

  /** A backslash stands before nothing but a line end, or last. */
  ghost predicate IsHarmless(a: string) {
    forall i :: 0 <= i < |a| && a[i] == '\\' ==> i + 1 == |a| || EndsLine(a[i + 1])
  }

  lemma {:induction false} UnescapeSameIff(a: string)
    ensures Unescape(a) == a <==> IsHarmless(a)
  {
    if a != "" {
      if a[0] == '\\' && |a| > 1 && !EndsLine(a[1]) {
        UnescapeFacts(a[2..]);
      } else {
        UnescapeSameIff(a[1..]);
        HarmlessTail(a);
        assert ([a[0]] + Unescape(a[1..]))[1..] == Unescape(a[1..]);
      }
    }
  }

  lemma HarmlessTail(a: string)
    requires a != "" && !(a[0] == '\\' && |a| > 1 && !EndsLine(a[1]))
    ensures IsHarmless(a) <==> IsHarmless(a[1..])
  {
    var tail := a[1..];
    assert forall i :: 0 <= i < |tail| ==> tail[i] == a[i + 1];
    if IsHarmless(tail) {
      forall i | 0 <= i < |a| && a[i] == '\\'
        ensures i + 1 == |a| || EndsLine(a[i + 1])
      {
        if i > 0 {
          assert tail[i - 1] == '\\';
        }
      }
    }
  }

  /**
   Outside quotes a backslash takes any character as it is, white space and quotes too; what it
   protected is unescaped once more at the end, so a text comes back exactly if a backslash in
   it stands before nothing but a line end, or last.
   */
  lemma BackslashedText(a: string)
    requires a != ""
    ensures Scan(Start, Backslashed(a)) == [Unescape(a)]
    ensures Scan(Start, Backslashed(a)) == [a] <==> IsHarmless(a)
  {
    ScanBackslashed("", a);
    assert "" + a == a;
    UnescapeSameIff(a);
  }

  // ------------------------------------------------------------------ the whole command

  lemma {:induction false} WrittenEnds(args: seq<string>)
    requires args != []
    ensures |Written(args)| > 1 && Written(args)[0] == ' ' && Written(args)[1] == '"'
    ensures Written(args)[|Written(args)| - 1] == '"'
    decreases |args|
  {
    if |args| > 1 {
      WrittenEnds(args[1..]);
    } else {
      assert Written(args[1..]) == "";
    }
  }

  lemma TrimKeeps(s: string)
    requires s == "" || (!IsSpace(s[0]) && !IsSpace(s[|s| - 1]))
    ensures Trim(s) == s
  {
  }

  lemma FirstSpaceAt(s: string, i: nat)
    requires i <= |s| && Spaceless(s[..i]) && (i < |s| ==> IsSpace(s[i]))
    ensures FirstSpace(s) == i
  {
    forall k | 0 <= k < i
      ensures !IsSpace(s[k])
    {
      assert s[..i][k] == s[k];
    }
  }

  /** A whole command, for a name that does not confuse the parser. */
  lemma CommandSplits(name: string, args: seq<string>, lower: string -> string)
    requires Spaceless(name) && !("/" <= name)
    ensures ParsedCommand(Rendered(name, args), lower)
              == Some(Parsed(lower(name), Scan(Start, Written(args)), Rendered(name, args), false))
  {
    var w := Written(args);
    RenderedIsTrim(name, args);
    if args == [] {
      NameSplits(name, w, lower);
    } else {
      WrittenEnds(args);
      NameSplits(name, w, lower);
      TrimKeeps(w[1..]);
      LeadingSpace(w);
    }
  }

  lemma LeadingSpace(w: string)
    requires w != "" && w[0] == ' '
    ensures Scan(Start, w) == Scan(Start, w[1..])
  {
  }

  lemma SplitAfterName(name: string, w: string)
    requires Spaceless(name) && (w != "" ==> IsSpace(w[0]))
    ensures Split(name + w) == (name, if w == "" then "" else Trim(w[1..]))
  {
    var body := name + w;
    assert body[..|name|] == name;
    FirstSpaceAt(body, |name|);
    if w != "" {
      assert body[|name| + 1..] == w[1..];
    }
  }

  lemma NameSplits(name: string, w: string, lower: string -> string)
    requires Spaceless(name) && !("/" <= name) && (w != "" ==> IsSpace(w[0]))
    requires Trim("/" + name + w) == "/" + name + w
    ensures ParsedCommand("/" + name + w, lower)
         == Some(Parsed(lower(name), Scan(Start, if w == "" then "" else Trim(w[1..])), "/" + name + w, false))
  {
    var input := "/" + name + w;
    assert input[1..] == name + w;
    SplitAfterName(name, w);
    OneSlash(name, w);
  }

  lemma OneSlash(name: string, w: string)
    requires !("/" <= name) && (w != "" ==> IsSpace(w[0]))
    ensures "/" <= "/" + name + w && !("//" <= "/" + name + w)
  {
    var input := "/" + name + w;
    assert |input| > 1 ==> input[1] == (name + w)[0];
    assert name != "" ==> name[0] != '/';
  }

  lemma RenderedIsTrim(name: string, args: seq<string>)
    requires Spaceless(name)
    ensures Trim(Rendered(name, args)) == Rendered(name, args)
  {
    var input := Rendered(name, args);
    if args == [] {
      assert input == "/" + name;
      assert input[|input| - 1] == if name == "" then '/' else name[|name| - 1];
    } else {
      WrittenEnds(args);
      assert input[|input| - 1] == Written(args)[|Written(args)| - 1];
    }
    TrimKeeps(input);
  }

  /** A name with white space in it is cut there, whatever follows. */
  lemma CommandHasNoSpace(input: string, lower: string -> string)
    requires forall s :: Spaceless(s) ==> Spaceless(lower(s))
    ensures var p := ParsedCommand(input, lower); p.Some? ==> Spaceless(p.value.command)
  {
  }

  /**
   Quoting and parsing are inverse on a command exactly when its name is lower
   case, has no white space and no leading slash, and every argument is non-empty
   with backslashes at most before line ends.
   */
  lemma RoundTripIff(name: string, args: seq<string>, lower: string -> string)
    requires forall s :: Spaceless(s) ==> Spaceless(lower(s))
    ensures ParsedCommand(Rendered(name, args), lower) == Some(Parsed(name, args, Rendered(name, args), false))
       <==> PlainName(name, lower) && AllPlain(args)
  {
    CommandHasNoSpace(Rendered(name, args), lower);
    ArgumentsReturnIff(args);
    if Spaceless(name) && !("/" <= name) {
      CommandSplits(name, args, lower);
    } else if Spaceless(name) {
      SlashNameIsEscaped(name, args, lower);
    }
  }

  /** A name with a leading slash makes the input an escaped text. */
  lemma SlashNameIsEscaped(name: string, args: seq<string>, lower: string -> string)
    requires Spaceless(name) && "/" <= name
    ensures var p := ParsedCommand(Rendered(name, args), lower); p.Some? && p.value.isEscaped
  {
    var input := Rendered(name, args);
    assert input[0] == '/' && input[1] == '/';
    RenderedIsTrim(name, args);
  }

  /** Arguments without backslashes always come back. */
  lemma PlainCommandsReturn(name: string, args: seq<string>, lower: string -> string)
    requires PlainName(name, lower)
    requires forall i :: 0 <= i < |args| ==> args[i] != "" && '\\' !in args[i]
    ensures ParsedCommand(Rendered(name, args), lower) == Some(Parsed(name, args, Rendered(name, args), false))
  {
    forall i | 0 <= i < |args|
      ensures Plain(args[i])
    {
      assert forall k :: 0 <= k < |args[i]| ==> args[i][k] in args[i];
    }
    CommandSplits(name, args, lower);
    ArgumentsReturnIff(args);
  }

  // ------------------------------------------------------------------ kinds of input

  /** Blanks, tabs and line ends separate words; quotes, backslashes, slashes, letters and digits do not. */
  lemma CharClasses(c: char)
    ensures c in [' ', '\t', '\n', '\U{0B}', '\U{0C}', '\r', '\U{A0}', '\U{3000}', '\U{FEFF}'] ==> IsSpace(c)
    ensures EndsLine(c) ==> IsSpace(c)
    ensures c in ['\n', '\r', '\U{2028}', '\U{2029}'] <==> EndsLine(c)
    ensures '!' <= c <= '~' ==> !IsSpace(c)
  {
  }

  ghost predicate AllSpace(s: string) {
    forall i :: 0 <= i < |s| ==> IsSpace(s[i])
  }

  lemma {:induction false} TrimStartMeans(s: string) returns (cut: nat)
    ensures cut <= |s| && TrimStart(s) == s[cut..] && AllSpace(s[..cut])
    ensures TrimStart(s) != "" ==> !IsSpace(TrimStart(s)[0])
  {
    cut := 0;
    if s != "" && IsSpace(s[0]) {
      var rest := TrimStartMeans(s[1..]);
      cut := rest + 1;
      assert s[1..][rest..] == s[cut..] && s[..cut] == [s[0]] + s[1..][..rest];
    }
  }

  lemma {:induction false} TrimEndMeans(s: string) returns (kept: nat)
    ensures kept <= |s| && TrimEnd(s) == s[..kept] && AllSpace(s[kept..])
    ensures TrimEnd(s) != "" ==> !IsSpace(TrimEnd(s)[|TrimEnd(s)| - 1])
  {
    kept := |s|;
    if s != "" && IsSpace(s[|s| - 1]) {
      kept := TrimEndMeans(s[..|s| - 1]);
      SpaceAtEnd(s[..|s| - 1], s[|s| - 1], kept);
      assert s == s[..|s| - 1] + [s[|s| - 1]];
    } else {
      assert s[..|s|] == s && s[|s|..] == "";
    }
  }

  lemma SpaceAtEnd(init: string, last: char, kept: nat)
    requires kept <= |init| && AllSpace(init[kept..]) && IsSpace(last)
    ensures (init + [last])[..kept] == init[..kept] && AllSpace((init + [last])[kept..])
  {
    assert (init + [last])[kept..] == init[kept..] + [last];
  }

  /** Trimming cuts white space at both ends, all of it and nothing else. */
  lemma TrimMeans(s: string)
    ensures exists i, j :: 0 <= i <= j <= |s| && Trim(s) == s[i..j] && AllSpace(s[..i]) && AllSpace(s[j..])
    ensures Trim(s) != "" ==> !IsSpace(Trim(s)[0]) && !IsSpace(Trim(s)[|Trim(s)| - 1])
  {
    var i := TrimStartMeans(s);
    var kept := TrimEndMeans(s[i..]);
    assert s[i..][..kept] == s[i..i + kept] && s[i..][kept..] == s[i + kept..];
    assert 0 <= i <= i + kept <= |s| && AllSpace(s[..i]) && AllSpace(s[i + kept..]);
  }

  /**
   Trimmed input that does not start with a slash is no command; two slashes make the rest a text
   without name and arguments; one slash makes a command whose name ends at the first white space.
   */
  lemma InputKinds(input: string, lower: string -> string)
    ensures var t, p := Trim(input), ParsedCommand(input, lower);
            if t == "" || t[0] != '/' then p.None?
            else if |t| > 1 && t[1] == '/' then p == Some(Parsed("", [], t[2..], true))
            else
              && p.Some? && !p.value.isEscaped && p.value.rawInput == t
              && exists n: nat :: NameEnds(t, n) && p.value.command == lower(t[1..n])
                   && p.value.args == Scan(Start, if n == |t| then "" else Trim(t[n + 1..]))
  {
    var t := Trim(input);
    if t != "" && t[0] == '/' && !(|t| > 1 && t[1] == '/') {
      assert "/" <= t && !("//" <= t);
      var n := NameEndsAtSpace(t);
      assert NameEnds(t, n);
    }
  }

  /** The name behind a slash reaches to the first white space, or to the end. */
  ghost predicate NameEnds(t: string, n: nat) {
    1 <= n <= |t| && Spaceless(t[1..n]) && (n < |t| ==> IsSpace(t[n]))
  }

  lemma NameEndsAtSpace(t: string) returns (n: nat)
    requires t != ""
    ensures NameEnds(t, n)
    ensures Split(t[1..]) == (t[1..n], if n == |t| then "" else Trim(t[n + 1..]))
  {
    var body := t[1..];
    var i := FirstSpace(body);
    n := i + 1;
    assert body[..i] == t[1..n] && (i < |body| ==> body[i + 1..] == t[n + 1..]);
  }
}
