/** The script that turns a C# file-scoped namespace (`namespace Name;`) into
    a block-scoped one (`namespace Name` followed by `{`). A file is its list of
    lines as `readlines` gives them, each keeping its line terminator; the
    result is the list written back, or `None` when the file is left alone. */
module NamespaceRefactor {
  import opened Common

  /** Python's `str.isspace`, which is also the class `\s` matches in a `str`
      pattern: the ASCII controls 9-13 and 28-31, the space, and the Unicode
      separators. */
  predicate IsSpace(c: char) {
    var n := c as int;
    (9 <= n <= 13) || (0x1C <= n <= 0x20) || n == 0x85 || n == 0xA0 || n == 0x1680
    || (0x2000 <= n <= 0x200A) || n == 0x2028 || n == 0x2029 || n == 0x202F || n == 0x205F || n == 0x3000
  }

  /** `\w` over ASCII: letters, digits and the underscore. */
  predicate IsWordChar(c: char) {
    ('a' <= c <= 'z') || ('A' <= c <= 'Z') || ('0' <= c <= '9') || c == '_'
  }

  predicate AllSpace(s: string) {
    forall i | 0 <= i < |s| :: IsSpace(s[i])
  }

  predicate AllWord(s: string) {
    forall i | 0 <= i < |s| :: IsWordChar(s[i])
  }

  const Keyword: string := "namespace"

  /** A line the pattern `^\s*namespace\s+(\w+);` matches, cut at its parts:
      indentation `a`, the keyword, the gap `b`, the captured `name`, the
      semicolon and whatever follows. */
  predicate Shape(line: string, a: string, b: string, name: string, rest: string) {
    && AllSpace(a) && AllSpace(b) && b != []
    && AllWord(name) && name != []
    && line == a + Keyword + b + name + ";" + rest
  }

  /** Where the matcher stands in `^\s*namespace\s+(\w+);`: in the
      indentation, after `matched` letters of the keyword, in the gap after it
      (`seen` once a white-space character was consumed), or in the name
      captured so far. */
  datatype MatchState = Indent | InKeyword(matched: nat) | Gap(seen: bool) | Name(captured: string)

  function Rank(st: MatchState): nat {
    match st
    case Name(_) => 0
    case Gap(_) => 1
    case InKeyword(_) => 2
    case Indent => 3
  }

  /** The pattern run over `s` from state `st`, one character at a time. The
      runs are greedy, and each ends at a character that cannot continue it,
      so no backtracking can change the outcome. */
  function MatchFrom(s: string, st: MatchState): Option<string>
    decreases |s|, Rank(st)
  {
    match st
    case Indent =>
      if s != [] && IsSpace(s[0]) then MatchFrom(s[1..], Indent) else MatchFrom(s, InKeyword(0))
    case InKeyword(k) =>
      if k >= |Keyword| then MatchFrom(s, Gap(false))
      else if s != [] && s[0] == Keyword[k] then MatchFrom(s[1..], InKeyword(k + 1))
      else None
    case Gap(seen) =>
      if s != [] && IsSpace(s[0]) then MatchFrom(s[1..], Gap(true))
      else if seen then MatchFrom(s, Name([]))
      else None
    case Name(captured) =>
      if s != [] && IsWordChar(s[0]) then MatchFrom(s[1..], Name(captured + [s[0]]))
      else if s != [] && s[0] == ';' && captured != [] then Some(captured)
      else None
  }

  /** `namespace_pattern.match(line)`, giving group 1 when it matches. */
  function MatchNamespace(line: string): Option<string> {
    MatchFrom(line, Indent)
  }

  /** The name run: word characters up to `stop`; the match succeeds exactly
      when `stop` is the semicolon and something was captured. */
  lemma {:induction false} NameRun(name: string, captured: string, stop: char, rest: string)
    requires AllWord(name) && !IsWordChar(stop)
    ensures MatchFrom(name + [stop] + rest, Name(captured))
            == if stop == ';' && captured + name != [] then Some(captured + name) else None
    decreases |name|
  {
    var s := name + [stop] + rest;
    if name == [] {
      assert s == [stop] + rest && captured + name == captured;
    } else {
      assert s[0] == name[0] && s[1..] == name[1..] + [stop] + rest;
      NameRun(name[1..], captured + [name[0]], stop, rest);
      assert captured + [name[0]] + name[1..] == captured + name;
    }
  }

  /** The gap run: white space up to the first other character. */
  lemma {:induction false} GapRun(b: string, seen: bool, tail: string)
    requires AllSpace(b) && (tail == [] || !IsSpace(tail[0]))
    ensures MatchFrom(b + tail, Gap(seen)) == if seen || b != [] then MatchFrom(tail, Name([])) else None
    decreases |b|
  {
    if b == [] {
      assert b + tail == tail;
    } else {
      assert (b + tail)[0] == b[0] && (b + tail)[1..] == b[1..] + tail;
      GapRun(b[1..], true, tail);
    }
  }

  /** The keyword run from its `k`-th letter. */
  lemma {:induction false} KeywordRun(k: nat, tail: string)
    requires k <= |Keyword|
    ensures MatchFrom(Keyword[k..] + tail, InKeyword(k)) == MatchFrom(tail, Gap(false))
    decreases |Keyword| - k
  {
    if k < |Keyword| {
      var s := Keyword[k..] + tail;
      assert s[0] == Keyword[k] && s[1..] == Keyword[k + 1..] + tail;
      KeywordRun(k + 1, tail);
    } else {
      assert Keyword[k..] + tail == tail;
    }
  }

  /** The indentation run: white space up to the first other character. */
  lemma {:induction false} IndentRun(a: string, tail: string)
    requires AllSpace(a) && (tail == [] || !IsSpace(tail[0]))
    ensures MatchFrom(a + tail, Indent) == MatchFrom(tail, InKeyword(0))
    decreases |a|
  {
    if a == [] {
      assert a + tail == tail;
    } else {
      assert (a + tail)[0] == a[0] && (a + tail)[1..] == a[1..] + tail;
      IndentRun(a[1..], tail);
    }
  }

  /** Every line of the pattern's shape matches, and the captured group is
      exactly the name before the semicolon. */
  lemma MatchNamespaceComplete(line: string, a: string, b: string, name: string, rest: string)
    requires Shape(line, a, b, name, rest)
    ensures MatchNamespace(line) == Some(name)
  {
    var afterGap := name + [';'] + rest;
    assert line == a + (Keyword[0..] + (b + afterGap));
    IndentRun(a, Keyword[0..] + (b + afterGap));
    KeywordRun(0, b + afterGap);
    assert afterGap[0] == name[0];
    GapRun(b, false, afterGap);
    NameRun(name, [], ';', rest);
    assert [] + name == name;
  }

  /** A dotted name (`namespace A.B;`) does not match: the name run stops at
      the dot, where the pattern needs the semicolon. */
  lemma DottedNameNoMatch(a: string, b: string, first: string, rest: string)
    requires AllSpace(a) && AllSpace(b) && b != [] && AllWord(first) && first != []
    ensures MatchNamespace(a + Keyword + b + first + "." + rest) == None
  {
    var afterGap := first + ['.'] + rest;
    assert a + Keyword + b + first + "." + rest == a + (Keyword[0..] + (b + afterGap));
    IndentRun(a, Keyword[0..] + (b + afterGap));
    KeywordRun(0, b + afterGap);
    assert afterGap[0] == first[0];
    GapRun(b, false, afterGap);
    NameRun(first, [], '.', rest);
  }

  lemma {:induction false} NameSound(s: string, captured: string) returns (name: string, rest: string)
    requires MatchFrom(s, Name(captured)).Some? && AllWord(captured)
    ensures AllWord(name) && s == name + [';'] + rest
    ensures MatchFrom(s, Name(captured)) == Some(captured + name) && captured + name != []
    decreases |s|
  {
    if IsWordChar(s[0]) {
      var tailName, tailRest := NameSound(s[1..], captured + [s[0]]);
      name, rest := [s[0]] + tailName, tailRest;
      assert s == [s[0]] + s[1..];
      assert captured + [s[0]] + tailName == captured + name;
    } else {
      name, rest := [], s[1..];
      assert s == [s[0]] + s[1..] && captured + name == captured;
    }
  }

  lemma {:induction false} GapSound(s: string, seen: bool) returns (b: string, tail: string)
    requires MatchFrom(s, Gap(seen)).Some?
    ensures AllSpace(b) && (seen || b != []) && s == b + tail
    ensures MatchFrom(s, Gap(seen)) == MatchFrom(tail, Name([]))
    decreases |s|
  {
    if s != [] && IsSpace(s[0]) {
      var tailB, tailTail := GapSound(s[1..], true);
      b, tail := [s[0]] + tailB, tailTail;
      assert s == [s[0]] + s[1..];
    } else {
      b, tail := [], s;
    }
  }

  lemma {:induction false} KeywordSound(s: string, k: nat) returns (tail: string)
    requires k <= |Keyword| && MatchFrom(s, InKeyword(k)).Some?
    ensures s == Keyword[k..] + tail && MatchFrom(s, InKeyword(k)) == MatchFrom(tail, Gap(false))
    decreases |Keyword| - k
  {
    if k == |Keyword| {
      tail := s;
    } else {
      KeywordStep(s, k);
      tail := KeywordSound(s[1..], k + 1);
      SliceCons(Keyword, k, s, tail);
    }
  }

  /** One letter of the keyword run. */
  lemma KeywordStep(s: string, k: nat)
    requires k < |Keyword| && MatchFrom(s, InKeyword(k)).Some?
    ensures s != [] && s[0] == Keyword[k] && MatchFrom(s, InKeyword(k)) == MatchFrom(s[1..], InKeyword(k + 1))
  {
  }

  /** A slice of `w` from `k` is its `k`-th letter and the slice after it. */
  lemma SliceCons(w: string, k: nat, s: string, tail: string)
    requires k < |w| && s != [] && s[0] == w[k] && s[1..] == w[k + 1..] + tail
    ensures s == w[k..] + tail
  {
    assert s == [s[0]] + s[1..];
    assert w[k..] == [w[k]] + w[k + 1..];
  }

  lemma {:induction false} IndentSound(s: string) returns (a: string, tail: string)
    requires MatchFrom(s, Indent).Some?
    ensures AllSpace(a) && s == a + tail && MatchFrom(s, Indent) == MatchFrom(tail, InKeyword(0))
    decreases |s|
  {
    if s != [] && IsSpace(s[0]) {
      var tailA, tailTail := IndentSound(s[1..]);
      a, tail := [s[0]] + tailA, tailTail;
      assert s == [s[0]] + s[1..];
    } else {
      a, tail := [], s;
    }
  }

  /** Every match is a line of the pattern's shape, cut at the captured name. */
  lemma MatchNamespaceSound(line: string) returns (a: string, b: string, rest: string)
    requires MatchNamespace(line).Some?
    ensures Shape(line, a, b, MatchNamespace(line).value, rest)
  {
    var afterIndent, afterKeyword, afterGap, name;
    a, afterIndent := IndentSound(line);
    afterKeyword := KeywordSound(afterIndent, 0);
    b, afterGap := GapSound(afterKeyword, false);
    name, rest := NameSound(afterGap, []);
    assert [] + name == name;
    assert Keyword[0..] == Keyword;
    ShapeJoin(line, a, Keyword, b, name, rest, afterIndent, afterKeyword, afterGap);
  }

  /** The four runs, joined, give the line back. */
  lemma ShapeJoin(line: string, a: string, word: string, b: string, name: string, rest: string,
                  afterIndent: string, afterKeyword: string, afterGap: string)
    requires line == a + afterIndent && afterIndent == word + afterKeyword
    requires afterKeyword == b + afterGap && afterGap == name + [';'] + rest
    ensures line == a + word + b + name + ";" + rest
  {
    calc {
      line;
      a + (word + (b + (name + [';'] + rest)));
      a + word + b + name + ";" + rest;
    }
  }

  /** The index of the first matching line, if any. */
  function FirstMatch(lines: seq<string>): (r: Option<nat>)
    ensures r.None? <==> forall j {:trigger MatchNamespace(lines[j])} | 0 <= j < |lines| :: MatchNamespace(lines[j]).None?
    ensures r.Some? ==> r.value < |lines| && MatchNamespace(lines[r.value]).Some?
                        && forall j {:trigger MatchNamespace(lines[j])} | 0 <= j < r.value :: MatchNamespace(lines[j]).None?
  {
    if lines == [] then None
    else if MatchNamespace(lines[0]).Some? then Some(0)
    else match FirstMatch(lines[1..])
      case None => None
      case Some(i) => Some(i + 1)
  }

  /** What the first match is replaced by. */
  function Header(name: string): string {
    Keyword + " " + name + "\n{\n"
  }

  const ClosingBrace: string := "}\n"

  /** `str.rstrip()`: trailing white space removed. */
  function StripEnd(s: string): string {
    if s == [] || !IsSpace(s[|s| - 1]) then s else StripEnd(s[..|s| - 1])
  }

  /** `str.lstrip()`: leading white space removed. */
  function StripStart(s: string): string {
    if s == [] || !IsSpace(s[0]) then s else StripStart(s[1..])
  }

  /** `str.strip()`: white space removed from both ends. */
  function Strip(s: string): string {
    StripStart(StripEnd(s))
  }

  /** `rstrip` leaves a prefix, followed only by white space and not itself
      ending in white space. */
  lemma {:induction false} StripEndSpec(s: string)
    ensures var r := StripEnd(s);
            && |r| <= |s| && r == s[..|r|] && AllSpace(s[|r|..])
            && (r == [] || !IsSpace(r[|r| - 1]))
    decreases |s|
  {
    if s != [] && IsSpace(s[|s| - 1]) {
      StripEndSpec(s[..|s| - 1]);
      var r := StripEnd(s[..|s| - 1]);
      assert forall i | |r| <= i < |s| - 1 :: s[i] == s[..|s| - 1][|r|..][i - |r|];
    }
  }

  /** `lstrip` leaves a suffix, preceded only by white space and not itself
      starting with white space. */
  lemma {:induction false} StripStartSpec(s: string)
    ensures var r := StripStart(s);
            && |r| <= |s| && r == s[|s| - |r|..] && AllSpace(s[..|s| - |r|])
            && (r == [] || !IsSpace(r[0]))
    decreases |s|
  {
    if s != [] && IsSpace(s[0]) {
      StripStartSpec(s[1..]);
      var r := StripStart(s[1..]);
      assert forall i | 1 <= i < |s| - |r| :: s[i] == s[1..][..|s| - 1 - |r|][i - 1];
    }
  }

  /** `strip` is empty exactly for all-space text, and otherwise keeps the
      last character `rstrip` keeps. */
  lemma StripSpec(s: string)
    ensures var r := Strip(s);
            && (r == [] <==> AllSpace(s))
            && (r != [] ==> r[|r| - 1] == StripEnd(s)[|StripEnd(s)| - 1])
  {
    StripEndSpec(s);
    StripStartSpec(StripEnd(s));
  }

  predicate EndsWithBrace(s: string) {
    s != [] && s[|s| - 1] == '}'
  }

  /** The closing-brace rule: a brace line is appended unless the last
      element, stripped, already ends with `}`. */
  function WithClosingBrace(body: seq<string>): (r: seq<string>)
    requires body != []
    ensures r == body || r == body + [ClosingBrace]
    ensures r == body <==> EndsWithBrace(Strip(body[|body| - 1]))
  {
    if EndsWithBrace(Strip(body[|body| - 1])) then body else body + [ClosingBrace]
  }

  /** What `convert_namespace` writes: the first matching line replaced by the
      block header, every other line as it was, and the closing-brace rule
      applied; `None` (the file is not rewritten) when nothing matches. */
  function Converted(lines: seq<string>): (r: Option<seq<string>>)
    ensures r.None? <==> forall j {:trigger MatchNamespace(lines[j])} | 0 <= j < |lines| :: MatchNamespace(lines[j]).None?
    ensures r.Some? ==> |r.value| == |lines| || |r.value| == |lines| + 1
    ensures r.Some? ==> var i := FirstMatch(lines).value;
                        && r.value[i] == Header(MatchNamespace(lines[i]).value)
                        && forall j | 0 <= j < |lines| && j != i :: r.value[j] == lines[j]
  {
    match FirstMatch(lines)
    case None => None
    case Some(i) => Some(WithClosingBrace(lines[i := Header(MatchNamespace(lines[i]).value)]))
  }

  /** The first match of a list extended by one line. */
  lemma {:induction false} FirstMatchSnoc(lines: seq<string>, line: string)
    ensures FirstMatch(lines + [line]) ==
            if FirstMatch(lines).Some? then FirstMatch(lines)
            else if MatchNamespace(line).Some? then Some(|lines|) else None
    decreases |lines|
  {
    if lines == [] {
      assert [] + [line] == [line];
    } else {
      var longer := lines + [line];
      assert longer[0] == lines[0] && longer[1..] == lines[1..] + [line];
      FirstMatchSnoc(lines[1..], line);
    }
  }

  /** The script's loop: one pass over the lines with the `namespace_found`
      flag, then the closing-brace rule, and the list written only when a
      namespace was found. */
  method ConvertNamespace(lines: seq<string>) returns (written: Option<seq<string>>)
    ensures written == Converted(lines)
  {
    var newLines: seq<string> := [];
    var namespaceFound := false;
    ghost var at: nat := 0;
    ghost var header: string := [];
    for k := 0 to |lines|
      invariant namespaceFound <==> FirstMatch(lines[..k]).Some?
      invariant !namespaceFound ==> newLines == lines[..k]
      invariant namespaceFound ==> && FirstMatch(lines[..k]) == Some(at) && at < k
                                   && header == Header(MatchNamespace(lines[at]).value)
                                   && newLines == lines[..k][at := header]
    {
      var line := lines[k];
      var m := MatchNamespace(line);
      assert lines[..k + 1] == lines[..k] + [line];
      FirstMatchSnoc(lines[..k], line);
      if m.Some? && !namespaceFound {
        ReplaceLast(lines[..k], line, Header(m.value));
        newLines := newLines + [Header(m.value)];
        namespaceFound := true;
        at, header := k, Header(m.value);
      } else {
        if namespaceFound {
          ReplaceBeforeLast(lines[..k], line, at, header);
        }
        newLines := newLines + [line];
      }
    }
    assert lines[..|lines|] == lines;
    if namespaceFound {
      if !EndsWithBrace(Strip(newLines[|newLines| - 1])) {
        newLines := newLines + [ClosingBrace];
      }
      written := Some(newLines);
    } else {
      written := None;
    }
  }

  /** Replacing the line just appended. */
  lemma ReplaceLast(xs: seq<string>, x: string, h: string)
    ensures (xs + [x])[|xs| := h] == xs + [h]
  {
  }

  /** A replacement made before a line was appended survives the append. */
  lemma ReplaceBeforeLast(xs: seq<string>, x: string, i: nat, h: string)
    requires i < |xs|
    ensures (xs + [x])[i := h] == xs[i := h] + [x]
  {
  }

  /** The matched line's indentation and whatever follows its semicolon are
      dropped: the replacement depends on the name alone. */
  lemma {:induction false} IndentAndTrailerDropped(lines: seq<string>, a: string, b: string, name: string, rest: string)
    requires FirstMatch(lines).Some? && Shape(lines[FirstMatch(lines).value], a, b, name, rest)
    ensures Converted(lines).Some?
    ensures Converted(lines).value[FirstMatch(lines).value] == "namespace " + name + "\n{\n"
  {
    MatchNamespaceComplete(lines[FirstMatch(lines).value], a, b, name, rest);
  }

  /** The appended line, stripped, is the brace itself. */
  lemma ClosingBraceStrips()
    ensures EndsWithBrace(Strip(ClosingBrace))
  {
    var t := StripEnd(ClosingBrace);
    assert !IsSpace('}') && IsSpace('\n');
    assert !AllSpace(ClosingBrace) by { assert ClosingBrace[0] == '}'; }
    assert |t| == 1;
    assert t[0] == '}';
  }

  /** After a rewrite the last line, stripped, always ends with `}`. */
  lemma ConvertedEndsClosed(lines: seq<string>)
    requires Converted(lines).Some?
    ensures var out := Converted(lines).value; out != [] && EndsWithBrace(Strip(out[|out| - 1]))
  {
    var body := RewrittenBody(lines);
    BracedEndsClosed(body, Converted(lines).value);
  }

  /** The block header a rewrite produces is not itself a match: after the
      name comes a line break, not a semicolon. */
  lemma HeaderDoesNotMatch(name: string)
    requires name != [] && AllWord(name)
    ensures MatchNamespace(Header(name)) == None
  {
    var afterGap := name + ['\n'] + "{\n";
    assert Header(name) == [] + (Keyword[0..] + (" " + afterGap));
    IndentRun([], Keyword[0..] + (" " + afterGap));
    KeywordRun(0, " " + afterGap);
    assert afterGap[0] == name[0];
    GapRun(" ", false, afterGap);
    NameRun(name, [], '\n', "{\n");
  }

  /** The closing-brace rule on the rewritten list: a brace line is appended
      exactly when the last line, after the replacement, does not end with
      `}` once stripped. */
  lemma {:induction false} ClosingBraceRule(lines: seq<string>)
    requires Converted(lines).Some?
    ensures var i := FirstMatch(lines).value;
            var body := lines[i := Header(MatchNamespace(lines[i]).value)];
            var out := Converted(lines).value;
            && (|out| == |lines| + 1 <==> !EndsWithBrace(Strip(body[|lines| - 1])))
            && (|out| == |lines| + 1 ==> out[|lines|] == ClosingBrace)
  {
    var i := FirstMatch(lines).value;
    var body := lines[i := Header(MatchNamespace(lines[i]).value)];
    ConvertedBraced(lines);
    ReplacedLength(lines, i, body);
    BraceRule(lines, body, Converted(lines).value);
  }

  /** The rewrite is the closing-brace rule applied to the list with its
      first match replaced. */
  lemma {:induction false} ConvertedBraced(lines: seq<string>)
    requires Converted(lines).Some?
    ensures var i := FirstMatch(lines).value;
            var body := lines[i := Header(MatchNamespace(lines[i]).value)];
            Converted(lines).value == WithClosingBrace(body)
  {
  }

  /** Some non-empty list of lines of which the rewrite is the closing-brace
      rule. */
  lemma {:induction false} RewrittenBody(lines: seq<string>) returns (body: seq<string>)
    requires Converted(lines).Some?
    ensures body != [] && Converted(lines).value == WithClosingBrace(body)
  {
    var i := FirstMatch(lines).value;
    body := lines[i := Header(MatchNamespace(lines[i]).value)];
  }

  /** Replacing a line keeps the number of lines. */
  lemma {:induction false} ReplacedLength(lines: seq<string>, i: nat, body: seq<string>)
    requires FirstMatch(lines) == Some(i)
    requires body == lines[i := Header(MatchNamespace(lines[i]).value)]
    ensures |body| == |lines|
  {
  }

  /** The closing-brace rule on a non-empty list as long as `lines`. */
  lemma BraceRule(lines: seq<string>, body: seq<string>, out: seq<string>)
    requires body != [] && |body| == |lines| && out == WithClosingBrace(body)
    ensures && (|out| == |lines| + 1 <==> !EndsWithBrace(Strip(body[|lines| - 1])))
            && (|out| == |lines| + 1 ==> out[|lines|] == ClosingBrace)
  {
    if EndsWithBrace(Strip(body[|body| - 1])) {
      assert out == body;
    } else {
      assert out == body + [ClosingBrace];
    }
  }

  /** After the closing-brace rule the last line, stripped, ends with `}`. */
  lemma BracedEndsClosed(body: seq<string>, out: seq<string>)
    requires body != [] && out == WithClosingBrace(body)
    ensures out != [] && EndsWithBrace(Strip(out[|out| - 1]))
  {
    if out != body {
      ClosingBraceStrips();
      assert out[|out| - 1] == ClosingBrace;
    }
  }

  /** A match on the last line always gets a closing brace: the header ends
      with `{`. */
  lemma {:induction false} MatchOnLastLineCloses(lines: seq<string>)
    requires lines != [] && FirstMatch(lines) == Some(|lines| - 1)
    ensures Converted(lines).Some? && |Converted(lines).value| == |lines| + 1
  {
    var h := Header(MatchNamespace(lines[|lines| - 1]).value);
    assert h[|h| - 1] == '\n' && h[|h| - 2] == '{';
    var t := StripEnd(h);
    assert |t| == |h| - 1 by {
      assert IsSpace(h[|h| - 1]) && !IsSpace(h[|h| - 2]);
      assert h[..|h| - 1][|h| - 2] == '{';
    }
    assert !AllSpace(h) by { assert h[|h| - 2] == '{'; }
    StripSpec(h);
  }

  /** The appended brace line is not a match either. */
  lemma ClosingBraceDoesNotMatch()
    ensures MatchNamespace(ClosingBrace) == None
  {
    assert ClosingBrace[0] == '}' && !IsSpace('}');
  }

  /** Running the script again on a file it rewrote, which had one matching
      line, leaves the file alone. */
  lemma {:induction false} ConvertTwiceLeavesFile(lines: seq<string>)
    requires Converted(lines).Some?
    requires forall j | 0 <= j < |lines| && j != FirstMatch(lines).value :: MatchNamespace(lines[j]).None?
    ensures Converted(Converted(lines).value) == None
  {
    var i := FirstMatch(lines).value;
    var out := Converted(lines).value;
    var name := MatchNamespace(lines[i]).value;
    var _, _, _ := MatchNamespaceSound(lines[i]);
    HeaderDoesNotMatch(name);
    ClosingBraceDoesNotMatch();
    assert out[i] == Header(name);
    forall j | 0 <= j < |out| ensures MatchNamespace(out[j]).None? {
      if j == |lines| {
        assert out[j] == ClosingBrace;
      } else if j != i {
        assert out[j] == lines[j];
      }
    }
  }
}
