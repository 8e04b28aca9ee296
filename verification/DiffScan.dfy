/** The accepted-lines scanner: one pass over the text of a unified diff that
    counts added and deleted lines and fingerprints the effective added ones.
    `accepted_lines.rs` */
module DiffScan {
  import opened Common

  // ---------------------------------------------------------------- text

  /** What the scanner takes from outside: the SHA-1 fingerprint of a value in a
      domain, and the Unicode alphanumeric classes. */
  datatype Env = Env(hash: (string, string) -> string, alphanumeric: char -> bool)

  datatype Fingerprint = Fingerprint(pathHash: string, lineHash: string)

  datatype Summary = Summary(added: nat, deleted: nat, fingerprints: seq<Fingerprint>)

  /** The Unicode White_Space property, in full. */
  predicate IsSpace(c: char)
  {
    var u := c as int;
    0x9 <= u <= 0xD || u == 0x20 || u == 0x85 || u == 0xA0 || u == 0x1680 || 0x2000 <= u <= 0x200A
    || u == 0x2028 || u == 0x2029 || u == 0x202F || u == 0x205F || u == 0x3000
  }

  predicate AllSpace(s: string) { forall i :: 0 <= i < |s| ==> IsSpace(s[i]) }

  predicate OneLine(s: string) { '\n' !in s }

  function FirstNewline(text: string): (k: nat)
    ensures k <= |text| && OneLine(text[..k]) && (k < |text| ==> text[k] == '\n')
  {
    if text == "" || text[0] == '\n' then 0 else 1 + FirstNewline(text[1..])
  }

  function StripCr(line: string): string
  {
    if line != "" && Last(line) == '\r' then Front(line) else line
  }

  /** `str::lines`: a final newline opens no further line, and `\r` is dropped
      only in front of a newline. */
  function Lines(text: string): seq<string>
  {
    var k := FirstNewline(text);
    if k == |text| then (if text == "" then [] else [text])
    else [StripCr(text[..k])] + Lines(text[k + 1..])
  }

  function Unlines(lines: seq<string>): string
  {
    if lines == [] then "" else lines[0] + "\n" + Unlines(lines[1..])
  }

  function TrimStart(s: string): string
  {
    if s != "" && IsSpace(s[0]) then TrimStart(s[1..]) else s
  }

  function TrimEnd(s: string): string
  {
    if s != "" && IsSpace(Last(s)) then TrimEnd(Front(s)) else s
  }

  function WordLength(s: string): (k: nat)
    ensures k <= |s| && (forall i :: 0 <= i < k ==> !IsSpace(s[i])) && (k < |s| ==> IsSpace(s[k]))
  {
    if s == "" || IsSpace(s[0]) then 0 else 1 + WordLength(s[1..])
  }

  /** `split_whitespace`. */
  function Words(s: string): seq<string>
  {
    if s == "" then []
    else if IsSpace(s[0]) then Words(s[1..])
    else [s[..WordLength(s)]] + Words(s[WordLength(s)..])
  }

  function Join(words: seq<string>): string
  {
    if words == [] then "" else if |words| == 1 then words[0] else words[0] + " " + Join(words[1..])
  }

  function Utf8Length(s: string): nat
  {
    if s == "" then 0
    else
      var u := s[0] as int;
      (if u < 0x80 then 1 else if u < 0x800 then 2 else if u < 0x1_0000 then 3 else 4) + Utf8Length(s[1..])
  }

  function NormalizeEffectiveLine(env: Env, line: string): Option<string>
  {
    var normalized := Join(Words(line));
    if Utf8Length(normalized) <= 3 then None
    else if !exists i :: 0 <= i < |normalized| && (env.alphanumeric(normalized[i]) || normalized[i] == '_') then None
    else Some(normalized)
  }

  function NormalizeDiffPath(raw: string): Option<string>
  {
    var path := TrimEnd(TrimStart(raw));
    if path == "/dev/null" then None
    else if "b/" <= path || "a/" <= path then Some(path[2..])
    else Some(path)
  }

  // ------------------------------------------------------------- scanner

  datatype ScanState = ScanState(path: Option<string>, inHunk: bool, summary: Summary)

  const START := ScanState(None, false, Summary(0, 0, []))

  function Fingerprints(env: Env, path: Option<string>, line: string): seq<Fingerprint>
  {
    var effective := NormalizeEffectiveLine(env, line);
    if path.Some? && effective.Some?
    then [Fingerprint(env.hash("path", path.value), env.hash("line", effective.value))]
    else []
  }

  function CountAdded(env: Env, st: ScanState, line: string): ScanState
  {
    st.(summary := st.summary.(
        added := st.summary.added + 1,
        fingerprints := st.summary.fingerprints + Fingerprints(env, st.path, line)))
  }

  function CountDeleted(st: ScanState): ScanState
  {
    st.(summary := st.summary.(deleted := st.summary.deleted + 1))
  }

  function ScanLine(env: Env, st: ScanState, line: string): ScanState
  {
    if "diff --git " <= line then st.(path := None, inHunk := false)
    else if "@@ " <= line then st.(inHunk := true)
    else if !st.inHunk && "+++ " <= line then st.(path := NormalizeDiffPath(line[4..]))
    else if !st.inHunk && "--- " <= line then st
    else if "+" <= line then CountAdded(env, st, line[1..])
    else if "-" <= line then CountDeleted(st)
    else st
  }

  function ScanFrom(env: Env, st: ScanState, lines: seq<string>): ScanState
    decreases |lines|
  {
    if lines == [] then st else ScanFrom(env, ScanLine(env, st, lines[0]), lines[1..])
  }

  function Scan(env: Env, text: string): Summary
  {
    ScanFrom(env, START, Lines(text)).summary
  }

  /** The scanner's loop, with the source's five variables. */
  method AcceptedLineFingerprintsFromUnifiedDiff(env: Env, text: string) returns (summary: Summary)
    ensures summary == Scan(env, text)
  {
    var currentPath: Option<string> := None;
    var inHunk := false;
    var added, deleted: nat := 0, 0;
    var fingerprints: seq<Fingerprint> := [];
    var lines := Lines(text);
    var i := 0;
    while i < |lines|
      invariant 0 <= i <= |lines|
      invariant ScanFrom(env, START, lines)
             == ScanFrom(env, ScanState(currentPath, inHunk, Summary(added, deleted, fingerprints)), lines[i..])
    {
      var line := lines[i];
      assert lines[i..][1..] == lines[i + 1..];
      i := i + 1;
      if "diff --git " <= line {
        currentPath := None;
        inHunk := false;
        continue;
      }
      if "@@ " <= line {
        inHunk := true;
        continue;
      }
      if !inHunk && "+++ " <= line {
        currentPath := NormalizeDiffPath(line[4..]);
        continue;
      }
      if !inHunk && "--- " <= line {
        continue;
      }
      if "+" <= line {
        added := added + 1;
        var effective := NormalizeEffectiveLine(env, line[1..]);
        if currentPath.Some? && effective.Some? {
          fingerprints := fingerprints
            + [Fingerprint(env.hash("path", currentPath.value), env.hash("line", effective.value))];
        } else {
          assert fingerprints + [] == fingerprints;
        }
        continue;
      }
      if "-" <= line {
        deleted := deleted + 1;
      }
    }
    summary := Summary(added, deleted, fingerprints);
  }

  // ------------------------------------------------- the diffs it reads

  datatype HunkLine = Context(text: string) | Added(text: string) | Deleted(text: string) | NoNewlineAtEnd

  datatype Hunk = Hunk(ranges: string, lines: seq<HunkLine>)

  datatype Target = DevNull | Path(path: string)

  datatype Body = NoText | Text(oldFile: string, target: Target, padding: string, hunks: seq<Hunk>)

  /** One file of a diff.  `git` is what follows `diff --git `; a plain unified
      diff has no such line. */
  datatype FileDiff = FileDiff(git: Option<string>, extended: seq<string>, body: Body)

  function PrintHunkLine(l: HunkLine): string
  {
    match l
    case Context(text) => " " + text
    case Added(text) => "+" + text
    case Deleted(text) => "-" + text
    case NoNewlineAtEnd => "\\ No newline at end of file"
  }

  function PrintHunk(h: Hunk): seq<string>
  {
    ["@@ " + h.ranges] + Map(h.lines, PrintHunkLine)
  }

  function PrintHunks(hs: seq<Hunk>): seq<string>
  {
    if hs == [] then [] else PrintHunk(hs[0]) + PrintHunks(hs[1..])
  }

  function PrintTarget(t: Target): string
  {
    if t.DevNull? then "/dev/null" else "b/" + t.path
  }

  function PrintGit(f: FileDiff): seq<string>
  {
    (if f.git.Some? then ["diff --git " + f.git.value] else []) + f.extended
  }

  function PrintBody(b: Body): seq<string>
  {
    if b.NoText? then []
    else ["--- " + b.oldFile, "+++ " + PrintTarget(b.target) + b.padding] + PrintHunks(b.hunks)
  }

  function PrintFiles(fs: seq<FileDiff>): seq<string>
  {
    if fs == [] then [] else PrintGit(fs[0]) + PrintBody(fs[0].body) + PrintFiles(fs[1..])
  }

  /** Header lines between `diff --git` and `---`: `index`, `new file mode`, `rename from`, ... */
  ghost predicate ExtendedHeader(line: string)
  {
    OneLine(line) && !("+" <= line) && !("-" <= line) && !("@@ " <= line) && !("diff --git " <= line)
  }

  ghost predicate WellFormedHunk(h: Hunk)
  {
    OneLine(h.ranges) && forall l :: l in h.lines ==> l.NoNewlineAtEnd? || OneLine(l.text)
  }

  ghost predicate WellFormedBody(b: Body)
  {
    b.Text? ==>
      && OneLine(b.oldFile) && OneLine(b.padding) && AllSpace(b.padding)
      && (b.target.Path? ==> OneLine(b.target.path))
      && forall h :: h in b.hunks ==> WellFormedHunk(h)
  }

  ghost predicate WellFormed(f: FileDiff)
  {
    && (f.git.Some? ==> OneLine(f.git.value))
    && (f.git.None? ==> f.extended == [] && f.body.Text?)
    && (forall e :: e in f.extended ==> ExtendedHeader(e))
    && WellFormedBody(f.body)
  }

  ghost predicate AllWellFormed(fs: seq<FileDiff>) { forall f :: f in fs ==> WellFormed(f) }

  // ------------------------------------- what the scan of a diff should say

  function HunkLineSummary(env: Env, path: Option<string>, l: HunkLine): Summary
  {
    match l
    case Added(text) => Summary(1, 0, Fingerprints(env, path, text))
    case Deleted(_) => Summary(0, 1, [])
    case _ => Summary(0, 0, [])
  }

  function Plus(a: Summary, b: Summary): Summary
  {
    Summary(a.added + b.added, a.deleted + b.deleted, a.fingerprints + b.fingerprints)
  }

  lemma PlusAssociates(a: Summary, b: Summary, c: Summary)
    ensures Plus(Plus(a, b), c) == Plus(a, Plus(b, c))
  {
    assert a.fingerprints + b.fingerprints + c.fingerprints == a.fingerprints + (b.fingerprints + c.fingerprints);
  }

  function HunkLinesSummary(env: Env, path: Option<string>, ls: seq<HunkLine>): Summary
  {
    if ls == [] then Summary(0, 0, [])
    else Plus(HunkLineSummary(env, path, ls[0]), HunkLinesSummary(env, path, ls[1..]))
  }

  function HunksSummary(env: Env, path: Option<string>, hs: seq<Hunk>): Summary
  {
    if hs == [] then Summary(0, 0, [])
    else Plus(HunkLinesSummary(env, path, hs[0].lines), HunksSummary(env, path, hs[1..]))
  }

  function TargetPath(t: Target): Option<string>
  {
    if t.DevNull? then None else Some(t.path)
  }

  function BodySummary(env: Env, b: Body): Summary
  {
    if b.NoText? then Summary(0, 0, []) else HunksSummary(env, TargetPath(b.target), b.hunks)
  }

  function FilesSummary(env: Env, fs: seq<FileDiff>): Summary
  {
    if fs == [] then Summary(0, 0, []) else Plus(BodySummary(env, fs[0].body), FilesSummary(env, fs[1..]))
  }

  /** The path the scanner makes of a target: it trims the header. */
  function ReadPath(t: Target): Option<string>
  {
    if t.DevNull? then None else Some(TrimEnd(t.path))
  }

  /** The same with every file under the path that is read for it. */
  function ReadBody(env: Env, b: Body): Summary
  {
    if b.NoText? then Summary(0, 0, []) else HunksSummary(env, ReadPath(b.target), b.hunks)
  }

  function ReadFiles(env: Env, fs: seq<FileDiff>): Summary
  {
    if fs == [] then Summary(0, 0, []) else Plus(ReadBody(env, fs[0].body), ReadFiles(env, fs[1..]))
  }

  /** Whether the text printed so far leaves the scanner inside a hunk. */
  function EndsInHunk(before: bool, f: FileDiff): bool
  {
    (f.body.Text? && f.body.hunks != []) || (f.git.None? && before)
  }

  /** How many files lack the `diff --git` line that would tell the scanner the
      previous file's hunk is over. */
  function Unannounced(before: bool, fs: seq<FileDiff>): nat
    decreases |fs|
  {
    if fs == [] then 0
    else Missed(before, fs[0]) + Unannounced(EndsInHunk(before, fs[0]), fs[1..])
  }

  function Missed(before: bool, f: FileDiff): nat
  {
    if before && f.git.None? then 1 else 0
  }

  /** `got` is `base` with the lines of `want` counted, plus `extra` header lines of each sign
      taken for hunk lines; fingerprints are only promised where none was. */
  ghost predicate Counted(base: Summary, got: Summary, want: Summary, extra: nat)
  {
    && got.added == base.added + want.added + extra
    && got.deleted == base.deleted + want.deleted + extra
    && (extra == 0 ==> got.fingerprints == base.fingerprints + want.fingerprints)
  }

  lemma CountedCompose(a: Summary, b: Summary, c: Summary, want1: Summary, extra1: nat, want2: Summary, extra2: nat)
    requires Counted(a, b, want1, extra1) && Counted(b, c, want2, extra2)
    ensures Counted(a, c, Plus(want1, want2), extra1 + extra2)
  {
    PlusAssociates(a, want1, want2);
  }

  // ------------------------------------------------------ text lemmas

  lemma {:induction false} FirstNewlineAt(line: string, rest: string)
    requires OneLine(line)
    ensures FirstNewline(line + "\n" + rest) == |line|
  {
    if line != "" {
      assert line[0] in line;
      assert (line + "\n" + rest)[1..] == line[1..] + "\n" + rest;
      FirstNewlineAt(line[1..], rest);
    }
  }

  lemma LinesOfOneMore(line: string, rest: string)
    requires OneLine(line)
    ensures Lines(line + "\n" + rest) == [StripCr(line)] + Lines(rest)
  {
    var text := line + "\n" + rest;
    FirstNewlineAt(line, rest);
    hide FirstNewline, StripCr;
    assert text[..|line|] == line && text[|line| + 1..] == rest;
  }

  lemma {:induction false} LinesOfUnlines(lines: seq<string>)
    requires forall l :: l in lines ==> OneLine(l)
    ensures Lines(Unlines(lines)) == Map(lines, StripCr)
  {
    if lines != [] {
      LinesOfOneMore(lines[0], Unlines(lines[1..]));
      LinesOfUnlines(lines[1..]);
      hide Lines, StripCr;
      assert Map(lines, StripCr) == [StripCr(lines[0])] + Map(lines[1..], StripCr);
    }
  }

  lemma {:induction false} WordLengthAppendSpace(s: string, c: char)
    requires IsSpace(c)
    ensures WordLength(s + [c]) == WordLength(s)
  {
    if s != "" && !IsSpace(s[0]) {
      assert (s + [c])[1..] == s[1..] + [c];
      WordLengthAppendSpace(s[1..], c);
    }
  }

  lemma {:induction false} WordsAppendSpace(s: string, c: char)
    requires IsSpace(c)
    ensures Words(s + [c]) == Words(s)
    decreases |s|
  {
    if s == "" {
      assert s + [c] == [c] && [c][1..] == "";
    } else if IsSpace(s[0]) {
      assert (s + [c])[1..] == s[1..] + [c];
      WordsAppendSpace(s[1..], c);
    } else {
      var k := WordLength(s);
      WordLengthAppendSpace(s, c);
      assert (s + [c])[..k] == s[..k] && (s + [c])[k..] == s[k..] + [c];
      assert k > 0;
      WordsAppendSpace(s[k..], c);
    }
  }

  lemma {:induction false} TrimAppendSpace(s: string, c: char)
    requires IsSpace(c)
    ensures TrimEnd(TrimStart(s + [c])) == TrimEnd(TrimStart(s))
  {
    if s == "" {
      assert s + [c] == [c] && [c][1..] == "";
    } else if IsSpace(s[0]) {
      assert (s + [c])[1..] == s[1..] + [c];
      TrimAppendSpace(s[1..], c);
    } else {
      assert Front(s + [c]) == s;
    }
  }

  lemma {:induction false} TrimEndDropsPadding(s: string, padding: string)
    requires AllSpace(padding)
    ensures TrimEnd(s + padding) == TrimEnd(s)
  {
    if padding == "" {
      assert s + padding == s;
    } else {
      assert Last(s + padding) == Last(padding) && Front(s + padding) == s + Front(padding);
      TrimEndDropsPadding(s, Front(padding));
    }
  }

  lemma {:induction false} TrimEndStopsAt(prefix: string, s: string)
    requires prefix != "" && !IsSpace(Last(prefix))
    ensures TrimEnd(prefix + s) == prefix + TrimEnd(s)
  {
    if s == "" {
      assert prefix + s == prefix;
    } else {
      assert Last(prefix + s) == Last(s) && Front(prefix + s) == prefix + Front(s);
      TrimEndStopsAt(prefix, Front(s));
    }
  }

  lemma TargetIsRead(t: Target, padding: string)
    requires AllSpace(padding)
    ensures NormalizeDiffPath(PrintTarget(t) + padding) == ReadPath(t)
  {
    var target := PrintTarget(t);
    var raw := target + padding;
    assert raw[0] == target[0] && !IsSpace(raw[0]);
    assert TrimStart(raw) == raw;
    TrimEndDropsPadding(target, padding);
    hide TrimStart;
    if t.Path? {
      var b, trimmed := "b/", TrimEnd(t.path);
      assert Last(b) == '/';
      TrimEndStopsAt(b, t.path);
      var path := b + trimmed;
      assert TrimEnd(raw) == path;
      assert path[0] == 'b' && "/dev/null"[0] == '/';
      assert b <= path && path[2..] == trimmed;
    } else {
      assert Last(target) == 'l';
      assert TrimEnd(target) == target;
    }
  }

  // ---------------------------------------------------- scanning a print

  /** A line's first character settles which of the scanner's prefixes it can have. */
  lemma FirstCharacter(line: string)
    ensures line == "" || line[0] != 'd' ==> !("diff --git " <= line)
    ensures line == "" || line[0] != '@' ==> !("@@ " <= line)
    ensures line == "" || line[0] != '+' ==> !("+++ " <= line)
    ensures line == "" || line[0] != '-' ==> !("--- " <= line)
    ensures "+" <= line <==> line != "" && line[0] == '+'
    ensures "-" <= line <==> line != "" && line[0] == '-'
  {
    assert "diff --git "[0] == 'd' && "@@ "[0] == '@' && "+++ "[0] == '+' && "--- "[0] == '-';
  }

  lemma PrefixIgnoresCr(prefix: string, line: string)
    requires prefix != "" && Last(prefix) != '\r'
    ensures prefix <= StripCr(line) <==> prefix <= line
  {
    if line != "" && Last(line) == '\r' && prefix <= line {
      assert |prefix| < |line|;
    }
  }

  lemma PrefixesIgnoreCr(line: string)
    ensures "diff --git " <= StripCr(line) <==> "diff --git " <= line
    ensures "@@ " <= StripCr(line) <==> "@@ " <= line
    ensures "+++ " <= StripCr(line) <==> "+++ " <= line
    ensures "--- " <= StripCr(line) <==> "--- " <= line
    ensures "+" <= StripCr(line) <==> "+" <= line
    ensures "-" <= StripCr(line) <==> "-" <= line
  {
    PrefixIgnoresCr("diff --git ", line);
    PrefixIgnoresCr("@@ ", line);
    PrefixIgnoresCr("+++ ", line);
    PrefixIgnoresCr("--- ", line);
    PrefixIgnoresCr("+", line);
    PrefixIgnoresCr("-", line);
  }

  /** A carriage return at the end of a line never changes what the scan makes of it. */
  lemma LineIgnoresCr(env: Env, st: ScanState, line: string)
    ensures ScanLine(env, st, StripCr(line)) == ScanLine(env, st, line)
  {
    PrefixesIgnoreCr(line);
    hide Words, Join, TrimStart, TrimEnd;
    if line != "" && Last(line) == '\r' {
      if "+++ " <= line {
        assert line[4..] == Front(line)[4..] + ['\r'];
        TrimAppendSpace(Front(line)[4..], '\r');
      }
      if "+" <= line {
        FirstCharacter(line);
        assert |line| >= 2;
        assert line[1..] == Front(line)[1..] + ['\r'];
        WordsAppendSpace(Front(line)[1..], '\r');
      }
    }
  }

  lemma {:induction false} ScanIgnoresCr(env: Env, st: ScanState, lines: seq<string>)
    ensures ScanFrom(env, st, Map(lines, StripCr)) == ScanFrom(env, st, lines)
    decreases |lines|
  {
    if lines != [] {
      LineIgnoresCr(env, st, lines[0]);
      assert Map(lines, StripCr)[1..] == Map(lines[1..], StripCr);
      ScanIgnoresCr(env, ScanLine(env, st, lines[0]), lines[1..]);
    }
  }

  lemma {:induction false} ScanAppend(env: Env, st: ScanState, xs: seq<string>, ys: seq<string>)
    ensures ScanFrom(env, st, xs + ys) == ScanFrom(env, ScanFrom(env, st, xs), ys)
    decreases |xs|
  {
    if xs == [] {
      assert xs + ys == ys;
    } else {
      assert (xs + ys)[1..] == xs[1..] + ys;
      ScanAppend(env, ScanLine(env, st, xs[0]), xs[1..], ys);
    }
  }

  lemma ScanCons(env: Env, st: ScanState, line: string, rest: seq<string>)
    ensures ScanFrom(env, st, [line] + rest) == ScanFrom(env, ScanLine(env, st, line), rest)
  {
    assert ([line] + rest)[1..] == rest;
  }

  /** Inside a hunk a line counts by its first character alone, whatever header
      the rest of it resembles. */
  lemma ScanHunkLine(env: Env, st: ScanState, l: HunkLine)
    requires st.inHunk
    ensures ScanLine(env, st, PrintHunkLine(l)) == st.(summary := Plus(st.summary, HunkLineSummary(env, st.path, l)))
  {
    FirstCharacter(PrintHunkLine(l));
    if l.Added? {
      assert ("+" + l.text)[1..] == l.text;
    }
  }

  lemma {:induction false} ScanHunkLines(env: Env, st: ScanState, ls: seq<HunkLine>)
    requires st.inHunk
    ensures ScanFrom(env, st, Map(ls, PrintHunkLine))
        == st.(summary := Plus(st.summary, HunkLinesSummary(env, st.path, ls)))
    decreases |ls|
  {
    if ls != [] {
      var st1 := st.(summary := Plus(st.summary, HunkLineSummary(env, st.path, ls[0])));
      ScanHunkLine(env, st, ls[0]);
      assert Map(ls, PrintHunkLine) == [PrintHunkLine(ls[0])] + Map(ls[1..], PrintHunkLine);
      ScanCons(env, st, PrintHunkLine(ls[0]), Map(ls[1..], PrintHunkLine));
      ScanHunkLines(env, st1, ls[1..]);
      PlusAssociates(st.summary, HunkLineSummary(env, st.path, ls[0]), HunkLinesSummary(env, st.path, ls[1..]));
    }
  }

  lemma {:induction false} ScanHunks(env: Env, st: ScanState, hs: seq<Hunk>)
    ensures ScanFrom(env, st, PrintHunks(hs))
         == st.(inHunk := st.inHunk || hs != [], summary := Plus(st.summary, HunksSummary(env, st.path, hs)))
    decreases |hs|
  {
    if hs != [] {
      var first, body, rest := "@@ " + hs[0].ranges, Map(hs[0].lines, PrintHunkLine), PrintHunks(hs[1..]);
      assert PrintHunks(hs) == [first] + (body + rest);
      var st1 := st.(inHunk := true);
      FirstCharacter(first);
      ScanCons(env, st, first, body + rest);
      ScanHunkLines(env, st1, hs[0].lines);
      ScanAppend(env, st1, body, rest);
      ScanHunks(env, st1.(summary := Plus(st.summary, HunkLinesSummary(env, st.path, hs[0].lines))), hs[1..]);
      PlusAssociates(st.summary, HunkLinesSummary(env, st.path, hs[0].lines), HunksSummary(env, st.path, hs[1..]));
    }
  }

  lemma {:induction false} ScanExtended(env: Env, st: ScanState, es: seq<string>)
    requires !st.inHunk && forall e :: e in es ==> ExtendedHeader(e)
    ensures ScanFrom(env, st, es) == st
  {
    if es != [] {
      FirstCharacter(es[0]);
      assert es[0] in es;
      assert ScanLine(env, st, es[0]) == st;
      ScanExtended(env, st, es[1..]);
    }
  }

  lemma ScanGit(env: Env, st: ScanState, f: FileDiff)
    requires WellFormed(f)
    ensures ScanFrom(env, st, PrintGit(f)) == if f.git.Some? then st.(path := None, inHunk := false) else st
  {
    if f.git.Some? {
      ScanCons(env, st, "diff --git " + f.git.value, f.extended);
      ScanExtended(env, st.(path := None, inHunk := false), f.extended);
    }
  }

  /** The state after a file's two header lines, which are hunk lines to a scanner
      still inside the previous file's hunk. */
  function AfterHeaders(env: Env, st: ScanState, b: Body): ScanState
    requires b.Text?
  {
    if st.inHunk then CountAdded(env, CountDeleted(st), "++ " + PrintTarget(b.target) + b.padding)
    else st.(path := ReadPath(b.target))
  }

  lemma ScanHeaders(env: Env, st: ScanState, b: Body)
    requires WellFormedBody(b) && b.Text?
    ensures ScanLine(env, ScanLine(env, st, "--- " + b.oldFile), "+++ " + PrintTarget(b.target) + b.padding)
         == AfterHeaders(env, st, b)
  {
    var raw := PrintTarget(b.target) + b.padding;
    var minus, plus := "--- " + b.oldFile, "+++ " + PrintTarget(b.target) + b.padding;
    FirstCharacter(minus);
    FirstCharacter(plus);
    assert "--- " <= minus && "+++ " <= plus;
    assert plus[4..] == raw && plus[1..] == "++ " + PrintTarget(b.target) + b.padding;
    TargetIsRead(b.target, b.padding);
  }

  lemma ScanBody(env: Env, st: ScanState, b: Body)
    requires WellFormedBody(b) && b.Text?
    ensures var h := AfterHeaders(env, st, b);
      ScanFrom(env, st, PrintBody(b))
      == h.(inHunk := h.inHunk || b.hunks != [], summary := Plus(h.summary, HunksSummary(env, h.path, b.hunks)))
  {
    var minus, plus := "--- " + b.oldFile, "+++ " + PrintTarget(b.target) + b.padding;
    var rest := PrintHunks(b.hunks);
    assert PrintBody(b) == [minus] + ([plus] + rest);
    ScanCons(env, st, minus, [plus] + rest);
    ScanCons(env, ScanLine(env, st, minus), plus, rest);
    ScanHeaders(env, st, b);
    ScanHunks(env, AfterHeaders(env, st, b), b.hunks);
  }

  /** Which lines of a hunk count does not depend on the path or on the hash. */
  lemma {:induction false} HunkCountsIgnorePath(env: Env, p: Option<string>, q: Option<string>, ls: seq<HunkLine>)
    ensures var a, b := HunkLinesSummary(env, p, ls), HunkLinesSummary(env, q, ls);
      a.added == b.added && a.deleted == b.deleted
  {
    if ls != [] { HunkCountsIgnorePath(env, p, q, ls[1..]); }
  }

  lemma {:induction false} CountsIgnorePath(env: Env, p: Option<string>, q: Option<string>, hs: seq<Hunk>)
    ensures var a, b := HunksSummary(env, p, hs), HunksSummary(env, q, hs);
      a.added == b.added && a.deleted == b.deleted
  {
    if hs != [] {
      HunkCountsIgnorePath(env, p, q, hs[0].lines);
      CountsIgnorePath(env, p, q, hs[1..]);
    }
  }

  lemma ScanTextFile(env: Env, st: ScanState, b: Body)
    requires WellFormedBody(b) && b.Text?
    ensures var after := ScanFrom(env, st, PrintBody(b));
      && after.inHunk == (st.inHunk || b.hunks != [])
      && Counted(st.summary, after.summary, ReadBody(env, b), if st.inHunk then 1 else 0)
  {
    ScanBody(env, st, b);
    CountsIgnorePath(env, AfterHeaders(env, st, b).path, ReadPath(b.target), b.hunks);
  }

  lemma ScanFile(env: Env, st: ScanState, f: FileDiff)
    requires WellFormed(f)
    ensures var after := ScanFrom(env, st, PrintGit(f) + PrintBody(f.body));
      && after.inHunk == EndsInHunk(st.inHunk, f)
      && Counted(st.summary, after.summary, ReadBody(env, f.body), Missed(st.inHunk, f))
  {
    ScanGit(env, st, f);
    ScanAppend(env, st, PrintGit(f), PrintBody(f.body));
    var st1 := ScanFrom(env, st, PrintGit(f));
    if f.body.Text? {
      ScanTextFile(env, st1, f.body);
    } else {
      assert st.summary.fingerprints + [] == st.summary.fingerprints;
    }
  }

  lemma {:induction false} ScanFiles(env: Env, st: ScanState, fs: seq<FileDiff>)
    requires AllWellFormed(fs)
    ensures Counted(st.summary, ScanFrom(env, st, PrintFiles(fs)).summary, ReadFiles(env, fs),
        Unannounced(st.inHunk, fs))
    decreases |fs|
  {
    if fs == [] {
      assert st.summary.fingerprints + [] == st.summary.fingerprints;
    } else {
      var f, rest := fs[0], fs[1..];
      var printed := PrintGit(f) + PrintBody(f.body);
      assert f in fs;
      ScanFile(env, st, f);
      ScanAppend(env, st, printed, PrintFiles(rest));
      var st1 := ScanFrom(env, st, printed);
      ScanFiles(env, st1, rest);
      var end := ScanFrom(env, st1, PrintFiles(rest)).summary;
      CountedCompose(st.summary, st1.summary, end, ReadBody(env, f.body), Missed(st.inHunk, f),
                     ReadFiles(env, rest), Unannounced(st1.inHunk, rest));
    }
  }

  lemma OneLineAppend(a: string, b: string)
    requires OneLine(a) && OneLine(b)
    ensures OneLine(a + b)
  {
  }

  lemma {:induction false} PrintedHunksAreOneLine(hs: seq<Hunk>, l: string)
    requires (forall h :: h in hs ==> WellFormedHunk(h)) && l in PrintHunks(hs)
    ensures OneLine(l)
  {
    assert hs[0] in hs;
    if l in PrintHunk(hs[0]) {
      OneLineAppend("@@ ", hs[0].ranges);
      if l != "@@ " + hs[0].ranges {
        var i :| 0 <= i < |hs[0].lines| && l == PrintHunkLine(hs[0].lines[i]);
        assert hs[0].lines[i] in hs[0].lines;
      }
    } else {
      PrintedHunksAreOneLine(hs[1..], l);
    }
  }

  lemma PrintedBodyIsOneLine(b: Body, l: string)
    requires WellFormedBody(b) && l in PrintBody(b)
    ensures OneLine(l)
  {
    if l in PrintHunks(b.hunks) {
      PrintedHunksAreOneLine(b.hunks, l);
    } else {
      hide PrintHunks;
      OneLineAppend("--- ", b.oldFile);
    }
  }

  lemma {:induction false} PrintedLinesAreOneLine(fs: seq<FileDiff>, l: string)
    requires AllWellFormed(fs) && l in PrintFiles(fs)
    ensures OneLine(l)
  {
    var f := fs[0];
    assert f in fs;
    if l in PrintBody(f.body) {
      PrintedBodyIsOneLine(f.body, l);
    } else if l in PrintGit(f) {
      hide PrintBody;
      if l !in f.extended { OneLineAppend("diff --git ", f.git.value); }
    } else {
      hide PrintBody, PrintGit;
      PrintedLinesAreOneLine(fs[1..], l);
    }
  }

  // ------------------------------------------------- paths read and meant

  predicate EffectiveLine(env: Env, l: HunkLine) { l.Added? && NormalizeEffectiveLine(env, l.text).Some? }

  ghost predicate HasEffectiveLine(env: Env, hs: seq<Hunk>)
  {
    exists h, l :: h in hs && l in h.lines && EffectiveLine(env, l)
  }

  /** The fingerprints of a file survive the trimming of its path: there are none, or the two paths hash alike. */
  ghost predicate PathKept(env: Env, f: FileDiff)
  {
    f.body.Text? && f.body.target.Path? && HasEffectiveLine(env, f.body.hunks) ==>
      env.hash("path", TrimEnd(f.body.target.path)) == env.hash("path", f.body.target.path)
  }

  /** Two lists of fingerprints of the same lines, under two paths. */
  ghost predicate Alike(a: seq<Fingerprint>, b: seq<Fingerprint>, effective: bool, same: bool)
  {
    |a| == |b| && (a != [] <==> effective) && (a == b <==> !effective || same)
  }

  lemma AlikeJoins(a1: seq<Fingerprint>, b1: seq<Fingerprint>, e1: bool, a2: seq<Fingerprint>, b2: seq<Fingerprint>,
      e2: bool, same: bool)
    requires Alike(a1, b1, e1, same) && Alike(a2, b2, e2, same)
    ensures Alike(a1 + a2, b1 + b2, e1 || e2, same)
  {
    JoinsEqual(a1, b1, a2, b2);
  }

  lemma JoinsEqual<T>(a1: seq<T>, b1: seq<T>, a2: seq<T>, b2: seq<T>)
    requires |a1| == |b1|
    ensures a1 + a2 == b1 + b2 <==> a1 == b1 && a2 == b2
  {
    if a1 + a2 == b1 + b2 {
      assert a1 == (a1 + a2)[..|a1|] == (b1 + b2)[..|b1|] == b1;
      assert a2 == (a1 + a2)[|a1|..] == (b1 + b2)[|b1|..] == b2;
    }
  }

  lemma LineFingerprintsAlike(env: Env, p: string, q: string, l: HunkLine)
    ensures Alike(HunkLineSummary(env, Some(p), l).fingerprints, HunkLineSummary(env, Some(q), l).fingerprints,
                  EffectiveLine(env, l), env.hash("path", p) == env.hash("path", q))
  {
    hide NormalizeEffectiveLine;
    var a, b := HunkLineSummary(env, Some(p), l).fingerprints, HunkLineSummary(env, Some(q), l).fingerprints;
    if EffectiveLine(env, l) { assert a == b <==> a[0] == b[0]; }
  }

  lemma {:induction false} HunkFingerprintsAlike(env: Env, p: string, q: string, ls: seq<HunkLine>)
    ensures Alike(HunkLinesSummary(env, Some(p), ls).fingerprints, HunkLinesSummary(env, Some(q), ls).fingerprints,
                  exists l :: l in ls && EffectiveLine(env, l), env.hash("path", p) == env.hash("path", q))
  {
    hide HunkLineSummary, EffectiveLine;
    if ls != [] {
      var same := env.hash("path", p) == env.hash("path", q);
      var more := exists l :: l in ls[1..] && EffectiveLine(env, l);
      HunkFingerprintsAlike(env, p, q, ls[1..]);
      var a, b := HunkLineSummary(env, Some(p), ls[0]).fingerprints, HunkLineSummary(env, Some(q), ls[0]).fingerprints;
      LineFingerprintsAlike(env, p, q, ls[0]);
      AlikeJoins(a, b, EffectiveLine(env, ls[0]), HunkLinesSummary(env, Some(p), ls[1..]).fingerprints,
                 HunkLinesSummary(env, Some(q), ls[1..]).fingerprints, more, same);
      assert ls[0] in ls;
      assert (exists l :: l in ls && EffectiveLine(env, l)) <==> EffectiveLine(env, ls[0]) || more;
    }
  }

  lemma {:induction false} FingerprintsAlike(env: Env, p: string, q: string, hs: seq<Hunk>)
    ensures Alike(HunksSummary(env, Some(p), hs).fingerprints, HunksSummary(env, Some(q), hs).fingerprints,
                  HasEffectiveLine(env, hs), env.hash("path", p) == env.hash("path", q))
  {
    hide EffectiveLine, HunkLinesSummary;
    if hs != [] {
      var first := exists l :: l in hs[0].lines && EffectiveLine(env, l);
      HunkFingerprintsAlike(env, p, q, hs[0].lines);
      FingerprintsAlike(env, p, q, hs[1..]);
      AlikeJoins(HunkLinesSummary(env, Some(p), hs[0].lines).fingerprints,
          HunkLinesSummary(env, Some(q), hs[0].lines).fingerprints, first,
                 HunksSummary(env, Some(p), hs[1..]).fingerprints, HunksSummary(env, Some(q), hs[1..]).fingerprints,
                 HasEffectiveLine(env, hs[1..]), env.hash("path", p) == env.hash("path", q));
      assert hs[0] in hs;
      assert HasEffectiveLine(env, hs) <==> first || HasEffectiveLine(env, hs[1..]);
    }
  }

  lemma ReadBodyIff(env: Env, f: FileDiff)
    ensures var read, meant := ReadBody(env, f.body), BodySummary(env, f.body);
      && read.added == meant.added && read.deleted == meant.deleted
      && |read.fingerprints| == |meant.fingerprints|
      && (read.fingerprints == meant.fingerprints <==> PathKept(env, f))
  {
    hide HunksSummary, HasEffectiveLine;
    var b := f.body;
    if b.Text? {
      CountsIgnorePath(env, ReadPath(b.target), TargetPath(b.target), b.hunks);
      if b.target.Path? { FingerprintsAlike(env, TrimEnd(b.target.path), b.target.path, b.hunks); }
    }
  }

  lemma {:induction false} ReadFilesIff(env: Env, fs: seq<FileDiff>)
    ensures var read, meant := ReadFiles(env, fs), FilesSummary(env, fs);
      && read.added == meant.added && read.deleted == meant.deleted
      && |read.fingerprints| == |meant.fingerprints|
      && (read.fingerprints == meant.fingerprints <==> forall f :: f in fs ==> PathKept(env, f))
  {
    hide ReadBody, BodySummary, PathKept;
    if fs != [] {
      ReadBodyIff(env, fs[0]);
      ReadFilesIff(env, fs[1..]);
      JoinsEqual(ReadBody(env, fs[0].body).fingerprints, BodySummary(env, fs[0].body).fingerprints,
                 ReadFiles(env, fs[1..]).fingerprints, FilesSummary(env, fs[1..]).fingerprints);
      assert fs[0] in fs;
      assert (forall f :: f in fs ==> PathKept(env, f)) <==> PathKept(env, fs[0]) && forall f :: f in fs[1..] ==>
          PathKept(env, f);
    }
  }

  // ------------------------------------------------------- main results

  /** What the scan of any printed diff says: it counts the true lines, plus one added and one deleted line for every
      file the scanner is not told about; without any such file its fingerprints are those under the trimmed paths. */
  lemma ScanOfPrint(env: Env, fs: seq<FileDiff>)
    requires AllWellFormed(fs)
    ensures var got, want, extra := Scan(env, Unlines(PrintFiles(fs))), FilesSummary(env, fs), Unannounced(false, fs);
      && got.added == want.added + extra
      && got.deleted == want.deleted + extra
      && (extra == 0 ==> got == ReadFiles(env, fs))
  {
    hide HunksSummary, PathKept;
    forall l | l in PrintFiles(fs) ensures OneLine(l) { PrintedLinesAreOneLine(fs, l); }
    LinesOfUnlines(PrintFiles(fs));
    ScanIgnoresCr(env, START, PrintFiles(fs));
    ScanFiles(env, START, fs);
    ReadFilesIff(env, fs);
  }

  /** The scanner inverts the printer on exactly the diffs in which no file is unannounced and no fingerprinted path
      suffers from being trimmed. */
  lemma ScanInvertsPrintIff(env: Env, fs: seq<FileDiff>)
    requires AllWellFormed(fs)
    ensures Scan(env, Unlines(PrintFiles(fs))) == FilesSummary(env, fs)
       <==> Unannounced(false, fs) == 0 && forall f :: f in fs ==> PathKept(env, f)
  {
    hide Scan, PrintFiles, FilesSummary, ReadFiles, PathKept;
    ScanOfPrint(env, fs);
    ReadFilesIff(env, fs);
  }

  /** In particular on every diff whose files all carry their `diff --git` line. */
  lemma {:induction false} GitDiffsAreAnnounced(before: bool, fs: seq<FileDiff>)
    requires forall f :: f in fs ==> f.git.Some?
    ensures Unannounced(before, fs) == 0
    decreases |fs|
  {
    if fs != [] { GitDiffsAreAnnounced(EndsInHunk(before, fs[0]), fs[1..]); }
  }

  lemma ScanInvertsGitPrint(env: Env, fs: seq<FileDiff>)
    requires AllWellFormed(fs) && forall f :: f in fs ==> f.git.Some?
    ensures Scan(env, Unlines(PrintFiles(fs))) == FilesSummary(env, fs) <==> forall f :: f in fs ==> PathKept(env, f)
    ensures (forall f :: f in fs && f.body.Text? && f.body.target.Path? ==> !EndsInSpace(f.body.target.path))
            ==> Scan(env, Unlines(PrintFiles(fs))) == FilesSummary(env, fs)
  {
    hide Scan, PrintFiles, FilesSummary, HasEffectiveLine;
    GitDiffsAreAnnounced(false, fs);
    ScanInvertsPrintIff(env, fs);
  }

  predicate EndsInSpace(path: string) { path != "" && IsSpace(Last(path)) }

  /** A git diff of one file whose path is changed by trimming is fingerprinted wrongly as soon as one of its lines is
      fingerprinted at all and the hash tells the two paths apart. */
  lemma SpacedPathIsMisread(env: Env, f: FileDiff)
    requires WellFormed(f) && f.git.Some? && f.body.Text? && f.body.target.Path? && HasEffectiveLine(env, f.body.hunks)
    requires env.hash("path", TrimEnd(f.body.target.path)) != env.hash("path", f.body.target.path)
    ensures Scan(env, Unlines(PrintFiles([f]))) != FilesSummary(env, [f])
  {
    hide Scan, PrintFiles, FilesSummary, HasEffectiveLine;
    assert !PathKept(env, f) && f in [f];
    ScanInvertsGitPrint(env, [f]);
  }

  lemma WordsOfWord(s: string)
    requires |s| > 0 && forall i :: 0 <= i < |s| ==> !IsSpace(s[i])
    ensures Join(Words(s)) == s
  {
    assert WordLength(s) == |s|;
    assert s[..|s|] == s && s[|s|..] == "";
  }

  lemma {:induction false} Utf8AtLeast(s: string)
    ensures Utf8Length(s) >= |s|
  {
    if s != "" { Utf8AtLeast(s[1..]); }
  }

  lemma WordIsEffective(env: Env, word: string)
    requires |word| == 4 && forall i :: 0 <= i < 4 ==> 'a' <= word[i] <= 'z' && env.alphanumeric(word[i])
    ensures EffectiveLine(env, Added(word))
  {
    hide Words, Join;
    WordsOfWord(word);
    Utf8AtLeast(word);
    assert env.alphanumeric(word[0]);
  }

  /** Such a file, for any hash that tells `x` from `x` with a space after it. */
  lemma SpacedFileExists(env: Env, word: string) returns (f: FileDiff)
    requires |word| == 4 && forall i :: 0 <= i < 4 ==> 'a' <= word[i] <= 'z' && env.alphanumeric(word[i])
    requires env.hash("path", "x") != env.hash("path", "x ")
    ensures WellFormed(f) && f.git.Some? && f.body.Text? && f.body.target == Path("x ")
    ensures Scan(env, Unlines(PrintFiles([f]))) != FilesSummary(env, [f])
  {
    hide Scan, PrintFiles, FilesSummary, EffectiveLine, TrimEnd;
    WordIsEffective(env, word);
    f := SpacedFile(word);
    SpacedFileIsSpaced(word);
    assert f.body.hunks[0] in f.body.hunks && Added(word) in f.body.hunks[0].lines;
    SpacedPathIsMisread(env, f);
  }

  function SpacedFile(word: string): FileDiff
  {
    FileDiff(Some("a/x  b/x "), [], Text("a/x ", Path("x "), "", [Hunk("-0,0 +1 @@", [Added(word)])]))
  }

  lemma SpacedFileIsSpaced(word: string)
    requires |word| == 4 && forall i :: 0 <= i < 4 ==> 'a' <= word[i] <= 'z'
    ensures WellFormed(SpacedFile(word)) && TrimEnd("x ") == "x"
  {
    assert "x" + " " == "x ";
    TrimEndDropsPadding("x", " ");
  }

  /** Two plain files with hunks, one after the other: one added and one deleted line too many. */
  lemma PlainPairIsMiscounted(env: Env, f: FileDiff, g: FileDiff)
    requires AllWellFormed([f, g])
    requires f.body.Text? && f.body.hunks != [] && g.git.None?
    ensures var got, want := Scan(env, Unlines(PrintFiles([f, g]))), FilesSummary(env, [f, g]);
      got.added == want.added + 1 && got.deleted == want.deleted + 1
  {
    assert [f, g][1..] == [g] && [g][1..] == [];
    assert Unannounced(true, [g]) == 1;
    ScanOfPrint(env, [f, g]);
  }

  /** A file with which the pair above can be formed. */
  lemma PlainFileExists() returns (f: FileDiff)
    ensures AllWellFormed([f, f]) && f.git.None? && f.body.Text? && f.body.hunks != []
  {
    f := FileDiff(None, [], Text("a/x", Path("x"), "", [Hunk("-0,0 +1 @@", [Added("new")])]));
  }

  /** The counts alone, which the turn reducer reports, need no hash. */
  const PLAIN := Env((domain, value) => value, c => true)

  function DiffCounts(diff: string): (nat, nat)
  {
    var summary := Scan(PLAIN, diff);
    (summary.added, summary.deleted)
  }

  lemma {:induction false} CountsIgnoreEnv(env1: Env, env2: Env, st1: ScanState, st2: ScanState, lines: seq<string>)
    requires st1.inHunk == st2.inHunk && st1.summary.added == st2.summary.added
             && st1.summary.deleted == st2.summary.deleted
    ensures var a, b := ScanFrom(env1, st1, lines).summary, ScanFrom(env2, st2, lines).summary;
      a.added == b.added && a.deleted == b.deleted
    decreases |lines|
  {
    if lines != [] {
      CountsIgnoreEnv(env1, env2, ScanLine(env1, st1, lines[0]), ScanLine(env2, st2, lines[0]), lines[1..]);
    }
  }

  /** Whatever the hash, the scan of a diff has these counts. */
  lemma ScanCounts(env: Env, diff: string)
    ensures (Scan(env, diff).added, Scan(env, diff).deleted) == DiffCounts(diff)
  {
    CountsIgnoreEnv(env, PLAIN, START, START, Lines(diff));
  }
}
