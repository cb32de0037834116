/**
  Merging and rendering LCOV reports, from scripts/sonar-lcov-normalize.py, on the text itself:
  line splitting, field splitting, decimal numbers, the walk over a report, and the rendered form.
  Resolving a path against the project is a parameter: `None` is a path outside the project.
 */
module LcovMerge {
  import opened Common
  import opened Decimal

  // ----- Text -----

  predicate StartsWith(s: string, prefix: string)
  {
    |prefix| <= |s| && s[..|prefix|] == prefix
  }

  /** The line boundaries of Python's `str.splitlines`. */
  predicate IsBreak(c: char)
  {
    || '\U{000A}' <= c <= '\U{000D}' || '\U{001C}' <= c <= '\U{001E}'
    || c == '\U{0085}' || c == '\U{2028}' || c == '\U{2029}'
  }

  /** What Python's `int` skips around a number; unlike `str.strip` it does not skip U+001C to U+001F. */
  predicate IsSpace(c: char)
  {
    || '\U{0009}' <= c <= '\U{000D}' || c == ' ' || c == '\U{0085}' || c == '\U{00A0}'
    || c == '\U{1680}' || '\U{2000}' <= c <= '\U{200A}' || c == '\U{2028}' || c == '\U{2029}' || c == '\U{202F}'
    || c == '\U{205F}' || c == '\U{3000}'
  }

  ghost predicate OneLine(s: string)
  {
    forall i :: 0 <= i < |s| ==> !IsBreak(s[i])
  }

  function LineEnd(s: string): (k: nat)
    ensures k <= |s| && OneLine(s[..k])
    ensures k < |s| ==> IsBreak(s[k])
  {
    if s == [] || IsBreak(s[0]) then 0 else 1 + LineEnd(s[1..])
  }

  function BreakLength(s: string, k: nat): (n: nat)
    requires k < |s|
    ensures 0 < n && k + n <= |s|
  {
    if s[k] == '\r' && k + 1 < |s| && s[k + 1] == '\n' then 2 else 1
  }

  function SplitLines(s: string): (lines: seq<string>)
    decreases |s|
  {
    if s == [] then []
    else
      var k := LineEnd(s);
      if k == |s| then [s] else [s[..k]] + SplitLines(s[k + BreakLength(s, k)..])
  }

  lemma {:induction false} LinesHaveNoBreaks(s: string)
    ensures forall i :: 0 <= i < |SplitLines(s)| ==> OneLine(SplitLines(s)[i])
    decreases |s|
  {
    if s != [] {
      var k := LineEnd(s);
      if k == |s| {
        assert s[..k] == s;
      } else {
        LinesHaveNoBreaks(s[k + BreakLength(s, k)..]);
      }
    }
  }

  /** `"\n".join(lines) + "\n"`. */
  function JoinLines(lines: seq<string>): (s: string)
  {
    if lines == [] then ['\n'] else lines[0] + ['\n'] + if |lines| == 1 then [] else JoinLines(lines[1..])
  }

  lemma {:induction false} LineEndAt(line: string, rest: string)
    requires OneLine(line)
    ensures LineEnd(line + ['\n'] + rest) == |line|
  {
    var s := line + ['\n'] + rest;
    if line != [] {
      assert s[1..] == line[1..] + ['\n'] + rest;
      LineEndAt(line[1..], rest);
      assert !IsBreak(line[0]) && s[0] == line[0];
    }
  }

  lemma SplitFirstLine(line: string, rest: string)
    requires OneLine(line)
    ensures SplitLines(line + ['\n'] + rest) == [line] + SplitLines(rest)
  {
    var s := line + ['\n'] + rest;
    LineEndAt(line, rest);
    assert s[..|line|] == line && s[|line| + 1..] == rest;
  }

  /** Splitting undoes joining, for lines without line breaks inside. */
  lemma {:induction false} SplitJoined(lines: seq<string>)
    requires lines != [] && forall i :: 0 <= i < |lines| ==> OneLine(lines[i])
    ensures SplitLines(JoinLines(lines)) == lines
  {
    if |lines| == 1 {
      SplitFirstLine(lines[0], []);
      assert lines == [lines[0]] && SplitLines([]) == [];
    } else {
      SplitFirstLine(lines[0], JoinLines(lines[1..]));
      SplitJoined(lines[1..]);
      assert lines == [lines[0]] + lines[1..];
    }
  }

  lemma {:induction false} LineEndInFront(a: string, b: string)
    requires LineEnd(a) < |a|
    ensures LineEnd(a + b) == LineEnd(a)
  {
    if !IsBreak(a[0]) {
      assert (a + b)[1..] == a[1..] + b;
      LineEndInFront(a[1..], b);
    }
  }

  ghost predicate Terminated(s: string)
  {
    s == [] || s[|s| - 1] == '\n'
  }

  lemma FirstLineInFront(a: string, b: string) returns (first: string, rest: string)
    requires a != [] && Terminated(a)
    ensures |rest| < |a| && Terminated(rest)
    ensures SplitLines(a) == [first] + SplitLines(rest)
    ensures SplitLines(a + b) == [first] + SplitLines(rest + b)
  {
    var k := LineEnd(a);
    assert IsBreak(a[|a| - 1]) && k < |a|;
    LineEndInFront(a, b);
    var n := BreakLength(a, k);
    assert BreakLength(a + b, k) == n;
    first, rest := a[..k], a[k + n..];
    assert (a + b)[..k] == first && (a + b)[k + n..] == rest + b;
  }

  /** Reports whose text ends in a newline can be split one after the other. */
  lemma {:induction false} SplitConcatenated(a: string, b: string)
    requires Terminated(a)
    ensures SplitLines(a + b) == SplitLines(a) + SplitLines(b)
    decreases |a|
  {
    if a == [] {
      assert a + b == b && SplitLines(a) == [];
    } else {
      var first, rest := FirstLineInFront(a, b);
      SplitConcatenated(rest, b);
      Reassociate(first, SplitLines(rest), SplitLines(b));
    }
  }

  lemma Reassociate(first: string, middle: seq<string>, last: seq<string>)
    ensures [first] + (middle + last) == [first] + middle + last
  {
  }

  // ----- Comma-separated fields -----

  ghost predicate NoComma(s: string)
  {
    ',' !in s
  }

  function SplitCommas(s: string): (fields: seq<string>)
    ensures |fields| >= 1
    ensures forall i :: 0 <= i < |fields| ==> NoComma(fields[i])
    ensures OneLine(s) ==> forall i :: 0 <= i < |fields| ==> OneLine(fields[i])
  {
    if s == [] then [[]]
    else
      var rest := SplitCommas(s[1..]);
      if s[0] == ',' then [[]] + rest else [[s[0]] + rest[0]] + rest[1..]
  }

  lemma {:induction false} SplitFirstField(field: string, rest: string)
    requires NoComma(field)
    ensures SplitCommas(field + [','] + rest) == [field] + SplitCommas(rest)
  {
    var s := field + [','] + rest;
    if field == [] {
      assert s[1..] == rest;
    } else {
      assert s[0] == field[0] && s[1..] == field[1..] + [','] + rest;
      SplitFirstField(field[1..], rest);
      assert [field[0]] + field[1..] == field;
    }
  }

  lemma {:induction false} SplitLastField(field: string)
    requires NoComma(field)
    ensures SplitCommas(field) == [field]
  {
    if field != [] {
      SplitLastField(field[1..]);
      assert [field[0]] + field[1..] == field;
    }
  }

  // ----- Decimal numbers -----

  function IntToString(n: int): (s: string)
  {
    if n < 0 then ['-'] + NatToString(-n) else NatToString(n)
  }

  /** Digits, with single underscores allowed between them. */
  function ParseNat(s: string): (n: Option<nat>)
    decreases |s|
  {
    if s == [] || !IsDigit(s[|s| - 1]) then None
    else
      var d, rest := DigitValue(s[|s| - 1]), s[..|s| - 1];
      if rest == [] then Some(d)
      else
        match ParseNat(if rest[|rest| - 1] == '_' then rest[..|rest| - 1] else rest)
        case None => None
        case Some(high) => Some(10 * high + d)
  }

  function TrimLeft(s: string): (t: string)
  {
    if s != [] && IsSpace(s[0]) then TrimLeft(s[1..]) else s
  }

  function TrimRight(s: string): (t: string)
  {
    if s != [] && IsSpace(s[|s| - 1]) then TrimRight(s[..|s| - 1]) else s
  }

  function ParseSigned(s: string): (n: Option<int>)
  {
    if s == [] then None
    else if s[0] == '-' || s[0] == '+' then
      (match ParseNat(s[1..]) case None => None case Some(n) => Some(if s[0] == '-' then -(n as int) else n as int))
    else
      (match ParseNat(s) case None => None case Some(n) => Some(n))
  }

  /** Python's `int` on text; `None` is a `ValueError`. */
  function ParseInt(text: string): (n: Option<int>)
  {
    ParseSigned(TrimRight(TrimLeft(text)))
  }

  lemma {:induction false} NatRoundTrip(n: nat)
    ensures ParseNat(NatToString(n)) == Some(n)
  {
    if n < 10 {
      assert [Digit(n)][..0] == [];
    } else {
      var high, s := NatToString(n / 10), NatToString(n);
      assert s[..|s| - 1] == high;
      NatRoundTrip(n / 10);
    }
  }

  lemma NothingToTrim(s: string)
    requires s != [] && !IsSpace(s[0]) && !IsSpace(s[|s| - 1])
    ensures TrimRight(TrimLeft(s)) == s
  {
  }

  lemma DigitsReadBack(n: nat)
    ensures ParseSigned(NatToString(n)) == Some(n as int)
    ensures ParseSigned(['-'] + NatToString(n)) == Some(0 - n)
  {
    NatRoundTrip(n);
    assert (['-'] + NatToString(n))[1..] == NatToString(n);
  }

  lemma PrintedIsTrimmed(n: int)
    ensures TrimRight(TrimLeft(IntToString(n))) == IntToString(n)
  {
    var s := IntToString(n);
    assert s != [] && (s[0] == '-' || IsDigit(s[0])) && IsDigit(s[|s| - 1]);
    NothingToTrim(s);
  }

  lemma PrintedIsPlain(n: int)
    ensures NoComma(IntToString(n)) && OneLine(IntToString(n)) && IntToString(n) != ['-']
  {
    var s := IntToString(n);
    assert forall i :: 0 <= i < |s| ==> s[i] == '-' || IsDigit(s[i]);
  }

  /** Numbers print as plain text that reads back as the same number. */
  lemma IntRoundTrip(n: int)
    ensures ParseInt(IntToString(n)) == Some(n)
    ensures NoComma(IntToString(n)) && OneLine(IntToString(n)) && IntToString(n) != ['-']
  {
    PrintedIsPlain(n);
    PrintedIsTrimmed(n);
    DigitsReadBack(if n < 0 then -n else n);
  }

  // ----- Report lines -----

  datatype Branch = Branch(number: int, block: string, branch: string)
  datatype Counter = LineCounter(number: int) | BranchCounter(key: Branch)

  /** What one line of a report says. A malformed `DA` or `BRDA` line is bad only inside a record. */
  datatype Item =
    | SourceFile(path: string)
    | EndOfRecord
    | Count(counter: Counter, amount: int)
    | Malformed
    | Other

  function ReadLineHits(fields: seq<string>): (item: Item)
  {
    if |fields| < 2 then Malformed
    else
      match (ParseInt(fields[0]), ParseInt(fields[1]))
      case (Some(number), Some(hits)) => Count(LineCounter(number), hits)
      case _ => Malformed
  }

  function ReadBranchHits(fields: seq<string>): (item: Item)
  {
    if |fields| != 4 then Malformed
    else
      match (ParseInt(fields[0]), if fields[3] == ['-'] then Some(0) else ParseInt(fields[3]))
      case (Some(number), Some(taken)) => Count(BranchCounter(Branch(number, fields[1], fields[2])), taken)
      case _ => Malformed
  }

  function Classify(line: string): (item: Item)
  {
    if StartsWith(line, "SF:") then SourceFile(line[3..])
    else if line == "end_of_record" then EndOfRecord
    else if StartsWith(line, "DA:") then ReadLineHits(SplitCommas(line[3..]))
    else if StartsWith(line, "BRDA:") then ReadBranchHits(SplitCommas(line[5..]))
    else Other
  }

  function Items(lines: seq<string>): (items: seq<Item>)
    ensures |items| == |lines| && forall i :: 0 <= i < |items| ==> items[i] == Classify(lines[i])
  {
    seq(|lines|, i requires 0 <= i < |lines| => Classify(lines[i]))
  }

  // ----- Merging -----

  datatype Record = Record(lines: map<int, int>, branches: map<Branch, int>)
  type Files = map<string, Record>
  type Normalize = string -> Option<string>

  const EMPTY: Record := Record(map[], map[])

  function Get<K>(m: map<K, int>, k: K): (n: int)
  {
    if k in m then m[k] else 0
  }

  function Bump(r: Record, counter: Counter, amount: int): (r': Record)
  {
    match counter
    case LineCounter(n) => r.(lines := r.lines[n := Get(r.lines, n) + amount])
    case BranchCounter(k) => r.(branches := r.branches[k := Get(r.branches, k) + amount])
  }

  predicate Has(r: Record, counter: Counter)
  {
    match counter case LineCounter(n) => n in r.lines case BranchCounter(k) => k in r.branches
  }

  function Hits(r: Record, counter: Counter): (n: int)
  {
    match counter case LineCounter(n) => Get(r.lines, n) case BranchCounter(k) => Get(r.branches, k)
  }

  /** The files so far and the open record, which is always one of them. */
  datatype State = State(files: Files, current: Option<string>)

  ghost predicate Open(st: State)
  {
    st.current.Some? ==> st.current.value in st.files
  }

  /** One line of the walk; `None` is the `ValueError` of a malformed line inside a record. */
  ghost function Step(norm: Normalize, st: State, item: Item): (next: Option<State>)
    requires Open(st)
    ensures next.Some? ==> Open(next.value)
  {
    match item
    case SourceFile(path) =>
      var name := norm(path);
      if name.None? then Some(st.(current := None))
      else Some(State(if name.value in st.files then st.files else st.files[name.value := EMPTY], name))
    case EndOfRecord => Some(st.(current := None))
    case Count(counter, amount) =>
      if st.current.None? then Some(st)
      else
        var name := st.current.value;
        Some(st.(files := st.files[name := Bump(st.files[name], counter, amount)]))
    case Malformed => if st.current.None? then Some(st) else None
    case Other => Some(st)
  }

  ghost function Run(norm: Normalize, st: State, items: seq<Item>): (final: Option<State>)
    requires Open(st)
    ensures final.Some? ==> Open(final.value)
    decreases |items|
  {
    if items == [] then Some(st)
    else
      match Step(norm, st, items[0])
      case None => None
      case Some(next) => Run(norm, next, items[1..])
  }

  const START: State := State(map[], None)

  /** The merged files of a report. */
  ghost function Merged(norm: Normalize, report: string): (files: Option<Files>)
  {
    match Run(norm, START, Items(SplitLines(report)))
    case None => None
    case Some(st) => Some(st.files)
  }

  lemma {:induction false} RunConcat(norm: Normalize, st: State, a: seq<Item>, b: seq<Item>)
    requires Open(st)
    ensures Run(norm, st, a + b) ==
            match Run(norm, st, a) case None => None case Some(mid) => Run(norm, mid, b)
    decreases |a|
  {
    if a == [] {
      assert a + b == b;
    } else {
      assert (a + b)[0] == a[0] && (a + b)[1..] == a[1..] + b;
      match Step(norm, st, a[0])
      case None =>
      case Some(next) => RunConcat(norm, next, a[1..], b);
    }
  }

  lemma RunOneMore(norm: Normalize, st: State, items: seq<Item>, i: nat)
    requires Open(st) && i < |items|
    ensures Run(norm, st, items[..i + 1]) ==
            match Run(norm, st, items[..i]) case None => None case Some(mid) => Step(norm, mid, items[i])
  {
    assert items[..i + 1] == items[..i] + [items[i]];
    RunConcat(norm, st, items[..i], [items[i]]);
    match Run(norm, st, items[..i])
    case None =>
    case Some(mid) => assert [items[i]][1..] == [];
  }

  lemma {:induction false} FailedRunStaysFailed(norm: Normalize, st: State, items: seq<Item>, i: nat)
    requires Open(st) && i <= |items| && Run(norm, st, items[..i]).None?
    ensures Run(norm, st, items).None?
  {
    assert items == items[..i] + items[i..];
    RunConcat(norm, st, items[..i], items[i..]);
  }

  method Merge(norm: Normalize, report: string) returns (merged: Option<Files>)
    ensures merged == Merged(norm, report)
  {
    var lines := SplitLines(report);
    ghost var items := Items(lines);
    var files: Files := map[];
    var current: Option<string> := None;
    for i := 0 to |lines|
      invariant Run(norm, START, items[..i]) == Some(State(files, current))
    {
      RunOneMore(norm, START, items, i);
      var item := Classify(lines[i]);
      match item
      case SourceFile(path) =>
        current := norm(path);
        if current.Some? && current.value !in files {
          files := files[current.value := EMPTY];
        }
      case EndOfRecord =>
        current := None;
      case Count(counter, amount) =>
        if current.Some? {
          files := files[current.value := Bump(files[current.value], counter, amount)];
        }
      case Malformed =>
        if current.Some? {
          FailedRunStaysFailed(norm, START, items, i + 1);
          return None;
        }
      case Other =>
    }
    assert items[..|lines|] == items;
    return Some(files);
  }

  // ----- What a merge means: sums over the lines that each file owns -----

  /** The file that owns whatever comes after these lines: the last `SF` that no end of record follows. */
  function Owner(norm: Normalize, items: seq<Item>): (name: Option<string>)
  {
    if items == [] then None
    else
      match items[|items| - 1]
      case SourceFile(path) => norm(path)
      case EndOfRecord => None
      case _ => Owner(norm, items[..|items| - 1])
  }

  /** Line `i` counts towards this counter of this file. */
  predicate CountsFor(norm: Normalize, items: seq<Item>, i: nat, name: string, counter: Counter)
    requires i < |items|
  {
    items[i].Count? && items[i].counter == counter && Owner(norm, items[..i]) == Some(name)
  }

  function Tally(norm: Normalize, items: seq<Item>, name: string, counter: Counter): (n: int)
  {
    if items == [] then 0
    else
      var last := |items| - 1;
      Tally(norm, items[..last], name, counter) + if CountsFor(norm, items, last, name, counter) then items[last].amount else 0
  }

  ghost predicate Mentioned(norm: Normalize, items: seq<Item>, name: string, counter: Counter)
  {
    exists i :: 0 <= i < |items| && CountsFor(norm, items, i, name, counter)
  }

  ghost predicate Named(norm: Normalize, items: seq<Item>, name: string)
  {
    exists i :: 0 <= i < |items| && items[i].SourceFile? && norm(items[i].path) == Some(name)
  }

  /** A malformed line inside a record. */
  ghost predicate Broken(norm: Normalize, items: seq<Item>)
  {
    exists i :: 0 <= i < |items| && items[i].Malformed? && Owner(norm, items[..i]).Some?
  }

  function RecordOf(files: Files, name: string): (r: Record)
  {
    if name in files then files[name] else EMPTY
  }

  ghost predicate Accounts(norm: Normalize, items: seq<Item>, files: Files, name: string)
  {
    && (name in files <==> Named(norm, items, name))
    && forall counter ::
         && Hits(RecordOf(files, name), counter) == Tally(norm, items, name, counter)
         && (Has(RecordOf(files, name), counter) <==> Mentioned(norm, items, name, counter))
  }

  lemma MentionedOneMore(norm: Normalize, items: seq<Item>, name: string, counter: Counter)
    requires items != []
    ensures Mentioned(norm, items, name, counter) <==>
            Mentioned(norm, items[..|items| - 1], name, counter) || CountsFor(norm, items, |items| - 1, name, counter)
  {
    var n := |items| - 1;
    var less := items[..n];
    if Mentioned(norm, less, name, counter) {
      var i :| 0 <= i < n && CountsFor(norm, less, i, name, counter);
      assert less[..i] == items[..i];
      assert CountsFor(norm, items, i, name, counter);
    }
    if Mentioned(norm, items, name, counter) && !CountsFor(norm, items, n, name, counter) {
      var i :| 0 <= i < |items| && CountsFor(norm, items, i, name, counter);
      assert less[..i] == items[..i];
      assert CountsFor(norm, less, i, name, counter);
    }
  }

  lemma NamedOneMore(norm: Normalize, items: seq<Item>, name: string)
    requires items != []
    ensures var n := |items| - 1;
            Named(norm, items, name) <==>
            Named(norm, items[..n], name) || (items[n].SourceFile? && norm(items[n].path) == Some(name))
  {
    var less := items[..|items| - 1];
    if Named(norm, less, name) {
      var i :| 0 <= i < |less| && less[i].SourceFile? && norm(less[i].path) == Some(name);
      assert items[i].SourceFile?;
    }
    if Named(norm, items, name) {
      var i :| 0 <= i < |items| && items[i].SourceFile? && norm(items[i].path) == Some(name);
      if i < |less| { assert less[i].SourceFile?; }
    }
  }

  lemma BrokenOneMore(norm: Normalize, items: seq<Item>)
    requires items != []
    ensures var n := |items| - 1;
            Broken(norm, items) <==> Broken(norm, items[..n]) || (items[n].Malformed? && Owner(norm, items[..n]).Some?)
  {
    var less := items[..|items| - 1];
    if Broken(norm, less) {
      var i :| 0 <= i < |less| && less[i].Malformed? && Owner(norm, less[..i]).Some?;
      assert less[..i] == items[..i];
      assert items[i].Malformed?;
    }
    if Broken(norm, items) {
      var i :| 0 <= i < |items| && items[i].Malformed? && Owner(norm, items[..i]).Some?;
      if i < |less| {
        assert less[..i] == items[..i];
        assert less[i].Malformed?;
      }
    }
  }

  lemma BumpAt(r: Record, counter: Counter, amount: int, c: Counter)
    ensures Hits(Bump(r, counter, amount), c) == Hits(r, c) + if c == counter then amount else 0
    ensures Has(Bump(r, counter, amount), c) <==> Has(r, c) || c == counter
  {
  }

  lemma StepAccounts(norm: Normalize, st: State, items: seq<Item>, name: string)
    requires items != [] && Open(st)
    requires var n := |items| - 1; st.current == Owner(norm, items[..n]) && Accounts(norm, items[..n], st.files, name)
    requires Step(norm, st, items[|items| - 1]).Some?
    ensures Accounts(norm, items, Step(norm, st, items[|items| - 1]).value.files, name)
  {
    var n := |items| - 1;
    var next := Step(norm, st, items[n]).value;
    NamedOneMore(norm, items, name);
    forall counter
      ensures Hits(RecordOf(next.files, name), counter) == Tally(norm, items, name, counter)
      ensures Has(RecordOf(next.files, name), counter) <==> Mentioned(norm, items, name, counter)
    {
      MentionedOneMore(norm, items, name, counter);
      if items[n].Count? { BumpAt(RecordOf(st.files, name), items[n].counter, items[n].amount, counter); }
    }
  }

  /**
    What a walk computes, without the walk: it fails exactly on a malformed line inside a record;
    otherwise it has exactly the files that were named, with exactly the counters that were mentioned,
    each at the sum of the amounts on the lines that its file owns.
   */
  lemma {:induction false} WalkAddsUp(norm: Normalize, items: seq<Item>)
    ensures Run(norm, START, items).None? <==> Broken(norm, items)
    ensures Run(norm, START, items).Some? ==>
              && Run(norm, START, items).value.current == Owner(norm, items)
              && forall name :: Accounts(norm, items, Run(norm, START, items).value.files, name)
  {
    if items != [] {
      var n := |items| - 1;
      WalkAddsUp(norm, items[..n]);
      assert items[..n + 1] == items;
      RunOneMore(norm, START, items, n);
      BrokenOneMore(norm, items);
      if Run(norm, START, items).Some? {
        var st := Run(norm, START, items[..n]).value;
        forall name ensures Accounts(norm, items, Step(norm, st, items[n]).value.files, name) {
          StepAccounts(norm, st, items, name);
        }
      }
    }
  }

  // ----- Merging two reports -----

  ghost function AddMaps<K(!new)>(a: map<K, int>, b: map<K, int>): (sum: map<K, int>)
  {
    map k | k in a.Keys + b.Keys :: Get(a, k) + Get(b, k)
  }

  ghost function AddRecords(a: Record, b: Record): (sum: Record)
  {
    Record(AddMaps(a.lines, b.lines), AddMaps(a.branches, b.branches))
  }

  ghost function AddFiles(a: Files, b: Files): (sum: Files)
  {
    map name | name in a.Keys + b.Keys :: AddRecords(RecordOf(a, name), RecordOf(b, name))
  }

  lemma AddNothing(a: Record)
    ensures AddRecords(a, EMPTY) == a
  {
    assert AddMaps(a.lines, map[]) == a.lines;
    assert AddMaps(a.branches, map[]) == a.branches;
  }

  lemma AddMapsAt<K(!new)>(a: map<K, int>, b: map<K, int>, k: K, amount: int)
    ensures AddMaps(a, b[k := Get(b, k) + amount]) == AddMaps(a, b)[k := Get(AddMaps(a, b), k) + amount]
  {
  }

  lemma AddBumped(a: Record, b: Record, counter: Counter, amount: int)
    ensures AddRecords(a, Bump(b, counter, amount)) == Bump(AddRecords(a, b), counter, amount)
  {
    match counter
    case LineCounter(n) => AddBumpedLine(a, b, n, amount);
    case BranchCounter(k) => AddBumpedBranch(a, b, k, amount);
  }

  lemma AddBumpedLine(a: Record, b: Record, n: int, amount: int)
    ensures AddRecords(a, Bump(b, LineCounter(n), amount)) == Bump(AddRecords(a, b), LineCounter(n), amount)
  {
    AddMapsAt(a.lines, b.lines, n, amount);
  }

  lemma AddBumpedBranch(a: Record, b: Record, k: Branch, amount: int)
    ensures AddRecords(a, Bump(b, BranchCounter(k), amount)) == Bump(AddRecords(a, b), BranchCounter(k), amount)
  {
    AddMapsAt(a.branches, b.branches, k, amount);
  }

  lemma AddFilesAt(f: Files, g: Files, name: string, r: Record)
    ensures AddFiles(f, g[name := r]) == AddFiles(f, g)[name := AddRecords(RecordOf(f, name), r)]
  {
  }

  ghost function Ahead(f: Files, st: State): (sum: State)
  {
    State(AddFiles(f, st.files), st.current)
  }

  /** A head start of already merged files is simply added to the result, line by line. */
  lemma StepAhead(norm: Normalize, f: Files, st: State, item: Item)
    requires Open(st)
    ensures Open(Ahead(f, st))
    ensures Step(norm, Ahead(f, st), item) ==
            match Step(norm, st, item) case None => None case Some(next) => Some(Ahead(f, next))
  {
    match item
    case SourceFile(path) => StepAheadNamed(f, st.files, norm(path));
    case Count(counter, amount) =>
      if st.current.Some? {
        var name := st.current.value;
        AddBumped(RecordOf(f, name), st.files[name], counter, amount);
        AddFilesAt(f, st.files, name, Bump(st.files[name], counter, amount));
      }
    case EndOfRecord =>
    case Malformed =>
    case Other =>
  }

  lemma StepAheadNamed(f: Files, g: Files, name: Option<string>)
    ensures name.Some? && name.value !in g ==>
            AddFiles(f, g[name.value := EMPTY]) ==
            if name.value in f then AddFiles(f, g) else AddFiles(f, g)[name.value := EMPTY]
  {
    if name.Some? && name.value !in g {
      AddNothing(RecordOf(f, name.value));
      AddFilesAt(f, g, name.value, EMPTY);
    }
  }

  lemma {:induction false} RunAhead(norm: Normalize, f: Files, st: State, items: seq<Item>)
    requires Open(st)
    ensures Open(Ahead(f, st))
    ensures Run(norm, Ahead(f, st), items) ==
            match Run(norm, st, items) case None => None case Some(final) => Some(Ahead(f, final))
    decreases |items|
  {
    if items != [] {
      StepAhead(norm, f, st, items[0]);
      match Step(norm, st, items[0])
      case None =>
      case Some(next) => RunAhead(norm, f, next, items[1..]);
    }
  }

  /** A report whose text ends in a newline and whose last record is closed. */
  ghost predicate Complete(norm: Normalize, report: string)
  {
    Terminated(report) && Owner(norm, Items(SplitLines(report))).None?
  }

  lemma ItemsConcat(a: seq<string>, b: seq<string>)
    ensures Items(a + b) == Items(a) + Items(b)
  {
  }

  /** Merging a complete report followed by another is the pointwise sum of merging each, failures included. */
  lemma MergeAddsUp(norm: Normalize, a: string, b: string)
    requires Complete(norm, a)
    ensures Merged(norm, a + b) ==
            match (Merged(norm, a), Merged(norm, b))
            case (Some(left), Some(right)) => Some(AddFiles(left, right))
            case _ => None
  {
    var first, second := Items(SplitLines(a)), Items(SplitLines(b));
    SplitConcatenated(a, b);
    ItemsConcat(SplitLines(a), SplitLines(b));
    RunConcat(norm, START, first, second);
    WalkAddsUp(norm, first);
    if Merged(norm, a).Some? {
      var left := Merged(norm, a).value;
      assert AddFiles(left, map[]) == left by {
        forall name | name in left ensures AddRecords(left[name], EMPTY) == left[name] {
          AddNothing(left[name]);
        }
      }
      RunAhead(norm, left, START, second);
    }
  }

  // ----- Sorting keys -----

  ghost predicate StrictOrder<T(!new)>(less: (T, T) -> bool)
  {
    && (forall x :: !less(x, x))
    && (forall x, y :: x == y || less(x, y) || less(y, x))
    && (forall x, y, z :: less(x, y) && less(y, z) ==> less(x, z))
  }

  ghost predicate IsLeast<T(!new)>(x: T, s: set<T>, less: (T, T) -> bool)
  {
    x in s && forall y :: y in s && y != x ==> less(x, y)
  }

  lemma {:induction false} LeastExists<T(!new)>(s: set<T>, less: (T, T) -> bool) returns (least: T)
    requires s != {} && StrictOrder(less)
    ensures IsLeast(least, s, less)
  {
    var x :| x in s;
    var rest := s - {x};
    if rest == {} {
      assert s == {x};
      least := x;
    } else {
      var m := LeastExists(rest, less);
      least := LesserOfTwo(x, m, rest, less);
      assert s == rest + {x};
    }
  }

  lemma LesserOfTwo<T(!new)>(x: T, m: T, rest: set<T>, less: (T, T) -> bool) returns (least: T)
    requires StrictOrder(less) && IsLeast(m, rest, less)
    ensures IsLeast(least, rest + {x}, less)
  {
    least := if x == m || less(x, m) then x else m;
  }

  /** Python's `sorted` on the keys of a dictionary. */
  function Sorted<T(!new)>(s: set<T>, less: (T, T) -> bool): (r: seq<T>)
    requires StrictOrder(less)
    ensures forall i :: 0 <= i < |r| ==> r[i] in s
  {
    if s == {} then []
    else
      assert exists x :: IsLeast(x, s, less) by { var least := LeastExists(s, less); }
      var least :| least in s && forall y :: y in s && y != least ==> less(least, y);
      [least] + Sorted(s - {least}, less)
  }

  ghost predicate Distinct<T>(s: seq<T>)
  {
    forall i, j :: 0 <= i < j < |s| ==> s[i] != s[j]
  }

  /** Sorting lists every key once, in ascending order. */
  lemma {:induction false} SortedIsSorted<T(!new)>(s: set<T>, less: (T, T) -> bool)
    requires StrictOrder(less)
    ensures forall x :: x in s ==> x in Sorted(s, less)
    ensures forall i, j :: 0 <= i < j < |Sorted(s, less)| ==> less(Sorted(s, less)[i], Sorted(s, less)[j])
    ensures Distinct(Sorted(s, less))
  {
    if s != {} {
      var r := Sorted(s, less);
      var rest := s - {r[0]};
      assert r == [r[0]] + Sorted(rest, less);
      SortedIsSorted(rest, less);
      assert s == rest + {r[0]};
    }
  }

  function IntLess(): (int, int) -> bool { (a, b) => a < b }

  predicate TextBefore(a: string, b: string)
  {
    b != [] && (a == [] || a[0] < b[0] || (a[0] == b[0] && TextBefore(a[1..], b[1..])))
  }

  function TextLess(): (string, string) -> bool { (a, b) => TextBefore(a, b) }

  predicate BranchBefore(a: Branch, b: Branch)
  {
    || a.number < b.number
    || (a.number == b.number && (TextBefore(a.block, b.block) || (a.block == b.block && TextBefore(a.branch, b.branch))))
  }

  function BranchLess(): (Branch, Branch) -> bool { (a, b) => BranchBefore(a, b) }

  lemma {:induction false} TextTotal(a: string, b: string)
    ensures !TextBefore(a, a)
    ensures a == b || TextBefore(a, b) || TextBefore(b, a)
  {
    if a != [] {
      TextTotal(a[1..], if b != [] then b[1..] else []);
      if b != [] && a[0] == b[0] && a[1..] == b[1..] {
        assert a == [a[0]] + a[1..] && b == [b[0]] + b[1..];
      }
    }
  }

  lemma {:induction false} TextTransitive(a: string, b: string, c: string)
    requires TextBefore(a, b) && TextBefore(b, c)
    ensures TextBefore(a, c)
  {
    if a != [] && a[0] == b[0] && b[0] == c[0] {
      TextTransitive(a[1..], b[1..], c[1..]);
    }
  }

  lemma TextIsOrdered()
    ensures StrictOrder(TextLess())
  {
    forall a, b ensures !TextBefore(a, a) && (a == b || TextBefore(a, b) || TextBefore(b, a)) {
      TextTotal(a, b);
    }
    forall a, b, c | TextBefore(a, b) && TextBefore(b, c) ensures TextBefore(a, c) {
      TextTransitive(a, b, c);
    }
  }

  lemma BranchTotal(a: Branch, b: Branch)
    ensures !BranchBefore(a, a) && (a == b || BranchBefore(a, b) || BranchBefore(b, a))
  {
    TextTotal(a.block, b.block);
    TextTotal(a.branch, b.branch);
  }

  lemma BranchTransitive(a: Branch, b: Branch, c: Branch)
    requires BranchBefore(a, b) && BranchBefore(b, c)
    ensures BranchBefore(a, c)
  {
    if TextBefore(a.block, b.block) && TextBefore(b.block, c.block) { TextTransitive(a.block, b.block, c.block); }
    if TextBefore(a.branch, b.branch) && TextBefore(b.branch, c.branch) { TextTransitive(a.branch, b.branch, c.branch); }
  }

  lemma BranchesAreOrdered()
    ensures StrictOrder(BranchLess())
  {
    forall a, b ensures !BranchBefore(a, a) && (a == b || BranchBefore(a, b) || BranchBefore(b, a)) {
      BranchTotal(a, b);
    }
    forall a, b, c | BranchBefore(a, b) && BranchBefore(b, c) ensures BranchBefore(a, c) {
      BranchTransitive(a, b, c);
    }
  }

  function SortedNames(files: Files): (names: seq<string>)
    ensures forall i :: 0 <= i < |names| ==> names[i] in files
  {
    TextIsOrdered();
    Sorted(files.Keys, TextLess())
  }

  function SortedBranches(r: Record): (keys: seq<Branch>)
    ensures forall i :: 0 <= i < |keys| ==> keys[i] in r.branches
  {
    BranchesAreOrdered();
    Sorted(r.branches.Keys, BranchLess())
  }

  function SortedLines(r: Record): (keys: seq<int>)
    ensures forall i :: 0 <= i < |keys| ==> keys[i] in r.lines
  {
    Sorted(r.lines.Keys, IntLess())
  }

  lemma SortedKeysAreComplete(files: Files, r: Record)
    ensures Distinct(SortedNames(files)) && (forall x :: x in files ==> x in SortedNames(files))
    ensures Distinct(SortedBranches(r)) && (forall x :: x in r.branches ==> x in SortedBranches(r))
    ensures Distinct(SortedLines(r)) && (forall x :: x in r.lines ==> x in SortedLines(r))
  {
    TextIsOrdered();
    BranchesAreOrdered();
    SortedIsSorted(files.Keys, TextLess());
    SortedIsSorted(r.branches.Keys, BranchLess());
    SortedIsSorted(r.lines.Keys, IntLess());
  }

  // ----- Rendering -----

  function CoveredCount<K>(m: map<K, int>): (n: nat)
  {
    |set k | k in m && m[k] != 0|
  }

  function BranchLine(key: Branch, taken: int): (line: string)
  {
    "BRDA:" + (IntToString(key.number) + [','] + (key.block + [','] + (key.branch + [','] + IntToString(taken))))
  }

  function HitLine(number: int, hits: int): (line: string)
  {
    "DA:" + (IntToString(number) + [','] + IntToString(hits))
  }

  /** One line per key, in the order of the keys. */
  function Lines<K>(m: map<K, int>, keys: seq<K>, line: (K, int) -> string): (lines: seq<string>)
    requires forall i :: 0 <= i < |keys| ==> keys[i] in m
    ensures |lines| == |keys| && forall i :: 0 <= i < |keys| ==> lines[i] == line(keys[i], m[keys[i]])
  {
    seq(|keys|, i requires 0 <= i < |keys| => line(keys[i], m[keys[i]]))
  }

  function BranchLines(r: Record, keys: seq<Branch>): (lines: seq<string>)
    requires forall i :: 0 <= i < |keys| ==> keys[i] in r.branches
  {
    Lines(r.branches, keys, BranchLine)
  }

  function HitLines(r: Record, keys: seq<int>): (lines: seq<string>)
    requires forall i :: 0 <= i < |keys| ==> keys[i] in r.lines
  {
    Lines(r.lines, keys, HitLine)
  }

  function BranchSummary(r: Record): (lines: seq<string>)
  {
    if r.branches == map[] then []
    else ["BRF:" + IntToString(|r.branches|), "BRH:" + IntToString(CoveredCount(r.branches))]
  }

  function Footer(r: Record): (lines: seq<string>)
  {
    ["LF:" + IntToString(|r.lines|), "LH:" + IntToString(CoveredCount(r.lines)), "end_of_record"]
  }

  function RecordLines(name: string, r: Record): (lines: seq<string>)
  {
    ["SF:" + name] + BranchLines(r, SortedBranches(r)) + BranchSummary(r) + HitLines(r, SortedLines(r)) + Footer(r)
  }

  type Renderer = (string, Record) -> seq<string>

  /** The lines of the first `n` files, each rendered the same way. */
  function FilesLines(render: Renderer, files: Files, names: seq<string>, n: nat): (lines: seq<string>)
    requires n <= |names| && forall i :: 0 <= i < |names| ==> names[i] in files
  {
    if n == 0 then [] else FilesLines(render, files, names, n - 1) + render(names[n - 1], files[names[n - 1]])
  }

  function Rendered(files: Files): (text: string)
  {
    JoinLines(FilesLines(RecordLines, files, SortedNames(files), |SortedNames(files)|))
  }

  method RenderEach<K>(m: map<K, int>, keys: seq<K>, line: (K, int) -> string) returns (output: seq<string>)
    requires forall i :: 0 <= i < |keys| ==> keys[i] in m
    ensures output == Lines(m, keys, line)
  {
    output := [];
    for i := 0 to |keys|
      invariant output == Lines(m, keys, line)[..i]
    {
      output := output + [line(keys[i], m[keys[i]])];
    }
  }

  method RenderRecord(name: string, record: Record) returns (output: seq<string>)
    ensures output == RecordLines(name, record)
  {
    var branches := RenderEach(record.branches, SortedBranches(record), BranchLine);
    var hits := RenderEach(record.lines, SortedLines(record), HitLine);
    output := ["SF:" + name] + branches + BranchSummary(record) + hits + Footer(record);
  }

  method RenderFiles(files: Files, names: seq<string>) returns (output: seq<string>)
    requires forall k :: 0 <= k < |names| ==> names[k] in files
    ensures output == FilesLines(RecordLines, files, names, |names|)
  {
    output := [];
    for i := 0 to |names|
      invariant output == FilesLines(RecordLines, files, names, i)
    {
      var lines := RenderRecord(names[i], files[names[i]]);
      output := output + lines;
    }
  }

  /** Strictly ascending: every key once, in order. */
  ghost predicate Ascending<T(!new)>(keys: seq<T>, less: (T, T) -> bool)
  {
    forall i, j :: 0 <= i < j < |keys| ==> less(keys[i], keys[j])
  }

  /** The records come in the order of `names`, which lists every file once in ascending order. */
  ghost predicate FilesInOrder(files: Files, names: seq<string>, text: string)
  {
    && Ascending(names, TextLess()) && (forall x :: x in names <==> x in files)
    && text == JoinLines(FilesLines(RecordLines, files, names, |names|))
  }

  /** A record's branches and lines come in the order of these keys, each of which is listed once in ascending order. */
  ghost predicate RecordInOrder(name: string, r: Record, branches: seq<Branch>, numbers: seq<int>)
  {
    && Ascending(branches, BranchLess()) && (forall k :: k in branches <==> k in r.branches)
    && Ascending(numbers, IntLess()) && (forall n :: n in numbers <==> n in r.lines)
    && RecordLines(name, r) ==
       ["SF:" + name] + Lines(r.branches, branches, BranchLine) + BranchSummary(r) + Lines(r.lines, numbers, HitLine) + Footer(r)
  }

  lemma RecordsAreInOrder(name: string, r: Record)
    ensures RecordInOrder(name, r, SortedBranches(r), SortedLines(r))
  {
    BranchesAreOrdered();
    SortedIsSorted(r.branches.Keys, BranchLess());
    SortedIsSorted(r.lines.Keys, IntLess());
  }

  lemma FilesAreInOrder(files: Files)
    ensures FilesInOrder(files, SortedNames(files), Rendered(files))
  {
    TextIsOrdered();
    SortedIsSorted(files.Keys, TextLess());
  }

  method Render(files: Files) returns (text: string)
    ensures text == Rendered(files)
    ensures exists names :: FilesInOrder(files, names, text)
    ensures forall name :: name in files ==> exists branches, numbers :: RecordInOrder(name, files[name], branches, numbers)
  {
    var output := RenderFiles(files, SortedNames(files));
    text := JoinLines(output);
    FilesAreInOrder(files);
    forall name | name in files ensures exists branches, numbers :: RecordInOrder(name, files[name], branches, numbers) {
      RecordsAreInOrder(name, files[name]);
    }
  }

  // ----- Reading a rendering back -----

  /** What the text form can carry: canonical one-line names, and branch fields without commas or line breaks. */
  ghost predicate Plain(field: string)
  {
    NoComma(field) && OneLine(field)
  }

  ghost predicate RecordRenderable(r: Record)
  {
    forall k :: k in r.branches ==> Plain(k.block) && Plain(k.branch)
  }

  ghost predicate Renderable(norm: Normalize, files: Files)
  {
    forall name :: name in files ==> norm(name) == Some(name) && OneLine(name) && RecordRenderable(files[name])
  }

  lemma FourFieldsSplit(a: string, b: string, c: string, d: string)
    requires NoComma(a) && NoComma(b) && NoComma(c) && NoComma(d)
    ensures SplitCommas(a + [','] + (b + [','] + (c + [','] + d))) == [a, b, c, d]
  {
    SplitFirstField(a, b + [','] + (c + [','] + d));
    SplitFirstField(b, c + [','] + d);
    SplitFirstField(c, d);
    SplitLastField(d);
  }

  /** One differing character rules a prefix out. */
  lemma OtherPrefix(s: string, prefix: string, i: nat)
    requires i < |s| && i < |prefix| && s[i] != prefix[i]
    ensures !StartsWith(s, prefix)
  {
    assert |prefix| <= |s| ==> s[..|prefix|][i] == s[i];
  }

  lemma OneLineConcat(a: string, b: string)
    requires OneLine(a) && OneLine(b)
    ensures OneLine(a + b)
  {
  }

  lemma OneLineFields(a: string, b: string)
    requires OneLine(a) && OneLine(b)
    ensures OneLine(a + [','] + b)
  {
  }

  lemma BranchLineIsOne(key: Branch, taken: int)
    requires Plain(key.block) && Plain(key.branch)
    ensures OneLine(BranchLine(key, taken))
  {
    var number, count := IntToString(key.number), IntToString(taken);
    IntRoundTrip(key.number);
    IntRoundTrip(taken);
    OneLineFields(key.branch, count);
    OneLineFields(key.block, key.branch + [','] + count);
    OneLineFields(number, key.block + [','] + (key.branch + [','] + count));
    OneLineConcat("BRDA:", number + [','] + (key.block + [','] + (key.branch + [','] + count)));
  }

  lemma ClassifyBranchLine(rest: string)
    ensures Classify("BRDA:" + rest) == ReadBranchHits(SplitCommas(rest))
  {
    var line := "BRDA:" + rest;
    assert line[0] == 'B';
    OtherPrefix(line, "SF:", 0);
    OtherPrefix(line, "DA:", 0);
    OtherPrefix(line, "end_of_record", 0);
    assert line[..5] == "BRDA:" && line[5..] == rest;
  }

  lemma BranchLineReadsBack(key: Branch, taken: int)
    requires Plain(key.block) && Plain(key.branch)
    ensures Classify(BranchLine(key, taken)) == Count(BranchCounter(key), taken)
    ensures OneLine(BranchLine(key, taken))
  {
    BranchLineIsOne(key, taken);
    var rest := IntToString(key.number) + [','] + (key.block + [','] + (key.branch + [','] + IntToString(taken)));
    assert BranchLine(key, taken) == "BRDA:" + rest;
    ClassifyBranchLine(rest);
    IntRoundTrip(key.number);
    IntRoundTrip(taken);
    FourFieldsSplit(IntToString(key.number), key.block, key.branch, IntToString(taken));
  }

  lemma ClassifyHitLine(rest: string)
    ensures Classify("DA:" + rest) == ReadLineHits(SplitCommas(rest))
  {
    var line := "DA:" + rest;
    assert line[0] == 'D';
    OtherPrefix(line, "SF:", 0);
    OtherPrefix(line, "end_of_record", 0);
    assert line[..3] == "DA:" && line[3..] == rest;
  }

  lemma HitLineReadsBack(number: int, hits: int)
    ensures Classify(HitLine(number, hits)) == Count(LineCounter(number), hits)
    ensures OneLine(HitLine(number, hits))
  {
    var rest := IntToString(number) + [','] + IntToString(hits);
    IntRoundTrip(number);
    IntRoundTrip(hits);
    OneLineFields(IntToString(number), IntToString(hits));
    OneLineConcat("DA:", rest);
    ClassifyHitLine(rest);
    SplitFirstField(IntToString(number), IntToString(hits));
    SplitLastField(IntToString(hits));
    assert HitLine(number, hits) == "DA:" + rest;
  }

  ghost function BranchItems(r: Record, keys: seq<Branch>): (items: seq<Item>)
    requires forall i :: 0 <= i < |keys| ==> keys[i] in r.branches
  {
    seq(|keys|, i requires 0 <= i < |keys| => Count(BranchCounter(keys[i]), r.branches[keys[i]]))
  }

  ghost function HitItems(r: Record, keys: seq<int>): (items: seq<Item>)
    requires forall i :: 0 <= i < |keys| ==> keys[i] in r.lines
  {
    seq(|keys|, i requires 0 <= i < |keys| => Count(LineCounter(keys[i]), r.lines[keys[i]]))
  }

  /** Lines with a set meaning, none of which hides a line break. */
  ghost predicate ReadAs(lines: seq<string>, items: seq<Item>)
  {
    Items(lines) == items && forall i :: 0 <= i < |lines| ==> OneLine(lines[i])
  }

  lemma ReadAsConcat(a: seq<string>, x: seq<Item>, b: seq<string>, y: seq<Item>)
    requires ReadAs(a, x) && ReadAs(b, y)
    ensures ReadAs(a + b, x + y)
  {
    ItemsConcat(a, b);
  }

  lemma BranchLinesReadBack(r: Record, keys: seq<Branch>)
    requires RecordRenderable(r) && forall i :: 0 <= i < |keys| ==> keys[i] in r.branches
    ensures ReadAs(BranchLines(r, keys), BranchItems(r, keys))
  {
    forall i | 0 <= i < |keys|
      ensures Classify(BranchLines(r, keys)[i]) == BranchItems(r, keys)[i] && OneLine(BranchLines(r, keys)[i])
    {
      BranchLineReadsBack(keys[i], r.branches[keys[i]]);
    }
  }

  lemma HitLinesReadBack(r: Record, keys: seq<int>)
    requires forall i :: 0 <= i < |keys| ==> keys[i] in r.lines
    ensures ReadAs(HitLines(r, keys), HitItems(r, keys))
  {
    forall i | 0 <= i < |keys| ensures Classify(HitLines(r, keys)[i]) == HitItems(r, keys)[i] && OneLine(HitLines(r, keys)[i]) {
      HitLineReadsBack(keys[i], r.lines[keys[i]]);
    }
  }

  predicate SummaryTag(tag: string)
  {
    |tag| >= 3 && (tag[0] == 'B' || tag[0] == 'L') && tag[2] != 'D'
  }

  /** A summary line is ignored by the walk. */
  lemma SummaryLineIsOther(tag: string, n: int)
    requires SummaryTag(tag) && OneLine(tag)
    ensures Classify(tag + IntToString(n)) == Other && OneLine(tag + IntToString(n))
  {
    var line := tag + IntToString(n);
    IntRoundTrip(n);
    OneLineConcat(tag, IntToString(n));
    assert line[0] == tag[0] && line[2] == tag[2];
    OtherPrefix(line, "SF:", 0);
    OtherPrefix(line, "DA:", 0);
    OtherPrefix(line, "BRDA:", 2);
    OtherPrefix(line, "end_of_record", 0);
  }

  ghost function SummaryItems(r: Record): (items: seq<Item>)
  {
    if r.branches == map[] then [] else [Other, Other]
  }

  ghost function RecordItems(name: string, r: Record): (items: seq<Item>)
  {
    [SourceFile(name)] + BranchItems(r, SortedBranches(r)) + SummaryItems(r) + HitItems(r, SortedLines(r)) +
    [Other, Other, EndOfRecord]
  }

  lemma ReadAsOne(line: string, item: Item)
    requires Classify(line) == item && OneLine(line)
    ensures ReadAs([line], [item])
  {
  }

  lemma HeaderReadsBack(name: string)
    requires OneLine(name)
    ensures ReadAs(["SF:" + name], [SourceFile(name)])
  {
    var line := "SF:" + name;
    assert line[..3] == "SF:" && line[3..] == name;
    ReadAsOne(line, SourceFile(name));
  }

  lemma TotalsReadBack(found: string, hit: string, n: int, m: int)
    requires SummaryTag(found) && SummaryTag(hit) && OneLine(found) && OneLine(hit)
    ensures ReadAs([found + IntToString(n), hit + IntToString(m)], [Other, Other])
  {
    SummaryLineIsOther(found, n);
    SummaryLineIsOther(hit, m);
  }

  lemma EndReadsBack()
    ensures ReadAs(["end_of_record"], [EndOfRecord])
  {
    var line := "end_of_record";
    assert line[0] == 'e';
    ReadAsOne(line, EndOfRecord);
  }

  lemma SummariesReadBack(r: Record)
    ensures ReadAs(BranchSummary(r), SummaryItems(r))
    ensures ReadAs(Footer(r), [Other, Other, EndOfRecord])
  {
    TotalsReadBack("BRF:", "BRH:", |r.branches|, CoveredCount(r.branches));
    TotalsReadBack("LF:", "LH:", |r.lines|, CoveredCount(r.lines));
    EndReadsBack();
    ReadAsConcat(["LF:" + IntToString(|r.lines|), "LH:" + IntToString(CoveredCount(r.lines))], [Other, Other],
                 ["end_of_record"], [EndOfRecord]);
    assert [Other, Other] + [EndOfRecord] == [Other, Other, EndOfRecord];
    assert Footer(r) ==
           ["LF:" + IntToString(|r.lines|), "LH:" + IntToString(CoveredCount(r.lines))] + ["end_of_record"];
  }

  lemma RecordReadsBack(name: string, r: Record)
    requires OneLine(name) && RecordRenderable(r)
    ensures ReadAs(RecordLines(name, r), RecordItems(name, r))
  {
    HeaderReadsBack(name);
    SummariesReadBack(r);
    BranchLinesReadBack(r, SortedBranches(r));
    HitLinesReadBack(r, SortedLines(r));
    var a, x := ["SF:" + name], [SourceFile(name)];
    var b, y := BranchLines(r, SortedBranches(r)), BranchItems(r, SortedBranches(r));
    ReadAsConcat(a, x, b, y);
    ReadAsConcat(a + b, x + y, BranchSummary(r), SummaryItems(r));
    ReadAsConcat(a + b + BranchSummary(r), x + y + SummaryItems(r), HitLines(r, SortedLines(r)), HitItems(r, SortedLines(r)));
    ReadAsConcat(a + b + BranchSummary(r) + HitLines(r, SortedLines(r)),
                 x + y + SummaryItems(r) + HitItems(r, SortedLines(r)), Footer(r), [Other, Other, EndOfRecord]);
  }

  // ----- Replaying a record -----

  /** A record with some counts added, one line at a time. */
  ghost function Replay(r: Record, items: seq<Item>): (r': Record)
    requires forall i :: 0 <= i < |items| ==> items[i].Count?
  {
    if items == [] then r
    else
      var n := |items| - 1;
      Bump(Replay(r, items[..n]), items[n].counter, items[n].amount)
  }

  lemma {:induction false} RunCounts(norm: Normalize, files: Files, name: string, r: Record, items: seq<Item>)
    requires forall i :: 0 <= i < |items| ==> items[i].Count?
    ensures Run(norm, State(files[name := r], Some(name)), items) == Some(State(files[name := Replay(r, items)], Some(name)))
  {
    if items != [] {
      var n := |items| - 1;
      RunCounts(norm, files, name, r, items[..n]);
      assert items[..n + 1] == items;
      RunOneMore(norm, State(files[name := r], Some(name)), items, n);
      var mid := Replay(r, items[..n]);
      assert files[name := mid][name := Replay(r, items)] == files[name := Replay(r, items)];
    }
  }

  lemma RunOthers(norm: Normalize, st: State)
    requires Open(st)
    ensures Run(norm, st, [Other, Other]) == Some(st)
    ensures Run(norm, st, [Other, Other, EndOfRecord]) == Some(st.(current := None))
  {
    assert [Other, Other][1..] == [Other] && [Other][1..] == [];
    assert [Other, Other, EndOfRecord][1..] == [Other, EndOfRecord] && [Other, EndOfRecord][1..] == [EndOfRecord];
    assert [EndOfRecord][1..] == [];
  }

  lemma ReplayOneMore(r: Record, items: seq<Item>, n: nat)
    requires n < |items| && forall i :: 0 <= i < |items| ==> items[i].Count?
    ensures Replay(r, items[..n + 1]) == Bump(Replay(r, items[..n]), items[n].counter, items[n].amount)
  {
    assert items[..n + 1][..n] == items[..n];
  }

  lemma {:induction false} ReplayBranches(r: Record, keys: seq<Branch>, n: nat)
    requires n <= |keys| && forall i :: 0 <= i < |keys| ==> keys[i] in r.branches
    requires Distinct(keys)
    ensures var got := Replay(EMPTY, BranchItems(r, keys)[..n]);
            && got.lines == map[] && (forall k :: k in got.branches <==> k in keys[..n])
            && forall k :: k in got.branches ==> k in r.branches && got.branches[k] == r.branches[k]
  {
    if n > 0 {
      ReplayBranches(r, keys, n - 1);
      ReplayOneMore(EMPTY, BranchItems(r, keys), n - 1);
      DistinctPrefix(keys, n - 1);
    }
  }

  lemma DistinctPrefix<T>(keys: seq<T>, n: nat)
    requires n < |keys| && Distinct(keys)
    ensures keys[..n + 1] == keys[..n] + [keys[n]] && keys[n] !in keys[..n]
  {
  }

  lemma {:induction false} ReplayHits(start: Record, r: Record, keys: seq<int>, n: nat)
    requires start.lines == map[] && n <= |keys| && forall i :: 0 <= i < |keys| ==> keys[i] in r.lines
    requires Distinct(keys)
    ensures var got := Replay(start, HitItems(r, keys)[..n]);
            && got.branches == start.branches && (forall k :: k in got.lines <==> k in keys[..n])
            && forall k :: k in got.lines ==> k in r.lines && got.lines[k] == r.lines[k]
  {
    if n > 0 {
      ReplayHits(start, r, keys, n - 1);
      ReplayOneMore(start, HitItems(r, keys), n - 1);
      DistinctPrefix(keys, n - 1);
    }
  }

  lemma AllBranchesReplayed(r: Record, keys: seq<Branch>)
    requires Distinct(keys) && (forall i :: 0 <= i < |keys| ==> keys[i] in r.branches) && forall k :: k in r.branches ==> k in keys
    ensures Replay(EMPTY, BranchItems(r, keys)) == Record(map[], r.branches)
  {
    ReplayBranches(r, keys, |keys|);
    assert BranchItems(r, keys)[..|keys|] == BranchItems(r, keys) && keys[..|keys|] == keys;
    assert Replay(EMPTY, BranchItems(r, keys)).branches == r.branches;
  }

  lemma AllHitsReplayed(r: Record, keys: seq<int>)
    requires Distinct(keys) && (forall i :: 0 <= i < |keys| ==> keys[i] in r.lines) && forall k :: k in r.lines ==> k in keys
    ensures Replay(Record(map[], r.branches), HitItems(r, keys)) == r
  {
    ReplayHits(Record(map[], r.branches), r, keys, |keys|);
    assert HitItems(r, keys)[..|keys|] == HitItems(r, keys) && keys[..|keys|] == keys;
    var got := Replay(Record(map[], r.branches), HitItems(r, keys));
    forall k | k in r.lines ensures k in got.lines {
      assert k in keys[..|keys|];
    }
    forall k | k in got.lines ensures k in r.lines && got.lines[k] == r.lines[k] {
    }
    assert got.lines == r.lines;
  }

  /** Replaying the sorted counts of a record onto nothing gives that record. */
  lemma ReplayRecord(r: Record)
    ensures Replay(Replay(EMPTY, BranchItems(r, SortedBranches(r))), HitItems(r, SortedLines(r))) == r
  {
    SortedKeysAreComplete(map[], r);
    AllBranchesReplayed(r, SortedBranches(r));
    AllHitsReplayed(r, SortedLines(r));
  }

  lemma RunOpening(norm: Normalize, files: Files, name: string, counts: seq<Item>)
    requires norm(name) == Some(name) && name !in files && forall i :: 0 <= i < |counts| ==> counts[i].Count?
    ensures Run(norm, State(files, None), [SourceFile(name)] + counts) ==
            Some(State(files[name := Replay(EMPTY, counts)], Some(name)))
  {
    var start, a := State(files, None), [SourceFile(name)];
    assert Run(norm, start, a) == Some(State(files[name := EMPTY], Some(name))) by { assert a[1..] == []; }
    RunConcat(norm, start, a, counts);
    RunCounts(norm, files, name, EMPTY, counts);
  }

  /** Walking over one rendered record adds exactly that record. */
  lemma RunRecord(norm: Normalize, files: Files, name: string, r: Record)
    requires norm(name) == Some(name) && name !in files
    ensures Run(norm, State(files, None), RecordItems(name, r)) == Some(State(files[name := r], None))
  {
    var start := State(files, None);
    var b, c, d := BranchItems(r, SortedBranches(r)), SummaryItems(r), HitItems(r, SortedLines(r));
    var front, half := [SourceFile(name)] + b, Replay(EMPTY, b);
    RunOpening(norm, files, name, b);
    RunConcat(norm, start, front, c);
    RunOthers(norm, State(files[name := half], Some(name)));
    RunConcat(norm, start, front + c, d);
    RunCounts(norm, files, name, half, d);
    RunConcat(norm, start, front + c + d, [Other, Other, EndOfRecord]);
    ReplayRecord(r);
    RunOthers(norm, State(files[name := r], Some(name)));
  }

  ghost function Restrict(files: Files, names: seq<string>): (some: Files)
  {
    map name | name in files && name in names :: files[name]
  }

  lemma RestrictOneMore(files: Files, names: seq<string>, name: string)
    requires name in files
    ensures Restrict(files, names + [name]) == Restrict(files, names)[name := files[name]]
  {
  }

  /** Walking over one rendered file, between records, adds exactly that file. */
  ghost predicate AddsFile(norm: Normalize, render: Renderer, files: Files, name: string, done: Files)
  {
    name in files && name !in done ==>
      Run(norm, State(done, None), Items(render(name, files[name]))) == Some(State(done[name := files[name]], None))
  }

  ghost predicate Replays(norm: Normalize, render: Renderer, files: Files)
  {
    forall name, done: Files :: AddsFile(norm, render, files, name, done)
  }

  ghost predicate RendersLines(render: Renderer, files: Files)
  {
    forall name, i :: name in files && 0 <= i < |render(name, files[name])| ==> OneLine(render(name, files[name])[i])
  }

  lemma RecordLinesReplay(norm: Normalize, files: Files)
    requires Renderable(norm, files)
    ensures Replays(norm, RecordLines, files) && RendersLines(RecordLines, files)
  {
    forall name | name in files ensures ReadAs(RecordLines(name, files[name]), RecordItems(name, files[name])) {
      RecordReadsBack(name, files[name]);
    }
    forall name, done: Files ensures AddsFile(norm, RecordLines, files, name, done) {
      if name in files && name !in done { RunRecord(norm, done, name, files[name]); }
    }
  }

  lemma ReplayOne(norm: Normalize, render: Renderer, files: Files, name: string, done: Files)
    requires Replays(norm, render, files) && name in files && name !in done
    ensures Run(norm, State(done, None), Items(render(name, files[name]))) == Some(State(done[name := files[name]], None))
  {
    assert AddsFile(norm, render, files, name, done);
  }

  /** Between two records: the walk over the first `n` files has produced exactly these files. */
  ghost predicate Walked(norm: Normalize, render: Renderer, files: Files, names: seq<string>, n: nat)
    requires n <= |names| && forall i :: 0 <= i < |names| ==> names[i] in files
  {
    Run(norm, START, Items(FilesLines(render, files, names, n))) == Some(State(Restrict(files, names[..n]), None))
  }

  lemma WalkedNothing(norm: Normalize, render: Renderer, files: Files, names: seq<string>)
    requires forall i :: 0 <= i < |names| ==> names[i] in files
    ensures Walked(norm, render, files, names, 0)
  {
    assert Restrict(files, names[..0]) == map[];
  }

  lemma WalkedOneMore(norm: Normalize, render: Renderer, files: Files, names: seq<string>, n: nat)
    requires Replays(norm, render, files) && n < |names| && forall i :: 0 <= i < |names| ==> names[i] in files
    requires Walked(norm, render, files, names, n) && names[..n + 1] == names[..n] + [names[n]] && names[n] !in names[..n]
    ensures Walked(norm, render, files, names, n + 1)
  {
    var name, done := names[n], Restrict(files, names[..n]);
    RestrictOneMore(files, names[..n], name);
    ReplayOne(norm, render, files, name, done);
    RunOnePartMore(norm, FilesLines(render, files, names, n), done, render(name, files[name]), done[name := files[name]]);
  }

  lemma {:induction false} RunFiles(norm: Normalize, render: Renderer, files: Files, names: seq<string>, n: nat)
    requires Replays(norm, render, files) && Distinct(names) && n <= |names| && forall i :: 0 <= i < |names| ==> names[i] in files
    ensures Walked(norm, render, files, names, n)
  {
    if n == 0 {
      WalkedNothing(norm, render, files, names);
    } else {
      RunFiles(norm, render, files, names, n - 1);
      DistinctPrefix(names, n - 1);
      WalkedOneMore(norm, render, files, names, n - 1);
    }
  }

  lemma RunOnePartMore(norm: Normalize, front: seq<string>, done: Files, part: seq<string>, more: Files)
    requires Run(norm, START, Items(front)) == Some(State(done, None))
    requires Run(norm, State(done, None), Items(part)) == Some(State(more, None))
    ensures Run(norm, START, Items(front + part)) == Some(State(more, None))
  {
    ItemsConcat(front, part);
    RunConcat(norm, START, Items(front), Items(part));
  }

  lemma {:induction false} RenderedLinesAreLines(render: Renderer, files: Files, names: seq<string>, n: nat)
    requires RendersLines(render, files) && n <= |names| && forall i :: 0 <= i < |names| ==> names[i] in files
    ensures forall i :: 0 <= i < |FilesLines(render, files, names, n)| ==> OneLine(FilesLines(render, files, names, n)[i])
  {
    if n > 0 {
      RenderedLinesAreLines(render, files, names, n - 1);
    }
  }

  lemma EmptyTextIsOneBlankLine()
    ensures SplitLines(JoinLines([])) == [[]]
    ensures Items([[]]) == [Other]
  {
    SplitFirstLine([], []);
    assert [] + ['\n'] + [] == JoinLines([]);
  }

  lemma BlankLineRuns(norm: Normalize, blank: seq<Item>)
    requires blank == [Other]
    ensures Run(norm, START, blank) == Run(norm, START, [])
  {
    assert blank[1..] == [];
  }

  lemma JoinedLinesRun(norm: Normalize, lines: seq<string>)
    requires forall i :: 0 <= i < |lines| ==> OneLine(lines[i])
    ensures Run(norm, START, Items(SplitLines(JoinLines(lines)))) == Run(norm, START, Items(lines))
  {
    if lines == [] {
      EmptyTextIsOneBlankLine();
      BlankLineRuns(norm, Items([[]]));
      assert Items(lines) == [];
    } else {
      SplitJoined(lines);
      assert SplitLines(JoinLines(lines)) == lines;
    }
  }

  lemma RestrictAll(files: Files, names: seq<string>)
    requires forall x :: x in files ==> x in names
    ensures Restrict(files, names) == files
  {
  }

  /** Whatever the order of the records, a text made of them merges back to the same files. */
  lemma RoundTripInOrder(norm: Normalize, render: Renderer, files: Files, names: seq<string>)
    requires Replays(norm, render, files) && RendersLines(render, files) && Distinct(names)
    requires (forall i :: 0 <= i < |names| ==> names[i] in files) && forall x :: x in files ==> x in names
    ensures Merged(norm, JoinLines(FilesLines(render, files, names, |names|))) == Some(files)
  {
    RunFiles(norm, render, files, names, |names|);
    RenderedLinesAreLines(render, files, names, |names|);
    RestrictAll(files, names);
    assert names[..|names|] == names;
    JoinedLinesRun(norm, FilesLines(render, files, names, |names|));
  }

  /** Round trip: merging a rendered report gives back the same files, lines and branches. */
  lemma RenderRoundTrip(norm: Normalize, files: Files)
    requires Renderable(norm, files)
    ensures Merged(norm, Rendered(files)) == Some(files)
  {
    SortedKeysAreComplete(files, EMPTY);
    RecordLinesReplay(norm, files);
    RoundTripInOrder(norm, RecordLines, files, SortedNames(files));
  }

  /** A resolved path resolves to itself, and resolving introduces no line break. */
  ghost predicate Settled(norm: Normalize)
  {
    forall path :: OneLine(path) && norm(path).Some? ==> norm(norm(path).value) == norm(path) && OneLine(norm(path).value)
  }

  lemma CountedBranchIsPlain(line: string)
    requires OneLine(line)
    ensures Classify(line).SourceFile? ==> OneLine(Classify(line).path)
    ensures Classify(line).Count? && Classify(line).counter.BranchCounter? ==>
              Plain(Classify(line).counter.key.block) && Plain(Classify(line).counter.key.branch)
  {
    if StartsWith(line, "SF:") || line == "end_of_record" || StartsWith(line, "DA:") {
    } else if StartsWith(line, "BRDA:") {
      assert OneLine(line[5..]);
    }
  }

  lemma {:induction false} RunStaysRenderable(norm: Normalize, st: State, lines: seq<string>)
    requires Settled(norm) && Open(st) && Renderable(norm, st.files)
    requires forall i :: 0 <= i < |lines| ==> OneLine(lines[i])
    ensures Run(norm, st, Items(lines)).Some? ==> Renderable(norm, Run(norm, st, Items(lines)).value.files)
    decreases |lines|
  {
    if lines != [] {
      CountedBranchIsPlain(lines[0]);
      assert Items(lines)[1..] == Items(lines[1..]);
      match Step(norm, st, Items(lines)[0])
      case None =>
      case Some(next) =>
        assert Renderable(norm, next.files);
        RunStaysRenderable(norm, next, lines[1..]);
    }
  }

  /** Every merge result survives rendering: for all reports, normalising once is the same as normalising again. */
  lemma MergeRenderMerge(norm: Normalize, report: string)
    requires Settled(norm) && Merged(norm, report).Some?
    ensures Merged(norm, Rendered(Merged(norm, report).value)) == Merged(norm, report)
  {
    LinesHaveNoBreaks(report);
    RunStaysRenderable(norm, START, SplitLines(report));
    RenderRoundTrip(norm, Merged(norm, report).value);
  }

  // ----- Dashes and summary figures -----

  /** A branch that was never reached, printed as a dash, counts zero. */
  lemma DashCountsZero(key: Branch)
    requires Plain(key.block) && Plain(key.branch)
    ensures Classify("BRDA:" + (IntToString(key.number) + [','] + (key.block + [','] + (key.branch + [','] + ['-'])))) ==
            Count(BranchCounter(key), 0)
  {
    IntRoundTrip(key.number);
    FourFieldsSplit(IntToString(key.number), key.block, key.branch, ['-']);
    ClassifyBranchLine(IntToString(key.number) + [','] + (key.block + [','] + (key.branch + [','] + ['-'])));
  }

  /** A checksum after the hits of a line is ignored. */
  lemma ChecksumIsIgnored(number: int, hits: int, checksum: string)
    ensures Classify("DA:" + (IntToString(number) + [','] + (IntToString(hits) + [','] + checksum))) == Count(LineCounter(number), hits)
  {
    IntRoundTrip(number);
    IntRoundTrip(hits);
    var rest := IntToString(hits) + [','] + checksum;
    SplitFirstField(IntToString(number), rest);
    SplitFirstField(IntToString(hits), checksum);
    ClassifyHitLine(IntToString(number) + [','] + rest);
  }

  /** Whether a line of a report is a `DA` line, or a `BRDA` line, and whether it counts anything. */
  predicate IsHit(item: Item) { item.Count? && item.counter.LineCounter? }
  predicate IsBranch(item: Item) { item.Count? && item.counter.BranchCounter? }

  function HitsIn(covered: bool): Item -> nat { (item: Item) => One(IsHit(item) && (covered ==> item.amount != 0)) }
  function BranchesIn(covered: bool): Item -> nat { (item: Item) => One(IsBranch(item) && (covered ==> item.amount != 0)) }

  predicate Counts<K(==)>(m: map<K, int>, k: K, covered: bool)
  {
    k in m && (covered ==> m[k] != 0)
  }

  function KeyWeight<K(==)>(m: map<K, int>, covered: bool): K -> nat
  {
    (k: K) => One(Counts(m, k, covered))
  }

  ghost function CountedKeys<K(!new)>(m: map<K, int>, keys: seq<K>, covered: bool): (s: set<K>)
  {
    set k | k in keys && Counts(m, k, covered)
  }

  lemma CountedKeysStep<K(!new)>(m: map<K, int>, keys: seq<K>, covered: bool)
    requires keys != [] && keys[0] !in keys[1..]
    ensures CountedKeys(m, keys, covered) ==
            if Counts(m, keys[0], covered) then CountedKeys(m, keys[1..], covered) + {keys[0]} else CountedKeys(m, keys[1..], covered)
    ensures |CountedKeys(m, keys, covered)| == |CountedKeys(m, keys[1..], covered)| + One(Counts(m, keys[0], covered))
  {
    assert keys == [keys[0]] + keys[1..];
    assert keys[0] !in CountedKeys(m, keys[1..], covered);
  }

  lemma {:induction false} KeysAreCounted<K(!new)>(m: map<K, int>, keys: seq<K>, covered: bool)
    requires Distinct(keys)
    ensures SumBy(keys, KeyWeight(m, covered)) == |CountedKeys(m, keys, covered)|
  {
    if keys == [] {
      assert CountedKeys(m, keys, covered) == {};
    } else {
      CountedKeysStep(m, keys, covered);
      KeysAreCounted(m, keys[1..], covered);
    }
  }

  lemma AllKeysAreCounted<K(!new)>(m: map<K, int>, keys: seq<K>)
    requires Distinct(keys) && forall k :: k in m ==> k in keys
    ensures SumBy(keys, KeyWeight(m, false)) == |m| && SumBy(keys, KeyWeight(m, true)) == CoveredCount(m)
  {
    KeysAreCounted(m, keys, false);
    KeysAreCounted(m, keys, true);
    assert CountedKeys(m, keys, false) == m.Keys;
    assert CountedKeys(m, keys, true) == set k | k in m && m[k] != 0;
  }

  lemma HitWeights(r: Record, covered: bool)
    ensures SumBy(HitItems(r, SortedLines(r)), HitsIn(covered)) == SumBy(SortedLines(r), KeyWeight(r.lines, covered))
    ensures SumBy(BranchItems(r, SortedBranches(r)), HitsIn(covered)) == 0
  {
    SumByPointwise(HitItems(r, SortedLines(r)), HitsIn(covered), SortedLines(r), KeyWeight(r.lines, covered));
    NothingWeighs(BranchItems(r, SortedBranches(r)), HitsIn(covered));
  }

  lemma BranchWeights(r: Record, covered: bool)
    ensures SumBy(BranchItems(r, SortedBranches(r)), BranchesIn(covered)) == SumBy(SortedBranches(r), KeyWeight(r.branches, covered))
    ensures SumBy(HitItems(r, SortedLines(r)), BranchesIn(covered)) == 0
  {
    SumByPointwise(BranchItems(r, SortedBranches(r)), BranchesIn(covered), SortedBranches(r), KeyWeight(r.branches, covered));
    NothingWeighs(HitItems(r, SortedLines(r)), BranchesIn(covered));
  }

  lemma {:induction false} NothingWeighs<T>(s: seq<T>, weight: T -> nat)
    requires forall i :: 0 <= i < |s| ==> weight(s[i]) == 0
    ensures SumBy(s, weight) == 0
  {
    if s != [] {
      assert forall i :: 0 <= i < |s| - 1 ==> s[1..][i] == s[i + 1];
      NothingWeighs(s[1..], weight);
    }
  }

  /** The weight of a whole rendered record, for weights that ignore everything but counts. */
  lemma RecordWeight(name: string, r: Record, weight: Item -> nat)
    requires weight(SourceFile(name)) == 0 && weight(Other) == 0 && weight(EndOfRecord) == 0
    ensures SumBy(RecordItems(name, r), weight) ==
            SumBy(BranchItems(r, SortedBranches(r)), weight) + SumBy(HitItems(r, SortedLines(r)), weight)
  {
    var a, b, c, d := [SourceFile(name)], BranchItems(r, SortedBranches(r)), SummaryItems(r), HitItems(r, SortedLines(r));
    NothingWeighs(a, weight);
    NothingWeighs(c, weight);
    NothingWeighs([Other, Other, EndOfRecord], weight);
    SumByConcat(a, b, weight);
    SumByConcat(a + b, c, weight);
    SumByConcat(a + b + c, d, weight);
    SumByConcat(a + b + c + d, [Other, Other, EndOfRecord], weight);
  }

  lemma HitsCounted(name: string, r: Record, covered: bool)
    ensures SumBy(RecordItems(name, r), HitsIn(covered)) == SumBy(SortedLines(r), KeyWeight(r.lines, covered))
  {
    HitWeights(r, covered);
    RecordWeight(name, r, HitsIn(covered));
  }

  lemma BranchesCounted(name: string, r: Record, covered: bool)
    ensures SumBy(RecordItems(name, r), BranchesIn(covered)) == SumBy(SortedBranches(r), KeyWeight(r.branches, covered))
  {
    BranchWeights(r, covered);
    RecordWeight(name, r, BranchesIn(covered));
  }

  /** How many `DA` lines a rendered record has, and how many of them count something. */
  lemma HitsOfARecord(name: string, r: Record)
    ensures SumBy(RecordItems(name, r), HitsIn(false)) == |r.lines|
    ensures SumBy(RecordItems(name, r), HitsIn(true)) == CoveredCount(r.lines)
  {
    SortedKeysAreComplete(map[], r);
    AllKeysAreCounted(r.lines, SortedLines(r));
    HitsCounted(name, r, false);
    HitsCounted(name, r, true);
  }

  lemma BranchesOfARecord(name: string, r: Record)
    ensures SumBy(RecordItems(name, r), BranchesIn(false)) == |r.branches|
    ensures SumBy(RecordItems(name, r), BranchesIn(true)) == CoveredCount(r.branches)
  {
    SortedKeysAreComplete(map[], r);
    AllKeysAreCounted(r.branches, SortedBranches(r));
    BranchesCounted(name, r, false);
    BranchesCounted(name, r, true);
  }

  lemma BranchLinesAreBranches(r: Record)
    ensures |BranchLines(r, SortedBranches(r))| == |r.branches|
  {
    SortedKeysAreComplete(map[], r);
    ListedOnce(r.branches, SortedBranches(r));
  }

  lemma Places(a: seq<string>, b: seq<string>, c: seq<string>, d: seq<string>, e: seq<string>)
    requires |a| == 1
    ensures var all := a + b + c + d + e;
            && |all| >= 1 + |b| + |c| + |e|
            && (forall i :: 0 <= i < |e| ==> all[|all| - |e| + i] == e[i])
            && (forall i :: 0 <= i < |c| ==> all[|b| + 1 + i] == c[i])
  {
  }

  /**
    The summary lines of a rendered record tell the truth about its other lines: it ends with the
    number of `DA` lines, the number of those with hits and the end mark; and where there are `BRDA`
    lines, their number and the number of those taken come right after them.
   */
  lemma SummariesAreTrue(name: string, r: Record)
    requires OneLine(name) && RecordRenderable(r)
    ensures var lines := RecordLines(name, r);
            var items, n := Items(lines), |lines|;
            && n >= 4
            && lines[n - 3] == "LF:" + IntToString(SumBy(items, HitsIn(false)))
            && lines[n - 2] == "LH:" + IntToString(SumBy(items, HitsIn(true)))
            && lines[n - 1] == "end_of_record"
  {
    RecordReadsBack(name, r);
    HitsOfARecord(name, r);
    Places(["SF:" + name], BranchLines(r, SortedBranches(r)), BranchSummary(r), HitLines(r, SortedLines(r)), Footer(r));
    var lines := RecordLines(name, r);
    assert lines[|lines| - 3 + 0] == Footer(r)[0] && lines[|lines| - 3 + 1] == Footer(r)[1] && lines[|lines| - 3 + 2] == Footer(r)[2];
  }

  lemma BranchSummariesAreTrue(name: string, r: Record)
    requires OneLine(name) && RecordRenderable(r) && r.branches != map[]
    ensures var lines := RecordLines(name, r);
            var items, b := Items(lines), SumBy(Items(lines), BranchesIn(false));
            && |lines| >= 6 + b
            && lines[b + 1] == "BRF:" + IntToString(b)
            && lines[b + 2] == "BRH:" + IntToString(SumBy(items, BranchesIn(true)))
  {
    RecordReadsBack(name, r);
    BranchesOfARecord(name, r);
    BranchLinesAreBranches(r);
    assert |BranchSummary(r)| == 2;
    Places(["SF:" + name], BranchLines(r, SortedBranches(r)), BranchSummary(r), HitLines(r, SortedLines(r)), Footer(r));
    var lines, b := RecordLines(name, r), |r.branches|;
    assert lines[b + 1 + 0] == BranchSummary(r)[0] && lines[b + 1 + 1] == BranchSummary(r)[1];
  }

  lemma ListedOnce<K(!new)>(m: map<K, int>, keys: seq<K>)
    requires Distinct(keys) && (forall i :: 0 <= i < |keys| ==> keys[i] in m) && forall k :: k in m ==> k in keys
    ensures |keys| == |m|
  {
    AllKeysAreCounted(m, keys);
    EveryKeyWeighsOne(m, keys);
  }

  lemma {:induction false} EveryKeyWeighsOne<K(!new)>(m: map<K, int>, keys: seq<K>)
    requires forall i :: 0 <= i < |keys| ==> keys[i] in m
    ensures SumBy(keys, KeyWeight(m, false)) == |keys|
  {
    if keys != [] {
      EveryKeyWeighsOne(m, keys[1..]);
    }
  }
}
