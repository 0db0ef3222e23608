/**
 * The per-file summary of a run (computeChangedFiles in apps/mobile/hooks/useAgentSession.ts):
 * every diff shown in the thread, added up under the path its header names.
 */
module ChangedFiles {
  import opened Prelude
  import opened LineDiff

  datatype FileDiff = FileDiff(path: string, before: Option<string>, after: Option<string>)
  datatype Counts = Counts(adds: nat, dels: nat)
  datatype ChangedFile = ChangedFile(path: string, counts: Counts)

  /** One tool call's diff, when it has one; a message's tool calls in order. */
  type Tool = Option<seq<DiffLine>>
  type Message = seq<Tool>

  // ----- Headers -----

  const NEW_FILE := " (new file)"

  /** The header `diffLinesFor` puts before a file's lines. */
  function Header(f: FileDiff): string {
    if f.before.None? then "+++ " + f.path + NEW_FILE else "--- / +++ " + f.path
  }

  function DiffLinesFor(files: seq<FileDiff>): seq<DiffLine> {
    if files == [] then []
    else [DiffLine(Meta, Header(files[0]))] + FileDiffLines(files[0].before, files[0].after) + DiffLinesFor(files[1..])
  }

  /** What `.` matches in the header pattern: anything but a line terminator. */
  predicate OneLine(s: string) {
    forall c :: c in s ==> c !in {'\n', '\r', '\U{2028}', '\U{2029}'}
  }

  predicate EndsWith(s: string, suffix: string) {
    |suffix| <= |s| && s[|s| - |suffix|..] == suffix
  }

  /** The pattern's lazy group, with its optional ` (new file)` and the end of the text. */
  function LazyPath(rest: string): Option<string> {
    if rest == [] || !OneLine(rest) then None
    else if EndsWith(rest, NEW_FILE) && |rest| > |NEW_FILE| then Some(rest[..|rest| - |NEW_FILE|])
    else Some(rest)
  }

  /** The path a meta line names, if it is a header at all: `+++ p`, `--- / +++ p` or `--- p`. */
  function HeaderPath(text: string): Option<string> {
    if "+++ " <= text then LazyPath(text[4..])
    else if "--- / +++ " <= text && LazyPath(text[10..]).Some? then LazyPath(text[10..])
    else if "--- " <= text then LazyPath(text[4..])
    else None
  }

  /** A header gives its file's path back. */
  predicate Recovers(f: FileDiff) {
    HeaderPath(Header(f)) == Some(f.path)
  }

  /**
   * A header names its own file exactly when the path is one non-empty line that, for an edited
   * file, does not itself end in the new-file mark.
   */
  lemma HeaderRecoversPath(f: FileDiff)
    ensures Recovers(f) <==>
            f.path != [] && OneLine(f.path) &&
            (f.before.Some? ==> !EndsWith(f.path, NEW_FILE) || f.path == NEW_FILE)
  {
    var text := Header(f);
    if f.before.None? {
      assert text[4..] == f.path + NEW_FILE && text[..4] == "+++ ";
      LazyPathOfNew(f.path);
    } else {
      assert text[10..] == f.path && text[4..] == "/ +++ " + f.path;
      assert text[0] == '-' && text[..10] == "--- / +++ " && text[..4] == "--- ";
      LazyPathOfEdit(f.path);
    }
  }

  lemma LazyPathOfNew(path: string)
    ensures LazyPath(path + NEW_FILE) == Some(path) <==> path != [] && OneLine(path)
  {
    var rest := path + NEW_FILE;
    assert EndsWith(rest, NEW_FILE) && rest[..|path|] == path;
    assert forall c :: c in rest <==> c in path || c in NEW_FILE;
  }

  lemma LazyPathOfEdit(path: string)
    ensures LazyPath(path).Some? ==>
      (LazyPath(path) == Some(path) <==> (!EndsWith(path, NEW_FILE) || path == NEW_FILE))
    ensures LazyPath(path).None? <==> path == [] || !OneLine(path)
    ensures LazyPath(path).None? ==> LazyPath("/ +++ " + path) != Some(path)
  {
    if EndsWith(path, NEW_FILE) && |path| == |NEW_FILE| {
      assert path == path[0..] == NEW_FILE;
    }
    if !OneLine(path) {
      var c :| c in path && c in {'\n', '\r', '\U{2028}', '\U{2029}'};
      assert c in "/ +++ " + path;
    }
  }

  /** An edited file whose name ends in the new-file mark is read back without it: as another file. */
  lemma MarkedNameIsCut(path: string, before: string, after: Option<string>)
    requires path != [] && OneLine(path)
    ensures HeaderPath(Header(FileDiff(path + NEW_FILE, Some(before), after))) == Some(path)
  {
    var text := Header(FileDiff(path + NEW_FILE, Some(before), after));
    assert text[10..] == path + NEW_FILE && text[..10] == "--- / +++ " && text[0] == '-';
    LazyPathOfNew(path);
  }

  /** The three headers of a plain path, and that nothing else is a header. */
  lemma HeaderForms(path: string, text: string)
    requires path != [] && OneLine(path) && !EndsWith(path, NEW_FILE)
    ensures HeaderPath("+++ " + path) == HeaderPath("+++ " + path + NEW_FILE) == Some(path)
    ensures HeaderPath("--- / +++ " + path) == Some(path)
    ensures !("/ +++ " <= path) ==> HeaderPath("--- " + path) == Some(path)
    ensures HeaderPath(text).Some? ==> "+++ " <= text || "--- " <= text
  {
    var a, b, c, d := "+++ " + path, "+++ " + path + NEW_FILE, "--- / +++ " + path, "--- " + path;
    assert a[4..] == path && b[4..] == path + NEW_FILE && c[10..] == path && d[4..] == path;
    LazyPathOfNew(path);
    assert c[..10] == "--- / +++ " && c[0] == '-' && d[0] == '-';
    if "--- / +++ " <= d {
      assert d[4..10] == "/ +++ " && path[..6] == d[4..10];
    }
  }

  // ----- Counting -----

  /** The running summary: counts per path, and the paths by first appearance. */
  datatype Tally = Tally(byPath: map<string, Counts>, order: seq<string>)

  const EMPTY := Tally(map[], [])

  ghost predicate Ordered(t: Tally) {
    && (forall p :: p in t.order <==> p in t.byPath)
    && (forall i, j :: 0 <= i < j < |t.order| ==> t.order[i] != t.order[j])
  }

  function Touch(t: Tally, path: string): Tally {
    if path in t.byPath then t else Tally(t.byPath[path := Counts(0, 0)], t.order + [path])
  }

  function Count(t: Tally, path: string, kind: Kind): Tally {
    if path !in t.byPath then t
    else
      var c := t.byPath[path];
      if kind == Add then t.(byPath := t.byPath[path := c.(adds := c.adds + 1)])
      else if kind == Del then t.(byPath := t.byPath[path := c.(dels := c.dels + 1)])
      else t
  }

  function ScanLines(t: Tally, path: Option<string>, lines: seq<DiffLine>): Tally
    decreases |lines|
  {
    if lines == [] then t
    else if lines[0].kind == Meta then
      var p := HeaderPath(lines[0].text);
      ScanLines(if p.Some? then Touch(t, p.value) else t, p, lines[1..])
    else if path.None? then ScanLines(t, path, lines[1..])
    else ScanLines(Count(t, path.value, lines[0].kind), path, lines[1..])
  }

  function ScanTools(t: Tally, tools: Message): Tally
    decreases |tools|
  {
    if tools == [] then t
    else ScanTools(if tools[0].Some? then ScanLines(t, None, tools[0].value) else t, tools[1..])
  }

  function ScanMessages(t: Tally, msgs: seq<Message>): Tally
    decreases |msgs|
  {
    if msgs == [] then t else ScanMessages(ScanTools(t, msgs[0]), msgs[1..])
  }

  method ComputeChangedFiles(msgs: seq<Message>) returns (out: seq<ChangedFile>)
    ensures var t := ScanMessages(EMPTY, msgs);
      && |out| == |t.order|
      && (forall i :: 0 <= i < |out| ==>
           out[i].path == t.order[i] && t.order[i] in t.byPath && out[i].counts == t.byPath[t.order[i]])
    ensures forall i, j :: 0 <= i < j < |out| ==> out[i].path != out[j].path
    ensures ByAppearance(seq(|out|, i requires 0 <= i < |out| => out[i].path), PathsRead(msgs))
  {
    var t := EMPTY;
    PathsByAppearance(msgs);
    for m := 0 to |msgs|
      invariant Ordered(t)
      invariant ScanMessages(t, msgs[m..]) == ScanMessages(EMPTY, msgs)
    {
      assert msgs[m..][0] == msgs[m] && msgs[m..][1..] == msgs[m + 1..];
      ghost var start := t;
      for k := 0 to |msgs[m]|
        invariant Ordered(t)
        invariant ScanTools(t, msgs[m][k..]) == ScanTools(start, msgs[m])
      {
        assert msgs[m][k..][0] == msgs[m][k] && msgs[m][k..][1..] == msgs[m][k + 1..];
        if msgs[m][k].Some? {
          t := CountTool(t, msgs[m][k].value);
        }
      }
    }
    out := [];
    for i := 0 to |t.order|
      invariant |out| == i
      invariant forall k :: 0 <= k < i ==>
        out[k].path == t.order[k] && t.order[k] in t.byPath && out[k].counts == t.byPath[t.order[k]]
    {
      assert t.order[i] in t.order;
      out := out + [ChangedFile(t.order[i], t.byPath[t.order[i]])];
    }
    assert seq(|out|, i requires 0 <= i < |out| => out[i].path) == t.order;
  }

  /** One tool call's diff, line by line. */
  method CountTool(start: Tally, lines: seq<DiffLine>) returns (t: Tally)
    requires Ordered(start)
    ensures Ordered(t) && t == ScanLines(start, None, lines)
  {
    t := start;
    var path: Option<string> := None;
    for l := 0 to |lines|
      invariant Ordered(t)
      invariant ScanLines(t, path, lines[l..]) == ScanLines(start, None, lines)
    {
      assert lines[l..][0] == lines[l] && lines[l..][1..] == lines[l + 1..];
      if lines[l].kind == Meta {
        path := HeaderPath(lines[l].text);
        if path.Some? && path.value !in t.byPath {
          t := Tally(t.byPath[path.value := Counts(0, 0)], t.order + [path.value]);
        }
        continue;
      }
      if path.None? {
        continue;
      }
      t := Count(t, path.value, lines[l].kind);
    }
  }

  // ----- What the summary adds up to -----

  function Net(t: Tally, path: string): int {
    if path in t.byPath then t.byPath[path].adds - t.byPath[path].dels else 0
  }

  /** The change in line count a diff shows, nothing when it is too large to show. */
  function LinesAdded(f: FileDiff): int {
    if TooLarge(f.before, f.after) then 0 else |LinesOf(f.after)| - |LinesOf(f.before)|
  }

  /** The change in line count `files` makes to `path`, over the changes diffed line by line. */
  function NetChange(files: seq<FileDiff>, path: string): int {
    if files == [] then 0 else (if files[0].path == path then LinesAdded(files[0]) else 0) + NetChange(files[1..], path)
  }

  /** The same over the files whose headers read as `path`, whatever files they are. */
  function NetRead(files: seq<FileDiff>, path: string): int {
    if files == [] then 0
    else (if HeaderPath(Header(files[0])) == Some(path) then LinesAdded(files[0]) else 0) + NetRead(files[1..], path)
  }

  /** The header names `path` exactly when the file is that one. */
  predicate Tells(f: FileDiff, path: string) { HeaderPath(Header(f)) == Some(path) <==> f.path == path }

  lemma {:induction false} ReadAsNamed(files: seq<FileDiff>, path: string)
    requires forall i :: 0 <= i < |files| ==> Tells(files[i], path)
    ensures NetRead(files, path) == NetChange(files, path)
  {
    if files != [] {
      assert Tells(files[0], path);
      ReadAsNamed(files[1..], path);
    }
  }

  /** The lines of one kind the summary has for a path. */
  function Counted(t: Tally, path: string, kind: Kind): nat
    requires kind == Add || kind == Del
  {
    if path !in t.byPath then 0 else if kind == Add then t.byPath[path].adds else t.byPath[path].dels
  }

  /** The lines of one kind in the changes whose headers read as `path`. */
  function CountRead(files: seq<FileDiff>, path: string, kind: Kind): nat {
    if files == [] then 0
    else (if HeaderPath(Header(files[0])) == Some(path)
        then CountKind(FileDiffLines(files[0].before, files[0].after), kind)
          else 0) + CountRead(files[1..], path, kind)
  }

  /** One summary has this many lines of each kind more than another, under one path or under none. */
  ghost predicate More(t': Tally, t: Tally, path: Option<string>, adds: nat, dels: nat) {
    forall p ::
      && Counted(t', p, Add) == Counted(t, p, Add) + (if path == Some(p) then adds else 0)
      && Counted(t', p, Del) == Counted(t, p, Del) + (if path == Some(p) then dels else 0)
  }

  lemma CountOne(t: Tally, path: string, kind: Kind)
    requires path in t.byPath && kind != Meta
    ensures More(Count(t, path, kind), t, Some(path), if kind == Add then 1 else 0, if kind == Del then 1 else 0)
    ensures path in Count(t, path, kind).byPath
  {}

  lemma {:induction false} LinesUnderPath(t: Tally, path: string, d: seq<DiffLine>, rest: seq<DiffLine>)
    returns (t': Tally)
    requires path in t.byPath && CountKind(d, Meta) == 0
    ensures ScanLines(t, Some(path), d + rest) == ScanLines(t', Some(path), rest)
    ensures More(t', t, Some(path), CountKind(d, Add), CountKind(d, Del))
    decreases |d|
  {
    if d == [] {
      assert d + rest == rest;
      t' := t;
    } else {
      assert (d + rest)[1..] == d[1..] + rest;
      CountOne(t, path, d[0].kind);
      t' := LinesUnderPath(Count(t, path, d[0].kind), path, d[1..], rest);
    }
  }

  /** Lines under no header are not counted. */
  lemma {:induction false} SkipLines(t: Tally, d: seq<DiffLine>, rest: seq<DiffLine>)
    requires CountKind(d, Meta) == 0
    ensures ScanLines(t, None, d + rest) == ScanLines(t, None, rest)
    decreases |d|
  {
    if d == [] {
      assert d + rest == rest;
    } else {
      assert (d + rest)[0] == d[0] && (d + rest)[1..] == d[1..] + rest;
      SkipLines(t, d[1..], rest);
    }
  }

  /** Reading a file's header, whichever file it reads as. */
  lemma ScanHeader(t: Tally, at: Option<string>, f: FileDiff, lines: seq<DiffLine>) returns (t': Tally)
    ensures ScanLines(t, at, [DiffLine(Meta, Header(f))] + lines) == ScanLines(t', HeaderPath(Header(f)), lines)
    ensures HeaderPath(Header(f)).Some? ==> HeaderPath(Header(f)).value in t'.byPath
    ensures More(t', t, None, 0, 0)
  {
    var whole := [DiffLine(Meta, Header(f))] + lines;
    assert whole[0] == DiffLine(Meta, Header(f)) && whole[1..] == lines;
    t' := if HeaderPath(Header(f)).Some? then Touch(t, HeaderPath(Header(f)).value) else t;
  }

  /** A change too large to show contributes nothing, and ends the file. */
  lemma ScanTooLarge(t: Tally, at: Option<string>, f: FileDiff, rest: seq<DiffLine>)
    requires TooLarge(f.before, f.after)
    ensures ScanLines(t, at, FileDiffLines(f.before, f.after) + rest) == ScanLines(t, None, rest)
    ensures CountKind(FileDiffLines(f.before, f.after), Add) == CountKind(FileDiffLines(f.before, f.after), Del) == 0
  {
    var d := FileDiffLines(f.before, f.after);
    NoteIsNoHeader(|LinesOf(f.before)|, |LinesOf(f.after)|);
    assert (d + rest)[1..] == rest && (d + rest)[0] == d[0];
    assert d[1..] == [];
  }

  /** A file's lines, under whatever its header read as. */
  lemma CountOfBody(t: Tally, at: Option<string>, f: FileDiff, rest: seq<DiffLine>)
    returns (t': Tally, at': Option<string>)
    requires at.Some? ==> at.value in t.byPath
    ensures var d := FileDiffLines(f.before, f.after);
      && ScanLines(t, at, d + rest) == ScanLines(t', at', rest)
      && More(t', t, at, CountKind(d, Add), CountKind(d, Del))
  {
    var d := FileDiffLines(f.before, f.after);
    if TooLarge(f.before, f.after) {
      ScanTooLarge(t, at, f, rest);
      t', at' := t, None;
    } else {
      NetLines(f.before, f.after);
      at' := at;
      if at.Some? {
        t' := LinesUnderPath(t, at.value, d, rest);
      } else {
        SkipLines(t, d, rest);
        t' := t;
      }
    }
  }

  /** One file's header and lines, whatever follows them. */
  lemma CountOfFile(t: Tally, at: Option<string>, f: FileDiff, rest: seq<DiffLine>)
    returns (t': Tally, at': Option<string>)
    ensures ScanLines(t, at, DiffLinesFor([f]) + rest) == ScanLines(t', at', rest)
    ensures var d := FileDiffLines(f.before, f.after);
      More(t', t, HeaderPath(Header(f)), CountKind(d, Add), CountKind(d, Del))
  {
    OneFileLines(f, rest);
    var headed := ScanHeader(t, at, f, FileDiffLines(f.before, f.after) + rest);
    t', at' := CountOfBody(headed, HeaderPath(Header(f)), f, rest);
  }

  lemma OneFileLines(f: FileDiff, rest: seq<DiffLine>)
    ensures DiffLinesFor([f]) + rest == [DiffLine(Meta, Header(f))] + (FileDiffLines(f.before, f.after) + rest)
  {
    assert [f][1..] == [];
    assert DiffLinesFor([f]) == [DiffLine(Meta, Header(f))] + FileDiffLines(f.before, f.after);
  }

  lemma FirstFile(files: seq<FileDiff>)
    requires files != []
    ensures DiffLinesFor(files) == DiffLinesFor([files[0]]) + DiffLinesFor(files[1..])
  {
    var f, d := files[0], FileDiffLines(files[0].before, files[0].after);
    assert [f][1..] == [];
    assert DiffLinesFor([f]) == [DiffLine(Meta, Header(f))] + d;
  }

  lemma {:induction false} CountOfTool(t: Tally, at: Option<string>, files: seq<FileDiff>, path: string, kind: Kind)
    requires kind == Add || kind == Del
    ensures Counted(ScanLines(t, at, DiffLinesFor(files)), path, kind) ==
        Counted(t, path, kind) + CountRead(files, path, kind)
    decreases |files|
  {
    if files != [] {
      FirstFile(files);
      var t', at' := CountOfFile(t, at, files[0], DiffLinesFor(files[1..]));
      CountOfTool(t', at', files[1..], path, kind);
    }
  }

  lemma {:induction false} DecimalStartsWithDigit(n: nat)
    ensures Decimal(n) != [] && Decimal(n)[0] in DIGITS
  {
    if n >= 10 {
      DecimalStartsWithDigit(n / 10);
    }
  }

  lemma NoteIsNoHeader(a: nat, b: nat)
    ensures HeaderPath(TooLargeNote(a, b)).None?
  {
    DecimalStartsWithDigit(a);
    assert TooLargeNote(a, b)[0] == Decimal(a)[0];
    assert '+' !in DIGITS && '-' !in DIGITS;
  }

  /** A thread whose tool calls made the given file changes, as the thread shows them. */
  function Shown(history: seq<seq<seq<FileDiff>>>): seq<Message> {
    if history == [] then [] else [ShownTools(history[0])] + Shown(history[1..])
  }

  function ShownTools(tools: seq<seq<FileDiff>>): Message {
    if tools == [] then []
    else [if tools[0] == [] then None else Some(DiffLinesFor(tools[0]))] + ShownTools(tools[1..])
  }

  function Flatten<T>(xs: seq<seq<T>>): seq<T> {
    if xs == [] then [] else xs[0] + Flatten(xs[1..])
  }

  lemma {:induction false} CountReadConcat(a: seq<FileDiff>, b: seq<FileDiff>, path: string, kind: Kind)
    ensures CountRead(a + b, path, kind) == CountRead(a, path, kind) + CountRead(b, path, kind)
  {
    if a == [] {
      assert a + b == b;
    } else {
      assert (a + b)[1..] == a[1..] + b;
      CountReadConcat(a[1..], b, path, kind);
    }
  }

  lemma {:induction false} CountOfTools(t: Tally, tools: seq<seq<FileDiff>>, path: string, kind: Kind)
    requires kind == Add || kind == Del
    ensures Counted(ScanTools(t, ShownTools(tools)), path, kind) ==
            Counted(t, path, kind) + CountRead(Flatten(tools), path, kind)
    decreases |tools|
  {
    if tools != [] {
      var shown := ShownTools(tools);
      assert shown[1..] == ShownTools(tools[1..]);
      assert Flatten(tools) == tools[0] + Flatten(tools[1..]);
      CountOfTool(t, None, tools[0], path, kind);
      CountOfTools(if tools[0] == [] then t else ScanLines(t, None, DiffLinesFor(tools[0])), tools[1..], path, kind);
      CountReadConcat(tools[0], Flatten(tools[1..]), path, kind);
    }
  }

  /**
   * For every thread: a path's adds are the added lines, and its dels the deleted ones, of the
   * changes whose headers read as that path, however they are spread over files, tool calls and
   * messages.
   */
  lemma {:induction false} CountsOfThread(t: Tally, history: seq<seq<seq<FileDiff>>>, path: string, kind: Kind)
    requires kind == Add || kind == Del
    ensures Counted(ScanMessages(t, Shown(history)), path, kind) ==
            Counted(t, path, kind) + CountRead(Flatten(Flatten(history)), path, kind)
    decreases |history|
  {
    if history != [] {
      var shown := Shown(history);
      assert shown[1..] == Shown(history[1..]);
      FlattenConcat(history[0], Flatten(history[1..]));
      CountOfTools(t, history[0], path, kind);
      CountsOfThread(ScanTools(t, ShownTools(history[0])), history[1..], path, kind);
      CountReadConcat(Flatten(history[0]), Flatten(Flatten(history[1..])), path, kind);
    }
  }

  /** No other way of showing a change that is diffed line by line counts fewer lines. */
  lemma FewestLinesCounted(f: FileDiff, path: string, other: seq<DiffLine>)
    requires !TooLarge(f.before, f.after) && HeaderPath(Header(f)) == Some(path)
    requires EditScript(other, LinesOf(f.before), LinesOf(f.after))
    ensures var t := ScanMessages(EMPTY, Shown([[[f]]]));
      Counted(t, path, Add) + Counted(t, path, Del) <= CountKind(other, Add) + CountKind(other, Del)
  {
    OneInThread(f);
    CountsOfThread(EMPTY, [[[f]]], path, Add);
    CountsOfThread(EMPTY, [[[f]]], path, Del);
    DiffRebuildsBothFiles(f.before, f.after);
    assert [f][1..] == [];
  }

  lemma {:induction false} NetIsAddsMinusDels(files: seq<FileDiff>, path: string)
    ensures NetRead(files, path) == CountRead(files, path, Add) - CountRead(files, path, Del)
  {
    if files != [] {
      var f := files[0];
      if TooLarge(f.before, f.after) { ScanTooLarge(EMPTY, None, f, []); } else { NetLines(f.before, f.after); }
      NetIsAddsMinusDels(files[1..], path);
    }
  }

  /**
   * Conservation, for every thread: a path's adds minus dels are the lines added by the changes
   * whose headers read as that path, however they are spread over files, tool calls and messages.
   */
  lemma NetOfThread(t: Tally, history: seq<seq<seq<FileDiff>>>, path: string)
    ensures Net(ScanMessages(t, Shown(history)), path) == Net(t, path) + NetRead(Flatten(Flatten(history)), path)
  {
    CountsOfThread(t, history, path, Add);
    CountsOfThread(t, history, path, Del);
    NetIsAddsMinusDels(Flatten(Flatten(history)), path);
  }

  // ----- The paths listed -----

  /** The paths the headers of a thread's diffs read as, in order, with repetitions. */
  function PathsInLines(lines: seq<DiffLine>): seq<string> {
    if lines == [] then []
    else (if lines[0].kind == Meta && HeaderPath(lines[0].text).Some? then [HeaderPath(lines[0].text).value] else [])
         + PathsInLines(lines[1..])
  }

  function PathsInTools(tools: Message): seq<string> {
    if tools == [] then []
    else (if tools[0].Some? then PathsInLines(tools[0].value) else []) + PathsInTools(tools[1..])
  }

  function PathsRead(msgs: seq<Message>): seq<string> {
    if msgs == [] then [] else PathsInTools(msgs[0]) + PathsRead(msgs[1..])
  }

  /** Where a path is read first. */
  function FirstAt(path: string, paths: seq<string>): (i: nat)
    requires path in paths
    ensures i < |paths| && paths[i] == path && path !in paths[..i]
  {
    if paths[0] == path then 0 else 1 + FirstAt(path, paths[1..])
  }

  /** `listed` has each path of `paths` once, by where it comes first. */
  ghost predicate ByAppearance(listed: seq<string>, paths: seq<string>) {
    && (forall p :: p in listed <==> p in paths)
    && (forall i, j :: 0 <= i < j < |listed| ==> FirstAt(listed[i], paths) < FirstAt(listed[j], paths))
  }

  lemma FirstAtStays(path: string, paths: seq<string>, more: seq<string>)
    requires path in paths
    ensures FirstAt(path, paths + more) == FirstAt(path, paths)
    decreases |paths|
  {
    if paths[0] != path {
      assert (paths + more)[1..] == paths[1..] + more;
      FirstAtStays(path, paths[1..], more);
    }
  }

  lemma ListOne(listed: seq<string>, paths: seq<string>, path: string)
    requires ByAppearance(listed, paths)
    ensures ByAppearance(if path in paths then listed else listed + [path], paths + [path])
  {
    var longer := if path in paths then listed else listed + [path];
    forall p | p in paths ensures FirstAt(p, paths + [path]) == FirstAt(p, paths) { FirstAtStays(p, paths, [path]); }
    if path !in paths {
      assert (paths + [path])[|paths|] == path;
      assert FirstAt(path, paths + [path]) == |paths| by {
        assert forall k :: 0 <= k < |paths| ==> (paths + [path])[k] != path;
      }
    }
    forall i, j | 0 <= i < j < |longer|
      ensures FirstAt(longer[i], paths + [path]) < FirstAt(longer[j], paths + [path])
    {
      assert longer[i] == listed[i] && longer[i] in paths;
      if j < |listed| { assert longer[j] == listed[j] && longer[j] in paths; }
    }
  }

  ghost predicate Lists(t: Tally, paths: seq<string>) { Ordered(t) && ByAppearance(t.order, paths) }

  lemma TouchLists(t: Tally, paths: seq<string>, path: string)
    requires Lists(t, paths)
    ensures Lists(Touch(t, path), paths + [path])
  {
    ListOne(t.order, paths, path);
  }

  lemma {:induction false} LinesList(t: Tally, at: Option<string>, lines: seq<DiffLine>, paths: seq<string>)
    requires Lists(t, paths)
    ensures Lists(ScanLines(t, at, lines), paths + PathsInLines(lines))
    decreases |lines|
  {
    if lines == [] {
      assert paths + [] == paths;
    } else if lines[0].kind == Meta {
      var p := HeaderPath(lines[0].text);
      if p.Some? {
        TouchLists(t, paths, p.value);
        LinesList(Touch(t, p.value), p, lines[1..], paths + [p.value]);
        Regroup(paths, [p.value], PathsInLines(lines[1..]));
      } else {
        LinesList(t, p, lines[1..], paths);
        assert [] + PathsInLines(lines[1..]) == PathsInLines(lines[1..]);
      }
    } else {
      LinesList(if at.None? then t else Count(t, at.value, lines[0].kind), at, lines[1..], paths);
      assert [] + PathsInLines(lines[1..]) == PathsInLines(lines[1..]);
    }
  }

  lemma {:induction false} ToolsList(t: Tally, tools: Message, paths: seq<string>)
    requires Lists(t, paths)
    ensures Lists(ScanTools(t, tools), paths + PathsInTools(tools))
    decreases |tools|
  {
    if tools == [] {
      assert paths + [] == paths;
    } else {
      var here := if tools[0].Some? then PathsInLines(tools[0].value) else [];
      if tools[0].Some? { LinesList(t, None, tools[0].value, paths); } else { assert paths + [] == paths; }
      ToolsList(if tools[0].Some? then ScanLines(t, None, tools[0].value) else t, tools[1..], paths + here);
      Regroup(paths, here, PathsInTools(tools[1..]));
    }
  }

  lemma {:induction false} MessagesList(t: Tally, msgs: seq<Message>, paths: seq<string>)
    requires Lists(t, paths)
    ensures Lists(ScanMessages(t, msgs), paths + PathsRead(msgs))
    decreases |msgs|
  {
    if msgs == [] {
      assert paths + [] == paths;
    } else {
      ToolsList(t, msgs[0], paths);
      MessagesList(ScanTools(t, msgs[0]), msgs[1..], paths + PathsInTools(msgs[0]));
      Regroup(paths, PathsInTools(msgs[0]), PathsRead(msgs[1..]));
    }
  }

  /** The paths listed, for every thread: each path some header reads as, once, in the order they are first read. */
  lemma PathsByAppearance(msgs: seq<Message>)
    ensures ByAppearance(ScanMessages(EMPTY, msgs).order, PathsRead(msgs))
  {
    MessagesList(EMPTY, msgs, []);
    assert [] + PathsRead(msgs) == PathsRead(msgs);
  }

  /**
   * So what is read as another file is counted as it: the lines of an edited file whose name ends
   * in the new-file mark are under the name without the mark, and none are under its own.
   */
  lemma MarkedNameIsCountedShort(path: string, before: string, after: Option<string>)
    requires path != [] && OneLine(path)
    ensures var f := FileDiff(path + NEW_FILE, Some(before), after);
      var t := ScanMessages(EMPTY, Shown([[[f]]]));
      Net(t, path) == LinesAdded(f) && Net(t, path + NEW_FILE) == 0
  {
    var f := FileDiff(path + NEW_FILE, Some(before), after);
    MarkedNameIsCut(path, before, after);
    OneInThread(f);
    NetOfThread(EMPTY, [[[f]]], path);
    NetOfThread(EMPTY, [[[f]]], path + NEW_FILE);
    assert [f][1..] == [] && |path + NEW_FILE| > |path|;
  }

  lemma OneInThread(f: FileDiff)
    ensures Flatten(Flatten([[[f]]])) == [f]
  {
    assert [[[f]]][1..] == [] && [[f]][1..] == [];
    assert Flatten([[[f]]]) == [[f]] + [] == [[f]];
    assert Flatten([[f]]) == [f] + [] == [f];
  }

  lemma {:induction false} FlattenConcat<T>(a: seq<seq<T>>, b: seq<seq<T>>)
    ensures Flatten(a + b) == Flatten(a) + Flatten(b)
  {
    if a == [] {
      assert a + b == b;
    } else {
      assert (a + b)[1..] == a[1..] + b;
      FlattenConcat(a[1..], b);
    }
  }

  // ----- Chains of versions -----

  /** The changes to `path`, each starting from the version the one before it left, and all diffed line by line. */
  ghost predicate Chain(files: seq<FileDiff>, path: string, from: Option<string>) {
    if files == [] then true
    else if files[0].path != path then Chain(files[1..], path, from)
    else files[0].before == from && !TooLarge(from, files[0].after) && Chain(files[1..], path, files[0].after)
  }

  function LastVersion(files: seq<FileDiff>, path: string, from: Option<string>): Option<string> {
    if files == [] then from
    else LastVersion(files[1..], path, if files[0].path == path then files[0].after else from)
  }

  lemma {:induction false} ChainTelescopes(files: seq<FileDiff>, path: string, from: Option<string>)
    requires Chain(files, path, from)
    ensures NetChange(files, path) == |LinesOf(LastVersion(files, path, from))| - |LinesOf(from)|
  {
    if files != [] {
      ChainTelescopes(files[1..], path, if files[0].path == path then files[0].after else from);
    }
  }

  /**
   * Over any chain of versions of a path, interleaved with any other changes and spread over any
   * tool calls and messages, the summary's adds minus dels is last line count minus first, as long
   * as exactly the headers of that path's own changes read as it.
   */
  lemma SummaryTelescopes(history: seq<seq<seq<FileDiff>>>, path: string, first: Option<string>)
    requires var files := Flatten(Flatten(history));
      Chain(files, path, first) && forall i :: 0 <= i < |files| ==> Tells(files[i], path)
    ensures Net(ScanMessages(EMPTY, Shown(history)), path) ==
            |LinesOf(LastVersion(Flatten(Flatten(history)), path, first))| - |LinesOf(first)|
  {
    NetOfThread(EMPTY, history, path);
    ReadAsNamed(Flatten(Flatten(history)), path);
    ChainTelescopes(Flatten(Flatten(history)), path, first);
  }
}
