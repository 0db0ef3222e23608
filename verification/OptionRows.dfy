/**
 * The editor for a model's additional command-line options (apps/mobile/lib/extraOptions.ts):
 * which rows pass against the options a build has, what a save sends, and which row a refusal of
 * the server's is shown on.
 */
module OptionRows {
  import opened Prelude

  datatype Row = Row(key: string, value: string)

  /** An option the build lists; `reserved` says why it cannot be set here, and is empty when it can. */
  datatype OptionInfo = OptionInfo(names: seq<string>, takesValue: bool, reserved: string)

  datatype Problem =
    | NoName
    | BadName(key: string)
    | UnknownOption(key: string)
    | ReservedOption(key: string, why: string)
    | SetTwice(key: string)
    | SameOption(key: string, earlier: string)
    | ManyLines
    | NotASwitch(key: string)
    | NeedsValue(key: string)
    | Refused(message: string)

  function WithoutDashes(s: string): (r: string)
    ensures r == [] || r[0] != '-'
  {
    if s != [] && s[0] == '-' then WithoutDashes(s[1..]) else s
  }

  function CleanKey(raw: string): string { WithoutDashes(Trim(raw)) }

  predicate IsAlnum(c: char) { 'A' <= c <= 'Z' || 'a' <= c <= 'z' || '0' <= c <= '9' }

  predicate KeyChar(c: char) { IsAlnum(c) || c == '.' || c == '_' || c == '-' }

  /** A letter or digit, then up to 63 letters, digits, dots, underscores and dashes. */
  predicate IsKey(s: string) {
    1 <= |s| <= 64 && IsAlnum(s[0]) && forall i :: 0 <= i < |s| ==> KeyChar(s[i])
  }

  predicate Blank(row: Row) { Trim(row.key) == "" && Trim(row.value) == "" }

  type Options = Option<seq<OptionInfo>>

  /** The first option one of whose names is `name`. */
  function FirstNamed(name: string, options: seq<OptionInfo>): (r: Option<nat>)
    ensures r.Some? ==> r.value < |options| && name in options[r.value].names
                        && forall i :: 0 <= i < r.value ==> name !in options[i].names
    ensures r.None? ==> forall i :: 0 <= i < |options| ==> name !in options[i].names
  {
    if options == [] then None
    else if name in options[0].names then Some(0)
    else
      var later := FirstNamed(name, options[1..]);
      if later.None? then None else Some(later.value + 1)
  }

  /** The option a key names, as its place in the list: the rows are judged by which option it is. */
  function OptionFor(key: string, options: Options): (r: Option<nat>)
    ensures r.Some? ==> options.Some? && r.value < |options.value|
  {
    var name := CleanKey(key);
    if name == "" || options.None? then None else FirstNamed(name, options.value)
  }

  // ----- Judging the rows -----

  /** What has been seen above a row: each option's key, and the stored rows of unknown options. */
  datatype Seen = Seen(options: map<nat, string>, unknown: set<string>)

  const NOTHING_SEEN := Seen(map[], {})

  predicate KeptAsIs(row: Row, kept: seq<Row>) {
    exists k :: k in kept && k.key == CleanKey(row.key) && k.value == Trim(row.value)
  }

  function LowerChar(c: char): char { if 'A' <= c <= 'Z' then (c as int + 32) as char else c }

  predicate SaysSwitch(value: string) {
    (|value| == 4 && forall i :: 0 <= i < 4 ==> LowerChar(value[i]) == "true"[i]) ||
    (|value| == 5 && forall i :: 0 <= i < 5 ==> LowerChar(value[i]) == "false"[i])
  }

  /** What is wrong with an option's value. */
  function ValueProblem(row: Row, option: OptionInfo): Option<Problem> {
    if '\r' in row.value || '\n' in row.value then Some(ManyLines)
    else if !option.takesValue then
      if SaysSwitch(Trim(row.value)) then None else Some(NotASwitch(CleanKey(row.key)))
    else if Trim(row.value) == "" then Some(NeedsValue(CleanKey(row.key)))
    else None
  }

  /** What a row comes to on its own: settled, a stored row of an unknown option, or a value for an option. */
  datatype Kind =
    | Settled(problem: Option<Problem>)
    | Keeps(key: string)
    | Sets(option: nat, named: string, valueProblem: Option<Problem>)

  function Classify(row: Row, options: Options, kept: seq<Row>): Kind {
    var key := CleanKey(row.key);
    if Blank(row) then Settled(None)
    else if key == "" then Settled(Some(NoName))
    else if !IsKey(key) then Settled(Some(BadName(key)))
    else if options.None? then Settled(None)
    else
      match OptionFor(key, options)
      case None => if KeptAsIs(row, kept) then Keeps(key) else Settled(Some(UnknownOption(key)))
      case Some(o) =>
        if options.value[o].reserved != "" then Settled(Some(ReservedOption(key, options.value[o].reserved)))
        else Sets(o, key, ValueProblem(row, options.value[o]))
  }

  /** Against the rows above: an option is set once, and an unknown one kept once. */
  function Judge(kind: Kind, seen: Seen): (Option<Problem>, Seen) {
    match kind
    case Settled(problem) => (problem, seen)
    case Keeps(key) =>
      if key in seen.unknown then (Some(UnknownOption(key)), seen) else (None, seen.(unknown := seen.unknown + {key}))
    case Sets(o, key, problem) =>
      if o in seen.options then
        (Some(if seen.options[o] == key then SetTwice(key) else SameOption(key, seen.options[o])), seen)
      else (problem, seen.(options := seen.options[o := key]))
  }

  function Kinds(rows: seq<Row>, options: Options, kept: seq<Row>): (r: seq<Kind>)
    ensures |r| == |rows|
    ensures forall i :: 0 <= i < |r| ==> r[i] == Classify(rows[i], options, kept)
  {
    seq(|rows|, i requires 0 <= i < |rows| => Classify(rows[i], options, kept))
  }

  /** The problems of the rows from `i` on. */
  function JudgeFrom(kinds: seq<Kind>, i: nat, seen: Seen): (r: seq<Option<Problem>>)
    requires i <= |kinds|
    ensures |r| == |kinds| - i
    decreases |kinds| - i
  {
    if i == |kinds| then []
    else
      var (problem, after) := Judge(kinds[i], seen);
      [problem] + JudgeFrom(kinds, i + 1, after)
  }

  function Problems(rows: seq<Row>, options: Options, kept: seq<Row>): (r: seq<Option<Problem>>)
    ensures |r| == |rows|
  {
    JudgeFrom(Kinds(rows, options, kept), 0, NOTHING_SEEN)
  }

  method RowProblems(rows: seq<Row>, options: Options, kept: seq<Row>) returns (problems: seq<Option<Problem>>)
    ensures problems == Problems(rows, options, kept)
  {
    problems := [];
    var seenOptions: map<nat, string>, seenUnknown: set<string> := map[], {};
    ghost var kinds := Kinds(rows, options, kept);
    for i := 0 to |rows|
      invariant problems + JudgeFrom(kinds, i, Seen(seenOptions, seenUnknown)) == JudgeFrom(kinds, 0, NOTHING_SEEN)
    {
      var kind := Classify(rows[i], options, kept);
      assert kind == kinds[i];
      var (problem, after) := Judge(kind, Seen(seenOptions, seenUnknown));
      Regroup(problems, [problem], JudgeFrom(kinds, i + 1, after));
      problems := problems + [problem];
      seenOptions, seenUnknown := after.options, after.unknown;
    }
  }

  // ----- What has been seen -----

  ghost predicate SetBefore(kinds: seq<Kind>, n: nat, o: nat)
    requires n <= |kinds|
  {
    exists j :: 0 <= j < n && kinds[j].Sets? && kinds[j].option == o
  }

  ghost predicate KeptBefore(kinds: seq<Kind>, n: nat, key: string)
    requires n <= |kinds|
  {
    exists j :: 0 <= j < n && kinds[j].Keeps? && kinds[j].key == key
  }

  lemma SetBeforeStep(kinds: seq<Kind>, n: nat, o: nat)
    requires n < |kinds|
    ensures SetBefore(kinds, n + 1, o) <==> SetBefore(kinds, n, o) || (kinds[n].Sets? && kinds[n].option == o)
  {
    if SetBefore(kinds, n, o) {
      var j :| 0 <= j < n && kinds[j].Sets? && kinds[j].option == o;
      assert j < n + 1;
    }
  }

  lemma KeptBeforeStep(kinds: seq<Kind>, n: nat, key: string)
    requires n < |kinds|
    ensures KeptBefore(kinds, n + 1, key) <==> KeptBefore(kinds, n, key) || (kinds[n].Keeps? && kinds[n].key == key)
  {
    if KeptBefore(kinds, n, key) {
      var j :| 0 <= j < n && kinds[j].Keeps? && kinds[j].key == key;
      assert j < n + 1;
    }
  }

  /** Row `j` is the first to set its option. */
  ghost predicate FirstToSet(kinds: seq<Kind>, j: nat)
    requires j < |kinds|
  {
    kinds[j].Sets? && !SetBefore(kinds, j, kinds[j].option)
  }

  /** The options seen are those the rows above set, each under the key that set it first. */
  ghost predicate OptionsSeen(kinds: seq<Kind>, n: nat, options: map<nat, string>)
    requires n <= |kinds|
  {
    && (forall o :: o in options <==> SetBefore(kinds, n, o))
    && (forall j :: 0 <= j < n && FirstToSet(kinds, j) ==>
          kinds[j].option in options && options[kinds[j].option] == kinds[j].named)
  }

  ghost predicate UnknownSeen(kinds: seq<Kind>, n: nat, unknown: set<string>)
    requires n <= |kinds|
  {
    forall key :: key in unknown <==> KeptBefore(kinds, n, key)
  }

  /** What is seen when a row is judged is exactly what the rows above it set and keep. */
  ghost predicate SeenSoFar(kinds: seq<Kind>, n: nat, seen: Seen)
    requires n <= |kinds|
  {
    OptionsSeen(kinds, n, seen.options) && UnknownSeen(kinds, n, seen.unknown)
  }

  lemma SeesOption(kinds: seq<Kind>, n: nat, options: map<nat, string>)
    requires n < |kinds| && OptionsSeen(kinds, n, options)
    ensures OptionsSeen(kinds, n + 1, if kinds[n].Sets? && kinds[n].option !in options
                                      then options[kinds[n].option := kinds[n].named] else options)
  {
    forall o
      ensures SetBefore(kinds, n + 1, o) <==> SetBefore(kinds, n, o) || (kinds[n].Sets? && kinds[n].option == o)
    {
      SetBeforeStep(kinds, n, o);
    }
  }

  lemma SeesUnknown(kinds: seq<Kind>, n: nat, unknown: set<string>)
    requires n < |kinds| && UnknownSeen(kinds, n, unknown)
    ensures UnknownSeen(kinds, n + 1, unknown + if kinds[n].Keeps? then {kinds[n].key} else {})
  {
    forall key
      ensures KeptBefore(kinds, n + 1, key) <==> KeptBefore(kinds, n, key) || (kinds[n].Keeps? && kinds[n].key == key)
    {
      KeptBeforeStep(kinds, n, key);
    }
  }

  lemma JudgeSees(kinds: seq<Kind>, n: nat, seen: Seen, after: Seen)
    requires n < |kinds| && SeenSoFar(kinds, n, seen) && after == Judge(kinds[n], seen).1
    ensures SeenSoFar(kinds, n + 1, after)
  {
    SeesOption(kinds, n, seen.options);
    SeesUnknown(kinds, n, seen.unknown);
    assert after.unknown == seen.unknown + if kinds[n].Keeps? then {kinds[n].key} else {};
  }

  /** What has been seen when row `n` is judged. */
  function SeenBefore(kinds: seq<Kind>, n: nat): Seen
    requires n <= |kinds|
  {
    if n == 0 then NOTHING_SEEN else Judge(kinds[n - 1], SeenBefore(kinds, n - 1)).1
  }

  lemma {:induction false} SeenBeforeIs(kinds: seq<Kind>, n: nat)
    requires n <= |kinds|
    ensures SeenSoFar(kinds, n, SeenBefore(kinds, n))
  {
    if n == 0 {
      NothingSeenAtFirst(kinds);
    } else {
      var seen := SeenBefore(kinds, n - 1);
      SeenBeforeIs(kinds, n - 1);
      JudgeSees(kinds, n - 1, seen, SeenBefore(kinds, n));
    }
  }

  lemma NothingSeenAtFirst(kinds: seq<Kind>)
    ensures SeenSoFar(kinds, 0, NOTHING_SEEN)
  {}

  /** Row `i` is judged against what has been seen before it. */
  lemma {:induction false} JudgedWithSeen(kinds: seq<Kind>, from: nat, i: nat)
    requires from <= i < |kinds|
    ensures JudgeFrom(kinds, from, SeenBefore(kinds, from))[i - from] == Judge(kinds[i], SeenBefore(kinds, i)).0
    decreases i - from
  {
    if from < i { JudgedWithSeen(kinds, from + 1, i); }
  }

  // ----- What makes a row acceptable -----

  /** The option a row gives a value to, when its key is one and the option may be set. */
  function OptionSet(row: Row, options: Options): Option<nat> {
    if Blank(row) || !IsKey(CleanKey(row.key)) || OptionFor(CleanKey(row.key), options).None? then None
    else
      var o := OptionFor(CleanKey(row.key), options);
      if options.value[o.value].reserved != "" then None else o
  }

  /** A stored row of an option this build does not know, left as it was. */
  predicate KeepsUnknown(row: Row, options: Options, kept: seq<Row>) {
    && !Blank(row) && IsKey(CleanKey(row.key)) && options.Some?
    && OptionFor(CleanKey(row.key), options).None? && KeptAsIs(row, kept)
  }

  /** A row on its own and against those above it, said without any running state. */
  predicate Fine(rows: seq<Row>, i: nat, options: Options, kept: seq<Row>)
    requires i < |rows|
  {
    var row := rows[i];
    || Blank(row)
    || (IsKey(CleanKey(row.key)) &&
        (|| options.None?
         || (KeepsUnknown(row, options, kept) &&
             forall j :: 0 <= j < i && KeepsUnknown(rows[j], options, kept) ==>
                 CleanKey(rows[j].key) != CleanKey(row.key))
         || (OptionSet(row, options).Some? && ValueProblem(row, options.value[OptionSet(row, options).value]).None? &&
             forall j :: 0 <= j < i ==> OptionSet(rows[j], options) != OptionSet(row, options))))
  }

  lemma ClassifyIs(row: Row, options: Options, kept: seq<Row>)
    ensures var kind := Classify(row, options, kept);
      && (kind.Sets? <==> OptionSet(row, options).Some?)
      && (kind.Sets? ==> kind == Sets(OptionSet(row, options).value, CleanKey(row.key),
                                      ValueProblem(row, options.value[OptionSet(row, options).value])))
      && (kind.Keeps? <==> KeepsUnknown(row, options, kept))
      && (kind.Keeps? ==> kind.key == CleanKey(row.key))
      && (kind.Settled? && kind.problem.None? <==> Blank(row) || (IsKey(CleanKey(row.key)) && options.None?))
  {}

  /** A row's own problem aside, neither its option nor its unknown key is among those above. */
  ghost predicate Unopposed(kinds: seq<Kind>, i: nat)
    requires i < |kinds|
  {
    match kinds[i]
    case Settled(problem) => problem.None?
    case Keeps(key) => !KeptBefore(kinds, i, key)
    case Sets(o, _, problem) => problem.None? && !SetBefore(kinds, i, o)
  }

  lemma JudgedNone(kinds: seq<Kind>, i: nat)
    requires i < |kinds|
    ensures JudgeFrom(kinds, 0, NOTHING_SEEN)[i].None? <==> Unopposed(kinds, i)
  {
    SeenBeforeIs(kinds, i);
    JudgedWithSeen(kinds, 0, i);
    JudgedUnopposed(kinds, i, SeenBefore(kinds, i));
  }

  lemma JudgedUnopposed(kinds: seq<Kind>, i: nat, seen: Seen)
    requires i < |kinds| && SeenSoFar(kinds, i, seen)
    ensures Judge(kinds[i], seen).0.None? <==> Unopposed(kinds, i)
  {}

  lemma FineIs(rows: seq<Row>, i: nat, options: Options, kept: seq<Row>)
    requires i < |rows|
    ensures Fine(rows, i, options, kept) <==> Unopposed(Kinds(rows, options, kept), i)
  {
    var kinds := Kinds(rows, options, kept);
    forall j | 0 <= j <= i
      ensures kinds[j].Sets? <==> OptionSet(rows[j], options).Some?
      ensures kinds[j].Sets? ==> OptionSet(rows[j], options) == Some(kinds[j].option)
      ensures kinds[j].Keeps? <==> KeepsUnknown(rows[j], options, kept)
      ensures kinds[j].Keeps? ==> kinds[j].key == CleanKey(rows[j].key)
    {
      ClassifyIs(rows[j], options, kept);
    }
    ClassifyIs(rows[i], options, kept);
  }

  /**
   * Row by row: a row is passed exactly when it is blank, or its key is an option's name and,
   * with the options known, it either keeps a stored row of an unknown option that no row above
   * keeps, or gives a good value to an option that may be set and that no row above sets by any
   * of its names.
   */
  lemma RowIsPassedWhen(rows: seq<Row>, options: Options, kept: seq<Row>, i: nat)
    requires i < |rows|
    ensures Problems(rows, options, kept)[i].None? <==> Fine(rows, i, options, kept)
  {
    JudgedNone(Kinds(rows, options, kept), i);
    FineIs(rows, i, options, kept);
  }

  /**
   * A second row for an option is told of the first: that the same key is set twice, or, when
   * the option is named another way, which key named it above.
   */
  lemma RepeatNamesTheFirst(rows: seq<Row>, options: Options, kept: seq<Row>, first: nat, i: nat)
    requires first < i < |rows|
    requires var kinds := Kinds(rows, options, kept);
      FirstToSet(kinds, first) && kinds[i].Sets? && kinds[i].option == kinds[first].option
    ensures Problems(rows, options, kept)[i] ==
            Some(if CleanKey(rows[first].key) == CleanKey(rows[i].key) then SetTwice(CleanKey(rows[i].key))
                 else SameOption(CleanKey(rows[i].key), CleanKey(rows[first].key)))
  {
    NamedIs(rows[i], options, kept);
    NamedIs(rows[first], options, kept);
    RepeatByKinds(Kinds(rows, options, kept), first, i);
  }

  lemma RepeatByKinds(kinds: seq<Kind>, first: nat, i: nat)
    requires first < i < |kinds| && FirstToSet(kinds, first)
    requires kinds[i].Sets? && kinds[i].option == kinds[first].option
    ensures JudgeFrom(kinds, 0, NOTHING_SEEN)[i] ==
            Some(if kinds[first].named == kinds[i].named then SetTwice(kinds[i].named)
                 else SameOption(kinds[i].named, kinds[first].named))
  {
    SeenBeforeIs(kinds, i);
    JudgedWithSeen(kinds, 0, i);
    JudgedRepeat(kinds, first, i, SeenBefore(kinds, i));
  }

  lemma NamedIs(row: Row, options: Options, kept: seq<Row>)
    ensures Classify(row, options, kept).Sets? ==> Classify(row, options, kept).named == CleanKey(row.key)
  {}

  lemma JudgedRepeat(kinds: seq<Kind>, first: nat, i: nat, at: Seen)
    requires first < i < |kinds| && SeenSoFar(kinds, i, at) && FirstToSet(kinds, first)
    requires kinds[i].Sets? && kinds[i].option == kinds[first].option
    ensures var key, earlier := kinds[i].named, kinds[first].named;
      Judge(kinds[i], at).0 == Some(if earlier == key then SetTwice(key) else SameOption(key, earlier))
  {}

  // ----- Values and names, in themselves -----

  /** A value is good: on one line, and for a switch `true` or `false` in any case, for the rest not blank. */
  ghost predicate GoodValue(value: string, takesValue: bool) {
    && (forall i :: 0 <= i < |value| ==> value[i] != '\r' && value[i] != '\n')
    && if takesValue then !AllSpace(value) else exists before, v, after ::
         value == before + v + after && AllSpace(before) && AllSpace(after) && (IsTrue(v) || IsFalse(v))
  }

  predicate IsTrue(v: string) {
    |v| == 4 && v[0] in "tT" && v[1] in "rR" && v[2] in "uU" && v[3] in "eE"
  }

  predicate IsFalse(v: string) {
    |v| == 5 && v[0] in "fF" && v[1] in "aA" && v[2] in "lL" && v[3] in "sS" && v[4] in "eE"
  }

  lemma SwitchWords(v: string)
    ensures SaysSwitch(v) <==> IsTrue(v) || IsFalse(v)
  {
    assert "true"[0] == 't' && "true"[1] == 'r' && "true"[2] == 'u' && "true"[3] == 'e';
    assert "false"[0] == 'f' && "false"[1] == 'a' && "false"[2] == 'l' && "false"[3] == 's' && "false"[4] == 'e';
  }

  lemma {:induction false} TrimStartOf(before: string, v: string)
    requires AllSpace(before) && v != "" && !IsSpace(v[0])
    ensures TrimStart(before + v) == v
  {
    if before == "" {
      assert before + v == v;
    } else {
      assert (before + v)[1..] == before[1..] + v && (before + v)[0] == before[0];
      TrimStartOf(before[1..], v);
    }
  }

  lemma {:induction false} TrimEndOf(v: string, after: string)
    requires AllSpace(after) && v != "" && !IsSpace(v[|v| - 1])
    ensures TrimEnd(v + after) == v
  {
    if after == "" {
      assert v + after == v;
    } else {
      var n := |after| - 1;
      assert (v + after)[..|v + after| - 1] == v + after[..n] && (v + after)[|v + after| - 1] == after[n];
      TrimEndOf(v, after[..n]);
    }
  }

  /** White space around a word that has none at its ends trims to the word. */
  lemma TrimOf(before: string, v: string, after: string)
    requires AllSpace(before) && AllSpace(after) && v != "" && !IsSpace(v[0]) && !IsSpace(v[|v| - 1])
    ensures Trim(before + v + after) == v
  {
    assert before + v + after == before + (v + after);
    TrimStartOf(before, v + after);
    TrimEndOf(v, after);
  }

  lemma SwitchHasNoSpace(v: string)
    requires IsTrue(v) || IsFalse(v)
    ensures !IsSpace(v[0]) && !IsSpace(v[|v| - 1])
  {}

  /** No fault is found with a value exactly when it is good. */
  lemma ValueIsGoodExactlyWhen(row: Row, option: OptionInfo)
    ensures ValueProblem(row, option).None? <==> GoodValue(row.value, option.takesValue)
  {
    var value := row.value;
    assert ('\r' in value || '\n' in value) <==> exists i :: 0 <= i < |value| && (value[i] == '\r' || value[i] == '\n');
    TrimMeans(value);
    SwitchWords(Trim(value));
    if !option.takesValue {
      if v, before, after :|
        value == before + v + after && AllSpace(before) && AllSpace(after) && (IsTrue(v) || IsFalse(v)) {
        SwitchHasNoSpace(v);
        TrimOf(before, v, after);
      }
    }
  }

  /** The fault, when there is one: lines first, then what a switch or an option with a value asks. */
  lemma ValueProblemIs(row: Row, option: OptionInfo)
    ensures var p := ValueProblem(row, option);
      var broken := exists i :: 0 <= i < |row.value| && row.value[i] in "\r\n";
      && (p == Some(ManyLines) <==> broken)
      && (p == Some(NotASwitch(CleanKey(row.key))) <==>
           !broken && !option.takesValue && !GoodValue(row.value, false))
      && (p == Some(NeedsValue(CleanKey(row.key))) <==> !broken && option.takesValue && AllSpace(row.value))
  {
    ValueIsGoodExactlyWhen(row, option);
    TrimMeans(row.value);
    assert ('\r' in row.value || '\n' in row.value) <==> exists i :: 0 <= i < |row.value| && row.value[i] in "\r\n";
  }

  predicate AllDashes(s: string) { forall i :: 0 <= i < |s| ==> s[i] == '-' }

  lemma {:induction false} DashesMean(s: string) returns (dashes: string)
    ensures s == dashes + WithoutDashes(s) && AllDashes(dashes)
  {
    if s != [] && s[0] == '-' {
      var rest := DashesMean(s[1..]);
      dashes := [s[0]] + rest;
      assert s == [s[0]] + s[1..];
    } else {
      dashes := "";
    }
  }

  /** A clean key is the typed one without the white space around it and without the dashes it starts with. */
  lemma CleanKeyMeans(raw: string)
    ensures exists before, dashes, after ::
      && raw == before + (dashes + CleanKey(raw)) + after
      && AllSpace(before) && AllDashes(dashes) && AllSpace(after)
    ensures CleanKey(raw) != "" ==> CleanKey(raw)[0] != '-'
  {
    TrimMeans(raw);
    var before, after :| raw == before + Trim(raw) + after && AllSpace(before) && AllSpace(after);
    var dashes := DashesMean(Trim(raw));
    assert raw == before + (dashes + CleanKey(raw)) + after;
  }

  /** A name starts with a letter or digit, and grows by any key character until it has 64. */
  lemma KeysGrowTo64(key: string, c: char)
    ensures IsKey([c]) <==> IsAlnum(c)
    ensures IsKey(key) ==> (IsKey(key + [c]) <==> KeyChar(c) && |key| <= 63)
    ensures !IsKey(key) && key != "" ==> !IsKey(key + [c])
  {
    assert (key + [c])[|key|] == c && forall i :: 0 <= i < |key| ==> (key + [c])[i] == key[i];
  }

  // ----- Which problem -----

  /** A row above sets the option, the first to, under that key. */
  ghost predicate FirstSetsAs(rows: seq<Row>, i: nat, options: Options, o: nat, key: string) {
    exists j :: 0 <= j < i && j < |rows| && OptionSet(rows[j], options) == Some(o) && CleanKey(rows[j].key) == key
                && forall l :: 0 <= l < j ==> OptionSet(rows[l], options) != Some(o)
  }

  /** No row above sets the option this one sets. */
  predicate SetsFirst(rows: seq<Row>, i: nat, options: Options)
    requires i < |rows|
  {
    && OptionSet(rows[i], options).Some?
    && forall j :: 0 <= j < i ==> OptionSet(rows[j], options) != OptionSet(rows[i], options)
  }

  /** What is said of a row: by its name, its option, the rows above it, and then its value. */
  ghost predicate Says(rows: seq<Row>, i: nat, options: Options, kept: seq<Row>, p: Problem)
    requires i < |rows|
  {
    var row, key := rows[i], CleanKey(rows[i].key);
    !Blank(row) &&
    match p
    case NoName => key == ""
    case BadName(k) => k == key && key != "" && !IsKey(key)
    case UnknownOption(k) =>
      k == key && IsKey(key) && options.Some? && OptionFor(key, options).None? &&
      !(KeptAsIs(row, kept) && forall j :: 0 <= j < i && KeepsUnknown(rows[j], options, kept) ==>
            CleanKey(rows[j].key) != key)
    case ReservedOption(k, why) =>
      k == key && IsKey(key) && OptionFor(key, options).Some? && why != "" &&
      options.value[OptionFor(key, options).value].reserved == why
    case SetTwice(k) =>
      k == key && OptionSet(row, options).Some? && FirstSetsAs(rows, i, options, OptionSet(row, options).value, key)
    case SameOption(k, earlier) =>
      k == key && earlier != key && OptionSet(row, options).Some? &&
      FirstSetsAs(rows, i, options, OptionSet(row, options).value, earlier)
    case Refused(_) => false
    case _ => SetsFirst(rows, i, options) && ValueProblem(row, options.value[OptionSet(row, options).value]) == Some(p)
  }

  lemma FirstSetsIs(rows: seq<Row>, options: Options, kept: seq<Row>, i: nat, o: nat, key: string)
    requires i < |rows|
    ensures var kinds := Kinds(rows, options, kept);
      && (SetBefore(kinds, i, o) <==> exists j :: 0 <= j < i && OptionSet(rows[j], options) == Some(o))
      && (FirstSetsAs(rows, i, options, o, key) <==>
           exists j :: 0 <= j < i && FirstToSet(kinds, j) && kinds[j].option == o && kinds[j].named == key)
  {
    var kinds := Kinds(rows, options, kept);
    forall j | 0 <= j < i
      ensures kinds[j].Sets? && kinds[j].option == o <==> OptionSet(rows[j], options) == Some(o)
      ensures kinds[j].Sets? ==> kinds[j].named == CleanKey(rows[j].key)
    {
      ClassifyIs(rows[j], options, kept);
      NamedIs(rows[j], options, kept);
    }
    if FirstSetsAs(rows, i, options, o, key) {
      var j :| 0 <= j < i && OptionSet(rows[j], options) == Some(o) && CleanKey(rows[j].key) == key
               && forall l :: 0 <= l < j ==> OptionSet(rows[l], options) != Some(o);
      assert FirstToSet(kinds, j);
    }
    if j :| 0 <= j < i && FirstToSet(kinds, j) && kinds[j].option == o && kinds[j].named == key {
      assert OptionSet(rows[j], options) == Some(o);
      forall l | 0 <= l < j ensures OptionSet(rows[l], options) != Some(o) {
        assert !(kinds[l].Sets? && kinds[l].option == kinds[j].option);
      }
    }
  }

  lemma {:induction false} SomeFirst(kinds: seq<Kind>, n: nat, o: nat) returns (j: nat)
    requires n <= |kinds| && SetBefore(kinds, n, o)
    ensures j < n && FirstToSet(kinds, j) && kinds[j].option == o
  {
    j :| 0 <= j < n && kinds[j].Sets? && kinds[j].option == o;
    if SetBefore(kinds, j, o) { j := SomeFirst(kinds, j, o); }
  }

  lemma JudgedSays(kinds: seq<Kind>, i: nat, seen: Seen, o: nat, key: string, problem: Option<Problem>)
    requires i < |kinds| && SeenSoFar(kinds, i, seen) && kinds[i] == Sets(o, key, problem)
    ensures !SetBefore(kinds, i, o) ==> Judge(kinds[i], seen).0 == problem
    ensures forall j :: 0 <= j < i && FirstToSet(kinds, j) && kinds[j].option == o ==>
      Judge(kinds[i], seen).0 == Some(if kinds[j].named == key then SetTwice(key) else SameOption(key, kinds[j].named))
  {}

  /** A row's problem is exactly what is said of it. */
  lemma ProblemIsWhatIsSaid(rows: seq<Row>, options: Options, kept: seq<Row>, i: nat, p: Problem)
    requires i < |rows|
    ensures Problems(rows, options, kept)[i] == Some(p) <==> Says(rows, i, options, kept, p)
  {
    var kinds := Kinds(rows, options, kept);
    var seen := SeenBefore(kinds, i);
    SeenBeforeIs(kinds, i);
    JudgedWithSeen(kinds, 0, i);
    ClassifyIs(rows[i], options, kept);
    match kinds[i]
    case Settled(_) => SettledSays(rows, options, kept, i, p);
    case Keeps(key) => KeptSays(rows, options, kept, i, seen, p);
    case Sets(o, key, problem) => SetSays(rows, options, kept, i, seen, p);
  }

  lemma SettledSays(rows: seq<Row>, options: Options, kept: seq<Row>, i: nat, p: Problem)
    requires i < |rows| && Classify(rows[i], options, kept).Settled?
    ensures Classify(rows[i], options, kept).problem == Some(p) <==> Says(rows, i, options, kept, p)
  {
    ClassifyIs(rows[i], options, kept);
  }

  lemma KeptSays(rows: seq<Row>, options: Options, kept: seq<Row>, i: nat, seen: Seen, p: Problem)
    requires i < |rows| && Classify(rows[i], options, kept).Keeps? && SeenSoFar(Kinds(rows, options, kept), i, seen)
    ensures Judge(Classify(rows[i], options, kept), seen).0 == Some(p) <==> Says(rows, i, options, kept, p)
  {
    var kinds := Kinds(rows, options, kept);
    forall j | 0 <= j < i
      ensures kinds[j].Keeps? <==> KeepsUnknown(rows[j], options, kept)
      ensures kinds[j].Keeps? ==> kinds[j].key == CleanKey(rows[j].key)
    {
      ClassifyIs(rows[j], options, kept);
    }
    ClassifyIs(rows[i], options, kept);
    assert KeptBefore(kinds, i, kinds[i].key) <==> kinds[i].key in seen.unknown;
  }

  lemma SetSays(rows: seq<Row>, options: Options, kept: seq<Row>, i: nat, seen: Seen, p: Problem)
    requires i < |rows| && Classify(rows[i], options, kept).Sets? && SeenSoFar(Kinds(rows, options, kept), i, seen)
    ensures Judge(Classify(rows[i], options, kept), seen).0 == Some(p) <==> Says(rows, i, options, kept, p)
  {
    var kinds := Kinds(rows, options, kept);
    var o, key := kinds[i].option, kinds[i].named;
    ClassifyIs(rows[i], options, kept);
    NamedIs(rows[i], options, kept);
    JudgedSays(kinds, i, seen, o, key, kinds[i].valueProblem);
    FirstSetsIs(rows, options, kept, i, o, key);
    if SetBefore(kinds, i, o) {
      var j := SomeFirst(kinds, i, o);
      RepeatSays(rows, options, kept, i, j, p);
    }
  }

  /** A row whose option row `j` was the first to set is told so, and nothing else is said of it. */
  lemma RepeatSays(rows: seq<Row>, options: Options, kept: seq<Row>, i: nat, j: nat, p: Problem)
    requires i < |rows| && j < i && Classify(rows[i], options, kept).Sets?
    requires var kinds := Kinds(rows, options, kept); FirstToSet(kinds, j) && kinds[j].option == kinds[i].option
    ensures var kinds := Kinds(rows, options, kept); var key := kinds[i].named;
      p == (if kinds[j].named == key then SetTwice(key) else SameOption(key, kinds[j].named))
      <==> Says(rows, i, options, kept, p)
  {
    var kinds := Kinds(rows, options, kept);
    ClassifyIs(rows[i], options, kept);
    NamedIs(rows[i], options, kept);
    ClassifyIs(rows[j], options, kept);
    assert OptionSet(rows[j], options) == OptionSet(rows[i], options);
    OnlyFirstSets(rows, options, kept, i, j, kinds[i].named);
    if p.SameOption? { OnlyFirstSets(rows, options, kept, i, j, p.earlier); }
  }

  lemma OnlyFirstSets(rows: seq<Row>, options: Options, kept: seq<Row>, i: nat, j: nat, key: string)
    requires j < i < |rows|
    requires var kinds := Kinds(rows, options, kept); FirstToSet(kinds, j)
    ensures var kinds := Kinds(rows, options, kept);
      FirstSetsAs(rows, i, options, kinds[j].option, key) <==> kinds[j].named == key
  {
    var kinds := Kinds(rows, options, kept);
    FirstSetsIs(rows, options, kept, i, kinds[j].option, key);
    FirstIsOne(kinds, i, j);
  }

  lemma FirstIsOne(kinds: seq<Kind>, i: nat, j: nat)
    requires j < i <= |kinds| && FirstToSet(kinds, j)
    ensures forall l :: 0 <= l < i && FirstToSet(kinds, l) && kinds[l].option == kinds[j].option ==> l == j
  {}

  // ----- Saving -----

  function Saved(row: Row): Row { Row(CleanKey(row.key), Trim(row.value)) }

  function RowsToSave(rows: seq<Row>): seq<Row> {
    if rows == [] then [] else (if Blank(rows[0]) then [] else [Saved(rows[0])]) + RowsToSave(rows[1..])
  }

  lemma PrefixTail(rows: seq<Row>, i: nat)
    requires i < |rows|
    ensures rows[..i + 1][0] == rows[0] && rows[..i + 1][1..] == rows[1..][..i]
  {}

  /** The draft row that became entry `k`. */
  function SourceOf(rows: seq<Row>, k: nat): (i: nat)
    requires k < |RowsToSave(rows)|
    ensures i < |rows| && !Blank(rows[i]) && RowsToSave(rows)[k] == Saved(rows[i]) && |RowsToSave(rows[..i])| == k
  {
    if Blank(rows[0]) then
      var i := SourceOf(rows[1..], k);
      PrefixTail(rows, i);
      i + 1
    else if k == 0 then
      assert rows[..0] == [];
      0
    else
      var i := SourceOf(rows[1..], k - 1);
      PrefixTail(rows, i);
      i + 1
  }

  /** Every row that is not blank is saved, behind those saved above it: its key clean and its value trimmed. */
  lemma EveryRowIsSaved(rows: seq<Row>, i: nat)
    requires i < |rows| && !(AllSpace(rows[i].key) && AllSpace(rows[i].value))
    ensures |RowsToSave(rows[..i])| < |RowsToSave(rows)|
    ensures RowsToSave(rows)[|RowsToSave(rows[..i])|] == Row(CleanKey(rows[i].key), Trim(rows[i].value))
  {
    TrimMeans(rows[i].key);
    TrimMeans(rows[i].value);
    SaveOneMore(rows, i);
    SavedPrefix(rows, i + 1);
    EntryIsUnique(rows, i, |RowsToSave(rows[..i])|);
  }

  /**
   * What passes is saved without conflict: when every row passes against a known list, the keys
   * saved are all different, and no two of them name the same option, by whichever names.
   */
  lemma PassedRowsAreDistinct(rows: seq<Row>, options: Options, kept: seq<Row>, a: nat, b: nat)
    requires options.Some?
    requires forall i :: 0 <= i < |rows| ==> Problems(rows, options, kept)[i].None?
    requires a < b < |RowsToSave(rows)|
    ensures RowsToSave(rows)[a].key != RowsToSave(rows)[b].key
    ensures OptionFor(RowsToSave(rows)[a].key, options).Some? ==>
              OptionFor(RowsToSave(rows)[a].key, options) != OptionFor(RowsToSave(rows)[b].key, options)
  {
    var i, j := SourceOf(rows, a), SourceOf(rows, b);
    if j <= i { SavedGrows(rows, j, i); }
    RowIsPassedWhen(rows, options, kept, i);
    RowIsPassedWhen(rows, options, kept, j);
    CleanKeyOfKey(CleanKey(rows[i].key));
    CleanKeyOfKey(CleanKey(rows[j].key));
  }

  /** A well-formed key is already clean. */
  lemma CleanKeyOfKey(key: string)
    ensures IsKey(key) ==> CleanKey(key) == key
  {
    if IsKey(key) {
      assert KeyChar(key[0]) && KeyChar(key[|key| - 1]);
    }
  }

  lemma {:induction false} SavedGrows(rows: seq<Row>, j: nat, i: nat)
    requires j <= i <= |rows|
    ensures |RowsToSave(rows[..j])| <= |RowsToSave(rows[..i])|
    decreases |rows|
  {
    if j > 0 {
      assert rows[..j][1..] == rows[1..][..j - 1];
      assert rows[..i][1..] == rows[1..][..i - 1];
      SavedGrows(rows[1..], j - 1, i - 1);
    }
  }

  lemma SavedIsSaved(row: Row)
    requires IsKey(CleanKey(row.key))
    ensures !Blank(Saved(row)) && Saved(Saved(row)) == Saved(row)
  {
    var key := CleanKey(row.key);
    CleanKeyOfKey(key);
    TrimTwice(row.value);
    assert Trim(key) == key by {
      assert KeyChar(key[0]) && KeyChar(key[|key| - 1]);
    }
  }

  lemma SaveFirst(first: Row, rest: seq<Row>)
    requires !Blank(first)
    ensures RowsToSave([first] + rest) == [Saved(first)] + RowsToSave(rest)
  {
    assert ([first] + rest)[1..] == rest;
  }

  /** Saving what passed and was saved changes nothing more. */
  lemma {:induction false} SavingAgainKeeps(rows: seq<Row>)
    requires forall i :: 0 <= i < |rows| ==> Blank(rows[i]) || IsKey(CleanKey(rows[i].key))
    ensures RowsToSave(RowsToSave(rows)) == RowsToSave(rows)
    decreases |rows|
  {
    if rows != [] {
      SavingAgainKeeps(rows[1..]);
      if !Blank(rows[0]) {
        SavedIsSaved(rows[0]);
        SaveFirst(Saved(rows[0]), RowsToSave(rows[1..]));
      } else {
        assert RowsToSave(rows) == [] + RowsToSave(rows[1..]) == RowsToSave(rows[1..]);
      }
    }
  }

  // ----- A server's refusal -----

  /** A refused entry, by its place in the list that was sent. */
  datatype ServerProblem = ServerProblem(index: int, message: string, sent: seq<Row>)

  /** The first row that is not blank and has `index` such rows above it. */
  method FindEntry(rows: seq<Row>, index: int) returns (at: int)
    ensures 0 <= index < |RowsToSave(rows)| ==> at == SourceOf(rows, index)
    ensures !(0 <= index < |RowsToSave(rows)|) ==> at == -1
  {
    var n := -1;
    for i := 0 to |rows|
      invariant n == |RowsToSave(rows[..i])| - 1
      invariant index < 0 || index > n
    {
      SaveOneMore(rows, i);
      if !Blank(rows[i]) {
        n := n + 1;
        if n == index {
          SavedPrefix(rows, i + 1);
          EntryIsUnique(rows, i, index);
          return i;
        }
      }
    }
    assert rows[..|rows|] == rows;
    at := -1;
  }

  lemma {:induction false} SaveConcat(a: seq<Row>, b: seq<Row>)
    ensures RowsToSave(a + b) == RowsToSave(a) + RowsToSave(b)
    decreases |a|
  {
    if a == [] {
      assert a + b == b;
    } else {
      var first := if Blank(a[0]) then [] else [Saved(a[0])];
      assert (a + b)[0] == a[0] && (a + b)[1..] == a[1..] + b;
      SaveConcat(a[1..], b);
      Regroup(first, RowsToSave(a[1..]), RowsToSave(b));
    }
  }

  lemma SaveOneMore(rows: seq<Row>, i: nat)
    requires i < |rows|
    ensures RowsToSave(rows[..i + 1]) == RowsToSave(rows[..i]) + (if Blank(rows[i]) then [] else [Saved(rows[i])])
  {
    SaveConcat(rows[..i], [rows[i]]);
    assert rows[..i] + [rows[i]] == rows[..i + 1];
    assert [rows[i]][1..] == [];
  }

  lemma {:induction false} SavedPrefix(rows: seq<Row>, i: nat)
    requires i <= |rows|
    ensures |RowsToSave(rows[..i])| <= |RowsToSave(rows)|
    decreases |rows|
  {
    assert rows[..|rows|] == rows;
    SavedGrows(rows, i, |rows|);
  }

  lemma EntryIsUnique(rows: seq<Row>, i: nat, k: nat)
    requires i < |rows| && !Blank(rows[i]) && |RowsToSave(rows[..i])| == k && k < |RowsToSave(rows)|
    ensures i == SourceOf(rows, k)
  {
    var source := SourceOf(rows, k);
    if i < source {
      SaveOneMore(rows, i);
      SavedGrows(rows, i + 1, source);
    } else if source < i {
      SaveOneMore(rows, source);
      SavedGrows(rows, source + 1, i);
    }
  }

  /** The problems shown, once a refusal that still fits what would be sent has been placed. */
  method WithServerProblem(problems: seq<Option<Problem>>, rows: seq<Row>, refusal: Option<ServerProblem>)
    returns (shown: seq<Option<Problem>>)
    requires |problems| == |rows|
    ensures |shown| == |problems|
    ensures forall i :: 0 <= i < |rows| ==>
      shown[i] == if refusal.Some? && refusal.value.sent == RowsToSave(rows) && problems[i].None?
                     && 0 <= refusal.value.index < |RowsToSave(rows)| && i == SourceOf(rows, refusal.value.index)
                  then Some(Refused(refusal.value.message))
                  else problems[i]
  {
    shown := problems;
    if refusal.None? || refusal.value.sent != RowsToSave(rows) { return; }
    var at := FindEntry(rows, refusal.value.index);
    if at < 0 { return; }
    if problems[at].None? {
      shown := problems[at := Some(Refused(refusal.value.message))];
    }
  }

  /**
   * A refusal at index k lands on exactly the draft row that became entry k: it is not blank, it
   * saves as that entry, exactly k rows above it are saved, and no other row is like that.
   */
  lemma RefusalLandsOnItsRow(rows: seq<Row>, k: nat, i: nat)
    requires k < |RowsToSave(rows)| && i < |rows|
    ensures i == SourceOf(rows, k) <==> !Blank(rows[i]) && |RowsToSave(rows[..i])| == k
    ensures i == SourceOf(rows, k) ==> Saved(rows[i]) == RowsToSave(rows)[k]
  {
    if !Blank(rows[i]) && |RowsToSave(rows[..i])| == k { EntryIsUnique(rows, i, k); }
  }

  // ----- Following the server -----

  datatype OptionDraft = OptionDraft(rows: seq<Row>, base: seq<Row>)

  predicate SameOptions(a: seq<Row>, b: seq<Row>) { RowsToSave(a) == RowsToSave(b) }

  function FollowSaved(draft: OptionDraft, saved: seq<Row>): OptionDraft {
    if SameOptions(draft.rows, draft.base) then OptionDraft(saved, saved) else draft
  }

  function FollowAll(draft: OptionDraft, polls: seq<seq<Row>>): OptionDraft
    decreases |polls|
  {
    if polls == [] then draft else FollowAll(FollowSaved(draft, polls[0]), polls[1..])
  }

  /** However many polls come, an edited draft keeps every character typed, and one not edited ends at the last. */
  lemma {:induction false} PollsKeepTyping(draft: OptionDraft, polls: seq<seq<Row>>)
    ensures FollowAll(draft, polls) ==
            if polls == [] || !SameOptions(draft.rows, draft.base) then draft
            else OptionDraft(polls[|polls| - 1], polls[|polls| - 1])
    decreases |polls|
  {
    if polls != [] { PollsKeepTyping(FollowSaved(draft, polls[0]), polls[1..]); }
  }
}
