/**
 * The decision logic of the environment-setup script: its stand-alone retry loop, the
 * y/n confirmation prompt, the parser for `pip list --outdated` output and the
 * package-selection rules of the update step. Subprocesses, sleeping and the terminal
 * are replaced by given outcomes and recorded values.
 */
module SetupEnv {
  import opened Wrappers
  import opened Errors
  import opened PyText

  // ---------------------------------------------------------------------------
  // The fallback retry (exponential backoff)
  // ---------------------------------------------------------------------------

  /** The k-th pause (0-based): `delay` multiplied by `backoff` k times. */
  function Pause(delay: real, backoff: real, k: nat): real {
    if k == 0 then delay else Pause(delay, backoff, k - 1) * backoff
  }

  /** What the handler raises for failure `e` at 0-based attempt `k`, if anything; an absent handler raises nothing. */
  function HandlerRaises(handler: Option<(Exc, nat) -> Option<Exc>>, e: Exc, k: nat): Option<Exc> {
    if handler.Some? then handler.value(e, k) else None
  }

  /**
   * `retry(func, max_attempts, delay, backoff, error_handler)` of the setup script. Call k
   * (0-based) is `func(k)`; the first success is returned. After failure k the handler is
   * called with k and whatever it raises propagates; the last failure re-raises the
   * original exception without a pause; otherwise the pause is the current delay, which is
   * then multiplied by `backoff`. With no attempts allowed the result is `None`.
   */
  method FallbackRetry<T>(func: nat -> Result<T, Exc>, maxAttempts: int, delay: real, backoff: real,
                          handler: Option<(Exc, nat) -> Option<Exc>>)
    returns (r: Result<Option<T>, Exc>, calls: nat, pauses: seq<real>)
    ensures maxAttempts <= 0 ==> r == Success(None) && calls == 0 && pauses == []
    ensures maxAttempts > 0 ==> 1 <= calls <= maxAttempts && r != Success(None) && |pauses| == calls - 1
    ensures forall k :: 0 <= k < |pauses| ==> pauses[k] == Pause(delay, backoff, k)
    ensures forall k :: 0 <= k < calls - 1 ==> func(k).Failure? && HandlerRaises(handler, func(k).error, k).None?
    ensures r.Success? && r.value.Some? ==> func(calls - 1) == Success(r.value.value)
    ensures r.Failure? ==>
              calls >= 1 && func(calls - 1).Failure? &&
              (if HandlerRaises(handler, func(calls - 1).error, calls - 1).Some?
               then r.error == HandlerRaises(handler, func(calls - 1).error, calls - 1).value
               else calls == maxAttempts && r.error == func(calls - 1).error)
  {
    var attempt: nat := 0;
    var wait := delay;
    calls, pauses := 0, [];
    while attempt < maxAttempts
      invariant maxAttempts > 0 ==> attempt < maxAttempts
      invariant maxAttempts <= 0 ==> attempt == 0
      invariant calls == attempt && |pauses| == attempt
      invariant forall k :: 0 <= k < |pauses| ==> pauses[k] == Pause(delay, backoff, k)
      invariant wait == Pause(delay, backoff, attempt)
      invariant forall k :: 0 <= k < attempt ==> func(k).Failure? && HandlerRaises(handler, func(k).error, k).None?
      decreases maxAttempts - attempt
    {
      var outcome := func(calls);
      calls := calls + 1;
      if outcome.Success? {
        r := Success(Some(outcome.value));
        return;
      }
      var e := outcome.error;
      attempt := attempt + 1;
      var raised := HandlerRaises(handler, e, attempt - 1);
      if raised.Some? {
        r := Failure(raised.value);
        return;
      }
      if attempt == maxAttempts {
        r := Failure(e);
        return;
      }
      PausesGrow(pauses, delay, backoff, wait);
      pauses := pauses + [wait];
      wait := wait * backoff;
      assert wait == Pause(delay, backoff, |pauses|);
    }
    r := Success(None);
  }

  /** Appending the next pause keeps the recorded pauses equal to the schedule. */
  lemma {:induction false} PausesGrow(pauses: seq<real>, delay: real, backoff: real, wait: real)
    requires forall k :: 0 <= k < |pauses| ==> pauses[k] == Pause(delay, backoff, k)
    requires wait == Pause(delay, backoff, |pauses|)
    ensures forall k :: 0 <= k <= |pauses| ==> (pauses + [wait])[k] == Pause(delay, backoff, k)
    ensures wait * backoff == Pause(delay, backoff, |pauses| + 1)
  {
  }

  /** The pauses start at `delay` and grow by the factor `backoff`: `delay = 1, backoff = 2` gives 1, 2, 4. */
  lemma {:induction false} ExponentialPauses(pauses: seq<real>, delay: real, backoff: real)
    requires forall k :: 0 <= k < |pauses| ==> pauses[k] == Pause(delay, backoff, k)
    ensures |pauses| > 0 ==> pauses[0] == delay
    ensures forall k :: 0 < k < |pauses| ==> pauses[k] == pauses[k - 1] * backoff
    ensures delay == 1.0 && backoff == 2.0 && |pauses| == 3 ==> pauses == [1.0, 2.0, 4.0]
  {
    if delay == 1.0 && backoff == 2.0 && |pauses| == 3 {
      assert Pause(1.0, 2.0, 2) == 4.0;
      assert pauses == [pauses[0], pauses[1], pauses[2]];
    }
  }

  // ---------------------------------------------------------------------------
  // The y/n confirmation
  // ---------------------------------------------------------------------------

  /** An answer as compared: trimmed and lower-cased. */
  function Normalized(answer: string): string {
    Lower(Strip(answer))
  }

  predicate Valid(answer: string) {
    Normalized(answer) == "y" || Normalized(answer) == "n"
  }

  /** What one answer decides: yes, no, or nothing when it is neither "y" nor "n". */
  function Reply(answer: string): (r: Option<bool>)
    ensures r.Some? <==> Valid(answer)
    ensures r.Some? ==> r.value == (Normalized(answer) == "y")
  {
    var a := Normalized(answer);
    if a == "y" then Some(true) else if a == "n" then Some(false) else None
  }

  /** The position of the first `true` in `flags`, if any. */
  function FirstTrue(flags: seq<bool>): (r: Option<nat>)
    ensures r.Some? ==> r.value < |flags| && flags[r.value] &&
                        forall j :: 0 <= j < r.value ==> !flags[j]
    ensures r.None? ==> forall j :: 0 <= j < |flags| ==> !flags[j]
  {
    if |flags| == 0 then None
    else if flags[0] then Some(0)
    else
      var rest := FirstTrue(flags[1..]);
      if rest.Some? then Some(rest.value + 1) else None
  }

  /** The position of the first acceptable answer, if any. */
  function FirstValid(answers: seq<string>): (r: Option<nat>)
    ensures r.Some? ==> r.value < |answers| && Valid(answers[r.value]) &&
                        forall j :: 0 <= j < r.value ==> !Valid(answers[j])
    ensures r.None? ==> forall j :: 0 <= j < |answers| ==> !Valid(answers[j])
  {
    var flags := seq(|answers|, i requires 0 <= i < |answers| => Valid(answers[i]));
    assert forall j :: 0 <= j < |answers| ==> (flags[j] <==> Valid(answers[j]));
    FirstTrue(flags)
  }

  /**
   * `get_user_confirmation(prompt, default, args)`. `nonInteractive` is `args and
   * args.non_interactive`; the lines typed at the prompt are `answers`. Non-interactively
   * the answer is `default == "y"` and nothing is read; otherwise the prompt repeats until a
   * line that trims and lower-cases to "y" or "n", and the answer is whether it was "y".
   * `None` means the input ended first (`input()` raises `EOFError`).
   */
  method GetUserConfirmation(default: string, nonInteractive: bool, answers: seq<string>)
    returns (r: Option<bool>, read: nat)
    ensures nonInteractive ==> r == Some(default == "y") && read == 0
    ensures !nonInteractive ==>
              (if FirstValid(answers).Some?
               then read == FirstValid(answers).value + 1 && r == Some(Normalized(answers[read - 1]) == "y")
               else read == |answers| && r.None?)
  {
    if nonInteractive {
      return Some(default == "y"), 0;
    }
    read := 0;
    while read < |answers|
      invariant read <= |answers|
      invariant forall j :: 0 <= j < read ==> !Valid(answers[j])
      decreases |answers| - read
    {
      var reply := Reply(answers[read]);
      if reply.Some? {
        FirstValidAt(answers, read);
        return reply, read + 1;
      }
      read := read + 1;
    }
    FirstValidNone(answers);
    r := None;
  }

  lemma {:induction false} FirstValidAt(answers: seq<string>, k: nat)
    requires k < |answers| && Valid(answers[k]) && forall j :: 0 <= j < k ==> !Valid(answers[j])
    ensures FirstValid(answers) == Some(k)
  {
  }

  lemma {:induction false} FirstValidNone(answers: seq<string>)
    requires forall j :: 0 <= j < |answers| ==> !Valid(answers[j])
    ensures FirstValid(answers).None?
  {
  }

  // ---------------------------------------------------------------------------
  // `pip list --outdated`
  // ---------------------------------------------------------------------------

  datatype Package = Package(name: string, current: string, latest: string)

  /** The packages read from table rows: each row with at least three fields, in order. */
  function PackagesOf(rows: seq<string>): (ps: seq<Package>)
    ensures |ps| <= |rows|
  {
    if |rows| == 0 then []
    else
      var fs := Fields(rows[|rows| - 1]);
      var front := PackagesOf(rows[..|rows| - 1]);
      if |fs| >= 3 then front + [Package(fs[0], fs[1], fs[2])] else front
  }

  lemma {:induction false} PackagesOfStep(rows: seq<string>, i: nat)
    requires i < |rows|
    ensures var fs := Fields(rows[i]);
            PackagesOf(rows[..i + 1]) == PackagesOf(rows[..i]) + (if |fs| >= 3 then [Package(fs[0], fs[1], fs[2])] else [])
  {
    assert rows[..i + 1][..i] == rows[..i];
  }

  /** The lines of the stripped output. */
  function OutputLines(text: string): seq<string> {
    SplitOn(Strip(text), '\n')
  }

  /**
   * `parse_outdated_packages(output_text)`: no packages when the stripped text has at most two
   * lines (the header); otherwise each later line with at least three whitespace-separated
   * fields gives a package from its first three fields, and shorter lines are dropped.
   */
  method ParseOutdatedPackages(text: string) returns (packages: seq<Package>)
    ensures |OutputLines(text)| <= 2 ==> packages == []
    ensures |OutputLines(text)| > 2 ==> packages == PackagesOf(OutputLines(text)[2..])
  {
    var lines := SplitOn(Strip(text), '\n');
    packages := [];
    if |lines| <= 2 {
      return;
    }
    var rows := lines[2..];
    var i := 0;
    while i < |rows|
      invariant i <= |rows|
      invariant packages == PackagesOf(rows[..i])
    {
      var parts := Fields(rows[i]);
      PackagesOfStep(rows, i);
      if |parts| >= 3 {
        packages := packages + [Package(parts[0], parts[1], parts[2])];
      }
      i := i + 1;
    }
    assert rows[..i] == rows;
  }

  // The round trip: a table printed in pip's layout parses back to its packages.

  /** A token that `split()` keeps whole: non-empty, no whitespace. */
  predicate Word(s: string) {
    s != [] && forall i :: 0 <= i < |s| ==> !IsSpace(s[i])
  }

  predicate Printable(p: Package) {
    Word(p.name) && Word(p.current) && Word(p.latest)
  }

  const Header := "Package Version Latest Type"
  const Rule := "------- ------- ------ -----"

  /** The distribution type pip prints in the last column. */
  const Wheel := "wheel"

  /** One row of the table: the three columns and the type, separated by spaces. */
  function Row(p: Package): string {
    Join(" ", [p.name, p.current, p.latest, Wheel])
  }

  /** The rows pip prints for `packages`. */
  function Rows(packages: seq<Package>): (rows: seq<string>)
    ensures |rows| == |packages| && forall i :: 0 <= i < |packages| ==> rows[i] == Row(packages[i])
  {
    seq(|packages|, i requires 0 <= i < |packages| => Row(packages[i]))
  }

  /** The text pip prints for `packages`: two header lines, then one row per package. */
  function Table(packages: seq<Package>): string {
    Join("\n", [Header, Rule] + Rows(packages))
  }

  lemma {:induction false} SplitOnConcat(a: string, c: char, b: string)
    requires c !in a
    ensures SplitOn(a + [c] + b, c) == [a] + SplitOn(b, c)
    decreases |a|
  {
    if a == [] {
      assert a + [c] + b == [c] + b;
      assert ([c] + b)[1..] == b;
    } else {
      SplitOnConcat(a[1..], c, b);
      assert (a + [c] + b)[1..] == a[1..] + [c] + b;
      assert [a[0]] + a[1..] == a;
    }
  }

  /** Splitting a join on the same one-character separator gives back the pieces. */
  lemma {:induction false} SplitOnJoin(parts: seq<string>, c: char)
    requires |parts| >= 1
    requires forall i :: 0 <= i < |parts| ==> c !in parts[i]
    ensures SplitOn(Join([c], parts), c) == parts
    decreases |parts|
  {
    if |parts| == 1 {
      SplitOnNone(parts[0], c);
    } else {
      SplitOnJoin(parts[1..], c);
      SplitOnConcat(parts[0], c, Join([c], parts[1..]));
      assert parts == [parts[0]] + parts[1..];
    }
  }

  lemma {:induction false} SplitOnNone(s: string, c: char)
    requires c !in s
    ensures SplitOn(s, c) == [s]
    decreases |s|
  {
    if s != [] {
      SplitOnNone(s[1..], c);
      assert [s[0]] + s[1..] == s;
    }
  }

  lemma {:induction false} WordLenOf(w: string, rest: string)
    requires Word(w)
    requires rest == [] || IsSpace(rest[0])
    ensures WordLen(w + rest) == |w|
    decreases |w|
  {
    if |w| > 1 {
      assert (w + rest)[1..] == w[1..] + rest;
      WordLenOf(w[1..], rest);
    } else {
      assert (w + rest)[1..] == rest;
    }
  }

  lemma {:induction false} FieldsCons(w: string, rest: string)
    requires Word(w)
    ensures Fields(w + " " + rest) == [w] + Fields(rest)
  {
    var s := w + " " + rest;
    WordLenOf(w, " " + rest);
    assert s == w + (" " + rest);
    assert s[..|w|] == w;
    assert s[|w|..] == " " + rest;
    assert (" " + rest)[1..] == rest;
  }

  lemma {:induction false} FieldsWord(w: string)
    requires Word(w)
    ensures Fields(w) == [w]
  {
    WordLenOf(w, "");
    assert w + "" == w;
    assert w[|w|..] == [];
  }

  /** Splitting on whitespace undoes joining words with single spaces. */
  lemma {:induction false} FieldsJoin(ws: seq<string>)
    requires |ws| >= 1 && forall i :: 0 <= i < |ws| ==> Word(ws[i])
    ensures Fields(Join(" ", ws)) == ws
    decreases |ws|
  {
    if |ws| == 1 {
      FieldsWord(ws[0]);
    } else {
      FieldsJoin(ws[1..]);
      FieldsCons(ws[0], Join(" ", ws[1..]));
      assert ws == [ws[0]] + ws[1..];
    }
  }

  lemma {:induction false} FieldsRow(p: Package)
    requires Printable(p)
    ensures Fields(Row(p)) == [p.name, p.current, p.latest, Wheel]
  {
    var ws := [p.name, p.current, p.latest, Wheel];
    assert forall i :: 0 <= i < |ws| ==> Word(ws[i]) by {
      WheelWord();
    }
    FieldsJoin(ws);
  }

  lemma {:induction false} WheelWord()
    ensures Word(Wheel)
  {
  }

  /** A printable row is one line that neither starts nor ends with whitespace. */
  lemma {:induction false} RowLine(p: Package)
    requires Printable(p)
    ensures Row(p) != [] && !IsSpace(Row(p)[0]) && !IsSpace(Row(p)[|Row(p)| - 1]) && '\n' !in Row(p)
  {
    var ws := [p.name, p.current, p.latest, Wheel];
    assert forall i :: 0 <= i < |ws| ==> Word(ws[i]) && ws[i] != [] by {
      WheelWord();
    }
    JoinEnds(ws, " ");
    assert IsSpace('\n');
    JoinAvoids(ws, " ", '\n');
  }

  lemma {:induction false} JoinAvoids(parts: seq<string>, sep: string, c: char)
    requires c !in sep && forall i :: 0 <= i < |parts| ==> c !in parts[i]
    ensures c !in Join(sep, parts)
    decreases |parts|
  {
    if |parts| > 1 {
      JoinAvoids(parts[1..], sep, c);
    }
  }

  lemma {:induction false} PackagesOfRows(packages: seq<Package>)
    requires forall i :: 0 <= i < |packages| ==> Printable(packages[i])
    ensures PackagesOf(Rows(packages)) == packages
    decreases |packages|
  {
    if packages != [] {
      var n := |packages| - 1;
      assert Rows(packages)[..n] == Rows(packages[..n]);
      PackagesOfRows(packages[..n]);
      FieldsRow(packages[n]);
      assert packages[..n] + [packages[n]] == packages;
    }
  }

  lemma {:induction false} JoinEnds(parts: seq<string>, sep: string)
    requires |parts| >= 1 && forall i :: 0 <= i < |parts| ==> parts[i] != []
    ensures Join(sep, parts) != []
    ensures Join(sep, parts)[0] == parts[0][0]
    ensures Join(sep, parts)[|Join(sep, parts)| - 1] == parts[|parts| - 1][|parts[|parts| - 1]| - 1]
    decreases |parts|
  {
    if |parts| > 1 {
      JoinEnds(parts[1..], sep);
    }
  }

  lemma {:induction false} HeaderLines()
    ensures Header != [] && !IsSpace(Header[0]) && '\n' !in Header
    ensures Rule != [] && '\n' !in Rule
  {
    assert IsSpace('\n');
  }

  /** Every line of the table is non-empty and free of line breaks; the last one ends in a non-space. */
  lemma {:induction false} TableLinesClean(packages: seq<Package>)
    requires forall i :: 0 <= i < |packages| ==> Printable(packages[i])
    ensures var lines := [Header, Rule] + Rows(packages);
            (forall i :: 0 <= i < |lines| ==> '\n' !in lines[i] && lines[i] != [])
            && !IsSpace(lines[0][0]) && !IsSpace(lines[|lines| - 1][|lines[|lines| - 1]| - 1])
  {
    var lines := [Header, Rule] + Rows(packages);
    HeaderLines();
    forall i | 0 <= i < |lines|
      ensures '\n' !in lines[i] && lines[i] != []
    {
      if i >= 2 {
        RowLine(packages[i - 2]);
      }
    }
    if |packages| > 0 {
      RowLine(packages[|packages| - 1]);
    }
  }

  /** The stripped table splits back into its header lines and rows. */
  lemma {:induction false} TableLines(packages: seq<Package>)
    requires forall i :: 0 <= i < |packages| ==> Printable(packages[i])
    ensures OutputLines(Table(packages)) == [Header, Rule] + Rows(packages)
  {
    var lines := [Header, Rule] + Rows(packages);
    TableLinesClean(packages);
    assert Table(packages) == Join("\n", lines);
    JoinEnds(lines, "\n");
    StripKeeps(Table(packages));
    SplitOnJoin(lines, '\n');
  }

  /** Parsing pip's table of printable packages gives back exactly those packages, in order. */
  lemma {:induction false} ParseTableRoundTrip(packages: seq<Package>)
    requires forall i :: 0 <= i < |packages| ==> Printable(packages[i])
    ensures |OutputLines(Table(packages))| == |packages| + 2
    ensures OutputLines(Table(packages))[2..] == Rows(packages)
    ensures |packages| > 0 ==> PackagesOf(OutputLines(Table(packages))[2..]) == packages
  {
    TableLines(packages);
    assert ([Header, Rule] + Rows(packages))[2..] == Rows(packages);
    PackagesOfRows(packages);
  }

  // ---------------------------------------------------------------------------
  // Choosing the packages to update
  // ---------------------------------------------------------------------------

  /** What `update_packages` goes on to install. */
  datatype Plan =
    | Nothing                         // returns without installing
    | UpgradeRequirements             // `pip install --upgrade -r requirements.txt`
    | UpgradeNames(names: seq<string>) // `pip install --upgrade <names>`

  function Names(packages: seq<Package>): (ns: seq<string>)
    ensures |ns| == |packages| && forall i :: 0 <= i < |packages| ==> ns[i] == packages[i].name
  {
    seq(|packages|, i requires 0 <= i < |packages| => packages[i].name)
  }

  /** The tokens with surrounding whitespace removed. */
  function StripAll(tokens: seq<string>): (r: seq<string>)
    ensures |r| == |tokens| && forall i :: 0 <= i < |tokens| ==> r[i] == Strip(tokens[i])
  {
    seq(|tokens|, i requires 0 <= i < |tokens| => Strip(tokens[i]))
  }

  /**
   * `[int(t) - 1 for t in tokens if t]` over already stripped tokens; `None` when a
   * token is not an integer.
   */
  function Indices(tokens: seq<string>): (r: Option<seq<int>>)
    ensures r.Some? ==> |r.value| <= |tokens|
    ensures r.None? <==> exists i :: 0 <= i < |tokens| && tokens[i] != "" && ParseInt(tokens[i]).None?
  {
    if |tokens| == 0 then Some([])
    else
      assert forall i :: 0 <= i < |tokens| - 1 ==> tokens[..|tokens| - 1][i] == tokens[i];
      match Indices(tokens[..|tokens| - 1])
      case None => None
      case Some(front) =>
        var t := tokens[|tokens| - 1];
        if t == "" then Some(front)
        else
          match ParseInt(t)
          case None => None
          case Some(v) => Some(front + [v - 1])
  }

  /** A blank token is skipped: it adds no index. */
  lemma {:induction false} IndicesSkipBlank(tokens: seq<string>)
    ensures Indices(tokens + [""]) == Indices(tokens)
  {
    assert (tokens + [""])[..|tokens|] == tokens;
  }

  /** `[packages[i]["name"] for i in indices if 0 <= i < len(packages)]`. */
  function Picked(packages: seq<Package>, indices: seq<int>): (ns: seq<string>)
    ensures |ns| <= |indices|
    ensures forall j :: 0 <= j < |ns| ==> ns[j] in Names(packages)
  {
    if |indices| == 0 then []
    else
      var front := Picked(packages, indices[..|indices| - 1]);
      var i := indices[|indices| - 1];
      if 0 <= i < |packages| then front + [packages[i].name] else front
  }

  /**
   * The selection rules of `update_packages(pip_path, packages, all_packages, args)`;
   * `selection` is the line typed at its prompt, read only in the interactive branch.
   */
  function UpdatePlan(packages: seq<Package>, allPackages: bool, nonInteractive: bool, selection: string): (p: Plan)
    ensures packages == [] ==> p == Nothing
    ensures packages != [] && (allPackages || nonInteractive) ==> p == UpgradeRequirements
    ensures packages != [] && !allPackages && !nonInteractive && Normalized(selection) == "none" ==> p == Nothing
    ensures packages != [] && !allPackages && !nonInteractive && Normalized(selection) == "all" ==>
              p == UpgradeNames(Names(packages))
    ensures && packages != [] && !allPackages && !nonInteractive
            && Normalized(selection) != "none" && Normalized(selection) != "all"
            && Indices(StripAll(SplitOn(Normalized(selection), ','))).None?
            ==> p == Nothing
    ensures p.UpgradeNames? ==> p.names != [] && forall j :: 0 <= j < |p.names| ==> p.names[j] in Names(packages)
  {
    if packages == [] then Nothing
    else if allPackages || nonInteractive then UpgradeRequirements
    else
      var s := Normalized(selection);
      if s == "none" then Nothing
      else if s == "all" then UpgradeNames(Names(packages))
      else
        match Indices(StripAll(SplitOn(s, ',')))
        case None => Nothing
        case Some(indices) =>
          var names := Picked(packages, indices);
          if names == [] then Nothing else UpgradeNames(names)
  }

  /**
   * One non-blank token that is not an integer cancels the whole update, whatever the
   * other tokens say.
   */
  lemma {:induction false} BadTokenCancels(packages: seq<Package>, selection: string, k: nat)
    requires packages != []
    requires var s := Normalized(selection); s != "none" && s != "all"
    requires var ts := StripAll(SplitOn(Normalized(selection), ','));
             k < |ts| && ts[k] != "" && ParseInt(ts[k]).None?
    ensures UpdatePlan(packages, false, false, selection) == Nothing
  {
    var ts := StripAll(SplitOn(Normalized(selection), ','));
    assert Indices(ts).None?;
  }

  /** Picking distributes over concatenation: order and duplicates are kept. */
  lemma {:induction false} PickedAppend(packages: seq<Package>, a: seq<int>, b: seq<int>)
    ensures Picked(packages, a + b) == Picked(packages, a) + Picked(packages, b)
    decreases |b|
  {
    if b == [] {
      assert a + b == a;
    } else {
      var n := |b| - 1;
      PickedAppend(packages, a, b[..n]);
      assert (a + b)[..|a + b| - 1] == a + b[..n];
    }
  }

  /** Out-of-range indices are dropped and in-range ones name their package. */
  lemma {:induction false} PickedOne(packages: seq<Package>, i: int)
    ensures Picked(packages, [i]) == if 0 <= i < |packages| then [packages[i].name] else []
  {
    assert [i][..0] == [];
  }

  /** The number typed for each position, as `str(i + 1)`. */
  function Typed(positions: seq<nat>): seq<string> {
    seq(|positions|, j requires 0 <= j < |positions| => IntToString(positions[j] + 1))
  }

  lemma {:induction false} IndicesOfTyped(positions: seq<nat>)
    ensures Indices(Typed(positions)) == Some(positions)
    decreases |positions|
  {
    if positions != [] {
      var n := |positions| - 1;
      assert positions == positions[..n] + [positions[n]];
      IndicesOfTyped(positions[..n]);
      IndicesOfTypedStep(positions[..n], positions[n]);
    }
  }

  lemma {:induction false} IndicesOfTypedStep(front: seq<nat>, last: nat)
    requires Indices(Typed(front)) == Some(front)
    ensures Indices(Typed(front + [last])) == Some(front + [last])
  {
    TypedSnoc(front, last);
    NumeralToken(last + 1);
    IndicesSnoc(Typed(front), front, IntToString(last + 1), last + 1);
  }

  lemma {:induction false} TypedSnoc(front: seq<nat>, last: nat)
    ensures Typed(front + [last]) == Typed(front) + [IntToString(last + 1)]
  {
    assert |Typed(front + [last])| == |front| + 1;
    forall j | 0 <= j < |front|
      ensures Typed(front + [last])[j] == Typed(front)[j]
    {
      assert (front + [last])[j] == front[j];
    }
  }

  /** Appending one numeral token appends its value less one. */
  lemma {:induction false} IndicesSnoc(front: seq<string>, f: seq<int>, t: string, v: int)
    requires Indices(front) == Some(f)
    requires t != "" && ParseInt(t) == Some(v)
    ensures Indices(front + [t]) == Some(f + [v - 1])
  {
    var s := front + [t];
    assert s[..|s| - 1] == front;
    assert s[|s| - 1] == t;
  }

  /** Rendered numbers are already stripped. */
  lemma {:induction false} TypedStripped(positions: seq<nat>)
    ensures StripAll(Typed(positions)) == Typed(positions)
  {
    forall j | 0 <= j < |positions|
      ensures Strip(Typed(positions)[j]) == Typed(positions)[j]
    {
      NumeralToken(positions[j] + 1);
    }
  }

  lemma {:induction false} PickedPositions(packages: seq<Package>, positions: seq<nat>)
    requires forall j :: 0 <= j < |positions| ==> positions[j] < |packages|
    ensures Picked(packages, positions) == seq(|positions|, j requires 0 <= j < |positions| => packages[positions[j]].name)
    decreases |positions|
  {
    if positions != [] {
      var n := |positions| - 1;
      PickedPositions(packages, positions[..n]);
    }
  }

  /**
   * Typing the 1-based numbers of some packages, comma-separated, selects exactly those
   * packages, in the typed order and with repeats kept.
   */
  lemma {:induction false} SelectionRoundTrip(packages: seq<Package>, positions: seq<nat>)
    requires packages != [] && positions != []
    requires forall j :: 0 <= j < |positions| ==> positions[j] < |packages|
    ensures UpdatePlan(packages, false, false, Join(",", Typed(positions))) ==
            UpgradeNames(seq(|positions|, j requires 0 <= j < |positions| => packages[positions[j]].name))
  {
    TypedSelection(positions);
    PickedPositions(packages, positions);
  }

  /** The typed selection reads back as the positions themselves. */
  lemma {:induction false} TypedSelection(positions: seq<nat>)
    requires positions != []
    ensures var s := Join(",", Typed(positions));
            Normalized(s) == s && s != "none" && s != "all" && Indices(StripAll(SplitOn(s, ','))) == Some(positions)
  {
    var ts := Typed(positions);
    forall j | 0 <= j < |ts|
      ensures ',' !in ts[j] && ts[j] != [] && AllDigits(ts[j])
    {
      assert ts[j] == NatToString(positions[j] + 1);
    }
    JoinDigits(ts);
    SplitOnJoin(ts, ',');
    TypedStripped(positions);
    IndicesOfTyped(positions);
  }

  /** A comma-joined list of numerals is its own trimmed, lower-cased form and is neither "none" nor "all". */
  lemma {:induction false} JoinDigits(ts: seq<string>)
    requires |ts| >= 1 && forall j :: 0 <= j < |ts| ==> AllDigits(ts[j])
    ensures var s := Join(",", ts); Strip(s) == s && Lower(s) == s && s != "none" && s != "all"
  {
    var s := Join(",", ts);
    JoinEnds(ts, ",");
    JoinChars(ts);
    assert IsDigit(s[0]) && IsDigit(s[|s| - 1]) by {
      assert s[0] == ts[0][0];
    }
    StripKeeps(s);
    LowerKeeps(s);
    assert s != "none" && s != "all" by {
      assert s[0] != 'n' && s[0] != 'a';
    }
  }

  lemma {:induction false} LowerKeeps(s: string)
    requires forall i :: 0 <= i < |s| ==> IsDigit(s[i]) || s[i] == ','
    ensures Lower(s) == s
  {
  }

  lemma {:induction false} JoinChars(ts: seq<string>)
    requires forall j :: 0 <= j < |ts| ==> AllDigits(ts[j])
    ensures forall i :: 0 <= i < |Join(",", ts)| ==> IsDigit(Join(",", ts)[i]) || Join(",", ts)[i] == ','
    decreases |ts|
  {
    if |ts| > 1 {
      JoinChars(ts[1..]);
    }
  }
}
