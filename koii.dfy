/** The `Koii` route lister: validate the application's route table, flatten
    it into (path, method) pairs for the recognised HTTP verbs, and build the
    colourised fixed-width METHOD/PATH table, one line per `print` call. */
module Koii {
  import opened Text

  datatype Option<T> = None | Some(value: T)

  /** A route of the application: its path and the methods it accepts, in the
      order the framework's method set iterates them. */
  datatype Route = Route(path: string, methods: seq<string>)

  /** One row of the table (the `Path` named tuple). */
  datatype PathEntry = PathEntry(path: string, verb: string)

  /** What constructing `Koii` does: print lines, or raise before printing. */
  datatype Outcome = Printed(lines: seq<string>) | Raised(message: string)

  const VALID_METHODS: seq<string> := ["GET", "POST", "DELETE", "PUT", "PATCH"]
  const TAB_SIZE: int := 12
  const INVALID_APP_MESSAGE: string := "FastAPI app isn't valid as it has no predefined routes."

  /** ANSI colour prefixes, treated as opaque strings. */
  const HEADER_COLOR: string := "\U{1B}[1;35;40m"
  const METHOD_COLOR: string := "\U{1B}[1;32;40m"
  const PATH_COLOR: string := "\U{1B}[0;37;40m"

  /** What `print(" ")` writes. */
  const BLANK: string := " "

  // ---------------------------------------------------------------------
  // Validator
  // ---------------------------------------------------------------------

  /** The application is usable when it is present and its routes are a
      non-empty list; `None` stands for an absent application as well as a
      route collection that is not a list. */
  predicate IsAppValid(app: Option<seq<Route>>)
  {
    app.Some? && |app.value| > 0
  }

  // ---------------------------------------------------------------------
  // Extractor
  // ---------------------------------------------------------------------

  /** `a` can be obtained from `b` by deleting elements. */
  predicate IsSubsequence<T(==)>(a: seq<T>, b: seq<T>)
  {
    if a == [] then true
    else if b == [] then false
    else if a[0] == b[0] then IsSubsequence(a[1..], b[1..])
    else IsSubsequence(a, b[1..])
  }

  /** No element occurs twice (a Python set listed in iteration order). */
  predicate Distinct<T(==)>(s: seq<T>)
  {
    forall i, j :: 0 <= i < j < |s| ==> s[i] != s[j]
  }

  /** The methods of a route that are recognised verbs, in the given order:
      every recognised one kept as often as it occurs, every other dropped. */
  function ValidMethods(methods: seq<string>): (r: seq<string>)
    ensures IsSubsequence(r, methods)
    ensures forall m :: m in r <==> m in methods && m in VALID_METHODS
  {
    if methods == [] then []
    else
      assert methods == [methods[0]] + methods[1..];
      if methods[0] in VALID_METHODS then [methods[0]] + ValidMethods(methods[1..])
      else ValidMethods(methods[1..])
  }

  /** Filtering keeps each recognised method exactly as often as the input
      lists it, and no other method at all. */
  lemma {:induction false} ValidMethodsMultiplicity(methods: seq<string>)
    ensures forall m :: multiset(ValidMethods(methods))[m] == if m in VALID_METHODS then multiset(methods)[m] else 0
  {
    if methods != [] {
      ValidMethodsMultiplicity(methods[1..]);
      assert methods == [methods[0]] + methods[1..];
    }
  }

  /** The pairs one route contributes: one per recognised method, in order,
      each carrying the route's own path. */
  function RoutePairs(route: Route): (pairs: seq<PathEntry>)
    ensures |pairs| == |ValidMethods(route.methods)|
  {
    var valid := ValidMethods(route.methods);
    seq(|valid|, k requires 0 <= k < |valid| => PathEntry(route.path, valid[k]))
  }

  /** A route's pairs carry its path unchanged, and a method appears among
      them exactly when the route accepts it and it is a recognised verb. */
  lemma RoutePairsMembers(route: Route)
    ensures forall e :: e in RoutePairs(route) ==> e.path == route.path && e.verb in VALID_METHODS
    ensures forall m :: PathEntry(route.path, m) in RoutePairs(route) <==> m in route.methods && m in VALID_METHODS
  {
    var valid := ValidMethods(route.methods);
    var pairs := RoutePairs(route);
    forall m | m in valid ensures PathEntry(route.path, m) in pairs {
      var k :| 0 <= k < |valid| && valid[k] == m;
      assert pairs[k] == PathEntry(route.path, m);
    }
  }

  /** The flattened route table: each route's pairs, route after route. */
  function Extract(routes: seq<Route>): seq<PathEntry>
  {
    if routes == [] then []
    else Extract(routes[..|routes| - 1]) + RoutePairs(routes[|routes| - 1])
  }

  /** Every extracted pair's method is a recognised verb. */
  lemma {:induction false} ExtractVerbsValid(routes: seq<Route>)
    ensures forall e :: e in Extract(routes) ==> e.verb in VALID_METHODS
  {
    if routes != [] {
      ExtractVerbsValid(routes[..|routes| - 1]);
      RoutePairsMembers(routes[|routes| - 1]);
    }
  }

  /** `_get_paths`: nested loops appending one entry per recognised method. */
  method GetPaths(routes: seq<Route>) returns (paths: seq<PathEntry>)
    ensures paths == Extract(routes)
  {
    paths := [];
    for i := 0 to |routes|
      invariant paths == Extract(routes[..i])
    {
      var path := routes[i].path;
      var valid := ValidMethods(routes[i].methods);
      ghost var done, pairs := paths, RoutePairs(routes[i]);
      for j := 0 to |valid|
        invariant paths == done + pairs[..j]
      {
        assert pairs[..j + 1] == pairs[..j] + [pairs[j]];
        paths := paths + [PathEntry(path, valid[j])];
      }
      assert pairs[..|valid|] == pairs;
      ExtractPrefix(routes, i);
    }
    assert routes[..|routes|] == routes;
  }

  /** One more route extends the flattened prefix by that route's pairs. */
  lemma ExtractPrefix(routes: seq<Route>, i: nat)
    requires i < |routes|
    ensures Extract(routes[..i + 1]) == Extract(routes[..i]) + RoutePairs(routes[i])
  {
    assert routes[..i + 1][..i] == routes[..i];
  }

  /** Flattening distributes over concatenation of route tables. */
  lemma {:induction false} ExtractAppend(a: seq<Route>, b: seq<Route>)
    ensures Extract(a + b) == Extract(a) + Extract(b)
  {
    if b != [] {
      var b', last := b[..|b| - 1], b[|b| - 1];
      assert (a + b)[..|a + b| - 1] == a + b';
      assert (a + b)[|a + b| - 1] == last;
      calc {
        Extract(a + b);
        Extract(a + b') + RoutePairs(last);
        { ExtractAppend(a, b'); }
        Extract(a) + Extract(b') + RoutePairs(last);
        Extract(a) + (Extract(b') + RoutePairs(last));
        Extract(a) + Extract(b);
      }
    } else {
      assert a + b == a;
    }
  }

  /** Routes are kept in order and none is merged with another: route `i`'s
      pairs form the block of the result that starts after the pairs of all
      earlier routes. */
  lemma ExtractBlock(routes: seq<Route>, i: nat)
    requires i < |routes|
    ensures |Extract(routes[..i])| + |RoutePairs(routes[i])| == |Extract(routes[..i + 1])| <= |Extract(routes)|
    ensures Extract(routes)[|Extract(routes[..i])|..|Extract(routes[..i + 1])|] == RoutePairs(routes[i])
  {
    assert routes[..i + 1][..i] == routes[..i];
    assert routes == routes[..i + 1] + routes[i + 1..];
    ExtractAppend(routes[..i + 1], routes[i + 1..]);
  }

  /** Two routes, whatever their paths, each contribute their own pairs. */
  lemma NoDeduplication(first: Route, second: Route)
    ensures Extract([first, second]) == RoutePairs(first) + RoutePairs(second)
  {
    var both := [first, second];
    ExtractPrefix(both, 0);
    ExtractPrefix(both, 1);
    assert both[..0] == [] && both[..2] == both;
  }

  /** The number of recognised verbs in a route's method set. */
  function ValidCount(route: Route): nat
  {
    |set m | m in route.methods && m in VALID_METHODS|
  }

  /** The number of recognised verbs summed over the routes. */
  function TotalValid(routes: seq<Route>): nat
  {
    if routes == [] then 0 else TotalValid(routes[..|routes| - 1]) + ValidCount(routes[|routes| - 1])
  }

  /** Every route's method list stands for a set. */
  predicate MethodsAreSets(routes: seq<Route>)
  {
    forall i :: 0 <= i < |routes| ==> Distinct(routes[i].methods)
  }

  /** Over a set of methods, filtering keeps one method per recognised verb. */
  lemma {:induction false} ValidMethodsCount(methods: seq<string>)
    requires Distinct(methods)
    ensures |ValidMethods(methods)| == |set m | m in methods && m in VALID_METHODS|
  {
    if methods != [] {
      var x, rest := methods[0], methods[1..];
      assert Distinct(rest);
      ValidMethodsCount(rest);
      var all := set m | m in methods && m in VALID_METHODS;
      var tail := set m | m in rest && m in VALID_METHODS;
      assert x !in rest;
      if x in VALID_METHODS {
        assert all == {x} + tail;
      } else {
        assert all == tail;
      }
    }
  }

  /** Number of extracted pairs = sum over routes of |methods ∩ verbs|. */
  lemma {:induction false} ExtractLength(routes: seq<Route>)
    requires MethodsAreSets(routes)
    ensures |Extract(routes)| == TotalValid(routes)
  {
    if routes != [] {
      var init := routes[..|routes| - 1];
      assert MethodsAreSets(init);
      ExtractLength(init);
      ValidMethodsCount(routes[|routes| - 1].methods);
    }
  }

  // ---------------------------------------------------------------------
  // Formatter
  // ---------------------------------------------------------------------

  /** The `f"{s} {fill}"` column cell: `s`, one space, then padding up to
      `TAB_SIZE`; a string that exceeds the width is not padded or cut. */
  function Cell(s: string): (c: string)
    ensures |s| <= TAB_SIZE ==> |c| == TAB_SIZE + 1
    ensures |s| > TAB_SIZE ==> c == s + " "
    ensures c[..|s|] == s && forall i :: |s| <= i < |c| ==> c[i] == ' '
  {
    s + " " + Repeat(' ', TAB_SIZE - |s|)
  }

  /** The header line: the METHOD and PATH cells, each in the header colour. */
  function HeaderLine(): string
  {
    HEADER_COLOR + Cell("METHOD") + " " + HEADER_COLOR + Cell("PATH")
  }

  /** The separator: two runs of `TAB_SIZE` dashes around one space. */
  function Separator(): (s: string)
    ensures |s| == 2 * TAB_SIZE + 1 == 25
    ensures forall i :: 0 <= i < |s| ==> s[i] == if i == TAB_SIZE then ' ' else '-'
  {
    Repeat('-', TAB_SIZE) + " " + Repeat('-', TAB_SIZE)
  }

  /** The data row of one entry: coloured method cell, a space, coloured path. */
  function Row(e: PathEntry): string
  {
    METHOD_COLOR + Cell(e.verb) + " " + PATH_COLOR + e.path
  }

  /** Reads a data row back into its entry: the method cell is the
      `TAB_SIZE + 1` characters after the method colour, trailing spaces
      removed; the path is everything after the path colour. */
  function ParseRow(line: string): Option<PathEntry>
  {
    var cellStart := |METHOD_COLOR|;
    var cellEnd := cellStart + TAB_SIZE + 1;
    var pathStart := cellEnd + 1 + |PATH_COLOR|;
    if |line| < pathStart || line[..cellStart] != METHOD_COLOR || line[cellEnd..pathStart] != " " + PATH_COLOR then None
    else Some(PathEntry(line[pathStart..], TrimRight(line[cellStart..cellEnd])))
  }

  /** A method that fits the column and does not end in a space is laid out
      so that the row can be read back exactly: the method cell is
      `TAB_SIZE + 1` wide and the path follows unpadded and untruncated. */
  lemma RowRoundTrip(e: PathEntry)
    requires |e.verb| <= TAB_SIZE && !EndsInSpace(e.verb)
    ensures |Row(e)| == |METHOD_COLOR| + TAB_SIZE + 2 + |PATH_COLOR| + |e.path|
    ensures ParseRow(Row(e)) == Some(e)
  {
    var line := Row(e);
    var cellStart := |METHOD_COLOR|;
    var cellEnd := cellStart + TAB_SIZE + 1;
    var pathStart := cellEnd + 1 + |PATH_COLOR|;
    assert line[..cellStart] == METHOD_COLOR;
    assert line[cellStart..cellEnd] == Cell(e.verb);
    assert line[cellEnd..pathStart] == " " + PATH_COLOR;
    assert line[pathStart..] == e.path;
    assert Cell(e.verb) == e.verb + Repeat(' ', TAB_SIZE + 1 - |e.verb|);
    TrimPadding(e.verb, TAB_SIZE + 1 - |e.verb|);
  }

  /** Every recognised verb fits the column, so its padding is never negative. */
  lemma VerbsFitColumn(m: string)
    requires m in VALID_METHODS
    ensures |m| <= TAB_SIZE && !EndsInSpace(m)
    ensures |Cell(m)| == |Cell("METHOD")| == TAB_SIZE + 1
  {
  }

  /** The printed table for `paths`: a blank line, the header, the separator,
      one row per entry in order, and a trailing blank line. */
  predicate IsTable(lines: seq<string>, paths: seq<PathEntry>)
  {
    |lines| == |paths| + 4 &&
    lines[0] == BLANK && lines[1] == HeaderLine() && lines[2] == Separator() &&
    (forall k :: 3 <= k < |paths| + 3 ==> lines[k] == Row(paths[k - 3])) &&
    lines[|paths| + 3] == BLANK
  }

  /** `_format`: one line per `print` call, in order. */
  method Format(paths: seq<PathEntry>) returns (lines: seq<string>)
    ensures IsTable(lines, paths)
  {
    var methodHeaderFill := Repeat(' ', TAB_SIZE - |"METHOD"|);
    var pathHeaderFill := Repeat(' ', TAB_SIZE - |"PATH"|);

    lines := [BLANK];
    var methodHeader := HEADER_COLOR + "METHOD " + methodHeaderFill;
    var pathHeader := HEADER_COLOR + "PATH " + pathHeaderFill;

    lines := lines + [methodHeader + " " + pathHeader];
    lines := lines + [Repeat('-', TAB_SIZE) + " " + Repeat('-', TAB_SIZE)];

    for k := 0 to |paths|
      invariant |lines| == k + 3
      invariant lines[0] == BLANK && lines[1] == HeaderLine() && lines[2] == Separator()
      invariant forall j :: 3 <= j < k + 3 ==> lines[j] == Row(paths[j - 3])
    {
      var methodFill := Repeat(' ', TAB_SIZE - |paths[k].verb|);
      var methodToPrint := METHOD_COLOR + paths[k].verb + " " + methodFill;
      var pathToPrint := PATH_COLOR + paths[k].path;
      lines := lines + [methodToPrint + " " + pathToPrint];
    }
    lines := lines + [BLANK];
  }

  /** The table is determined by the entries: printing the same entries twice
      gives identical output. */
  lemma TableUnique(a: seq<string>, b: seq<string>, paths: seq<PathEntry>)
    requires IsTable(a, paths) && IsTable(b, paths)
    ensures a == b
  {
  }

  /** Every data line of the table printed for a route list reads back as
      its own extracted pair, whose method is a recognised verb: a method
      outside GET, POST, DELETE, PUT and PATCH never reaches the output. */
  lemma TableRows(routes: seq<Route>, lines: seq<string>, k: nat)
    requires IsTable(lines, Extract(routes)) && 3 <= k < |lines| - 1
    ensures ParseRow(lines[k]) == Some(Extract(routes)[k - 3])
    ensures Extract(routes)[k - 3].verb in VALID_METHODS
  {
    var e := Extract(routes)[k - 3];
    ExtractVerbsValid(routes);
    VerbsFitColumn(e.verb);
    RowRoundTrip(e);
  }

  // ---------------------------------------------------------------------
  // Construction: validate, extract, format
  // ---------------------------------------------------------------------

  /** `Koii(app)`: raises before printing anything when the application is not
      valid; otherwise prints the table of the extracted pairs. */
  method Init(app: Option<seq<Route>>) returns (outcome: Outcome)
    ensures outcome.Raised? <==> app.None? || app.value == []
    ensures outcome.Raised? ==> outcome.message == INVALID_APP_MESSAGE
    ensures outcome.Printed? ==> IsTable(outcome.lines, Extract(app.value))
    ensures outcome.Printed? && MethodsAreSets(app.value) ==> |outcome.lines| == TotalValid(app.value) + 4
  {
    if IsAppValid(app) {
      var paths := GetPaths(app.value);
      var lines := Format(paths);
      if MethodsAreSets(app.value) {
        ExtractLength(app.value);
      }
      outcome := Printed(lines);
    } else {
      outcome := Raised(INVALID_APP_MESSAGE);
    }
  }

  // ---------------------------------------------------------------------
  // Scenarios
  // ---------------------------------------------------------------------

  /** One route with GET and POST gives two rows under header and separator. */
  method ScenarioTwoVerbs()
  {
    var route := Route("/users", ["GET", "POST"]);
    var outcome := Init(Some([route]));
    assert ValidMethods(["POST"][1..]) == [];
    assert ValidMethods(route.methods[1..]) == ["POST"];
    assert ValidMethods(route.methods) == ["GET", "POST"];
    assert RoutePairs(route) == [PathEntry("/users", "GET"), PathEntry("/users", "POST")];
    ExtractPrefix([route], 0);
    assert [route][..1] == [route] && [route][..0] == [];
    assert outcome.Printed? && |outcome.lines| == 6;
    assert outcome.lines[3] == Row(PathEntry("/users", "GET"));
    assert outcome.lines[4] == Row(PathEntry("/users", "POST"));
  }

  /** A route with no recognised verb gives a table without data rows. */
  method ScenarioNoVerb()
  {
    var outcome := Init(Some([Route("/health", ["OPTIONS"])]));
    assert Extract([Route("/health", ["OPTIONS"])]) == [];
    assert outcome.Printed? && |outcome.lines| == 4;
  }

  /** An empty route list raises and prints nothing. */
  method ScenarioNoRoutes()
  {
    var outcome := Init(Some([]));
    assert outcome == Raised(INVALID_APP_MESSAGE);
  }

  /** Two routes on the same path each get their own row. */
  method ScenarioSharedPath()
  {
    var get, delete := Route("/items", ["GET"]), Route("/items", ["DELETE"]);
    var outcome := Init(Some([get, delete]));
    NoDeduplication(get, delete);
    assert ValidMethods(get.methods[1..]) == [] && ValidMethods(delete.methods[1..]) == [];
    assert ValidMethods(get.methods) == ["GET"] && ValidMethods(delete.methods) == ["DELETE"];
    assert RoutePairs(get) == [PathEntry("/items", "GET")];
    assert RoutePairs(delete) == [PathEntry("/items", "DELETE")];
    assert outcome.Printed? && outcome.lines[3] == Row(PathEntry("/items", "GET"));
    assert outcome.lines[4] == Row(PathEntry("/items", "DELETE"));
  }
}
