# Koii route lister, modelled in Dafny

`Koii` is a small developer utility for FastAPI applications. Constructing
`Koii(app)` prints the application's route table as a colourised, fixed-width
METHOD/PATH listing. It works in three steps:

1. **Validate.** The application must be present, and its `routes` must be a
   non-empty list. Otherwise the constructor raises
   `"FastAPI app isn't valid as it has no predefined routes."` before anything
   is printed.
2. **Extract.** The route list is flattened into `(path, method)` pairs. Each
   route contributes one pair per method it accepts that is one of GET, POST,
   DELETE, PUT or PATCH. Route order is kept and duplicates are kept.
3. **Format.** The table is printed as a blank line (`" "`), a header, a
   separator (12 dashes, a space, 12 dashes), one row per pair, and a
   trailing blank line. Each column cell is the text, a space, and
   `12 - len(text)` spaces of padding.

The model has two modules:

- `Text` (`text.dfy`): Python's `c * n` string repetition (`Repeat`), and
  `TrimRight`, which is used to read a padded cell back.
- `Koii` (`koii.dfy`): the three steps and the constructor.
  - A route is `Route(path, methods)`. `methods` is a sequence that stands
    for the framework's method set, listed in the order the set iterates.
  - The application is an `Option<seq<Route>>`.
  - The named tuple `Path` becomes the datatype `PathEntry(path, verb)`. The
    field is called `verb` because `method` is a Dafny keyword.
  - Each `print` call becomes one string in the returned `seq<string>`.
  - The constructor becomes `Init`. It returns either `Printed(lines)` or
    `Raised(message)`.

`_get_paths` and `_format` append inside loops, so `GetPaths` and `Format`
are methods with loops. Each is proved against a specification:

- `GetPaths` against the function `Extract`.
- `Format` against the predicate `IsTable`.

`_is_app_valid` and `_get_valid_methods` are single expressions, so they
become the functions `IsAppValid` and `ValidMethods`.

`ParseRow` reads a data row back into its pair. It does not come from the
source. It exists so the row layout can be stated as a round trip: the
method cell is 13 characters wide, and the path follows with no padding and
no truncation.

The ANSI prefixes `"\033[1;35;40m"`, `"\033[1;32;40m"` and `"\033[0;37;40m"`
are kept as opaque constant strings.

Validation follows `koii.py` (koii.py:24-30): the application must be
present and its routes a non-empty list. A stricter rule that would also
demand a route of a recognised kind is not in this code and is not modelled.

## Model

| member | source | states |
|---|---|---|
| `Text.Repeat` | koii.py:46-47 | `c * n` has length `n` when `n` is positive and is empty otherwise; every character is `c` |
| `Koii.ValidMethods` | koii.py:42-43 | the result is a subsequence of the route's methods (order kept); a method is in it exactly when it is in the input and is one of the five verbs, so a valid method is never dropped and an invalid one is never kept |
| `Koii.ValidMethodsMultiplicity` | koii.py:43 | each recognised method occurs in the result exactly as often as in the input; every other method occurs zero times |
| `Koii.ValidMethodsCount` | koii.py:42-43 | when the methods form a set (all distinct), the filtered list's length is the size of methods ∩ {GET, POST, DELETE, PUT, PATCH} |
| `Koii.RoutePairs` | koii.py:36-38 | one route contributes exactly as many pairs as it has recognised methods |
| `Koii.RoutePairsMembers` | koii.py:35-38 | every pair of a route carries that route's path unchanged and a recognised verb; `(path, m)` is among them exactly when the route accepts `m` and `m` is recognised |
| `Koii.ExtractVerbsValid` | koii.py:35-43 | every extracted pair's method is one of GET, POST, DELETE, PUT, PATCH |
| `Koii.GetPaths` | koii.py:32-40 | the nested append loops produce exactly the flattened table `Extract(routes)` |
| `Koii.ExtractPrefix` | koii.py:35-38 | processing one more route appends exactly that route's pairs to what came before |
| `Koii.ExtractAppend` | koii.py:35-38 | flattening `a + b` gives the pairs of `a` followed by the pairs of `b` |
| `Koii.ExtractBlock` | koii.py:35-38 | route `i`'s pairs form one contiguous block, placed after the pairs of all routes before `i` and before those of all routes after it |
| `Koii.NoDeduplication` | koii.py:33-40 | two routes, even with the same path, each contribute their own pairs in order, with nothing merged |
| `Koii.ExtractLength` | koii.py:35-43 | when every route's methods form a set, the number of pairs is the sum over routes of the size of methods ∩ recognised verbs |
| `Koii.Cell` | koii.py:57-59 | a column cell starts with its text, and everything after the text is spaces; its width is 13 when the text has at most 12 characters; a longer text gets just one space and is not cut |
| `Koii.Separator` | koii.py:54 | the separator is 25 characters: dashes, except a space at position 12 |
| `Koii.RowRoundTrip` | koii.py:57-62 | for a method of at most 12 characters with no trailing space, the row is the green prefix, a 13-character method cell, a space, the white prefix, then the path; reading the row back gives the same method and path |
| `Koii.VerbsFitColumn` | koii.py:14-15 | every recognised verb fits the 12-character column, so its padding is never negative and its cell is as wide as the METHOD header cell |
| `Koii.Format` | koii.py:45-63 | the output has `len(paths) + 4` lines: `" "`, the header, the separator, one row per pair in order, and `" "` |
| `Koii.TableUnique` | koii.py:45-63 | the lines are fully determined by the pairs, so formatting the same pairs twice gives identical output |
| `Koii.TableRows` | koii.py:56-62 | every data line of a printed table reads back as its own extracted pair, and that pair's method is recognised, so no other method reaches the output |
| `Koii.Init` | koii.py:17-30 | raises with the fixed message exactly when the application is absent or has no routes, and then produces no lines; otherwise it prints the table of `Extract(routes)`, which has (sum over routes of recognised methods) + 4 lines when every route's methods are distinct |

## Left out

- The FastAPI and Starlette types (`FastAPI`, `APIRoute`, `BaseRoute`) and the `namedtuple` are replaced by plain datatypes. Route kinds without a `methods` attribute (mounts, websocket routes), on which `_get_paths` would raise `AttributeError`, are not modelled.
- The type check `type(app.routes) == list` and Python truthiness are folded into the `Option<seq<Route>>` input: `None` stands for an absent application and also for a route collection that is not a list.
- Writing to standard output is not modelled. Each `print` becomes one string in the returned sequence, with no terminal I/O and no trailing newline.
- What the ANSI escape sequences look like on screen is not modelled. They are opaque constant prefixes.
- The iteration order of a Python set is not modelled. A route's methods are given as a sequence, so the model states only that a route's pairs keep that sequence's order. `Distinct` restates the set's uniqueness, and only the counting lemmas require it.
- `Cell` handles text longer than 12 characters the way Python does (`" " * n` with negative `n` is empty). No recognised verb is that long.
