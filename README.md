# snapdragon-location in Dafny

A model of `snapdragon-location`, a plugin that stamps the tokens of a
snapdragon lexer with where they start and end in the input.

The host lexer keeps a cursor `lexer.loc` with an `index`, a `column` and a
`line`. The plugin does four things with it:

- `new Position(lexer)` copies the cursor into a value. In the model this is
  `Lexer.Snapshot`, and `Position` is a datatype.
- `new Location(start, end)` pairs two positions. In the model `Location` is
  a datatype.
- `location(lexer)` arms a capture: it snapshots `start` now and returns a
  closure. Firing the closure on a token snapshots `end`, writes
  `token.loc = Location(start, end)` and `token.range = [start.index, end.index]`,
  and returns the same token. The function `Arm` models `location(x)`. The
  datatype `Capture` is the closure, and `Capture.Fire` is the call that fires it.
  An argument that is not a lexer makes `location(x)` return the installer
  `location.plugin()`. The datatype `Closure` holds either result.
- The installer (`Install`) rejects a host whose `isLexer` is falsy. Otherwise
  it puts `position()`, `location()` and a wrapped `lex()` on the host. The
  wrapped `Lexer.Lex` arms a capture, runs the host's own `lex` and fires the
  capture on the token, when there is one.

The two host checks are kept apart, as they are in the code:

- `IsLexer` (used by `location`) wants an object whose `isLexer` is exactly `true`.
- `Install` only wants `isLexer` to be truthy.

On a host whose `isLexer` is, say, `1`, the plugin installs. But
`lexer.location()` then returns the installer instead of a capture. So the
wrapped `lex` applies the installer to the token it got, and that throws
"expected a Snapdragon.Lexer instance". `TruthyFlagHostRaises` proves this
outcome on a concrete host.

`LexTrace` lines up consecutive wrapped `lex` calls on a real lexer (one whose
`isLexer` is `true`), as values:

- each call starts at the cursor the previous call left (the trace assumes
  nothing but the host's own `lex` moves the cursor between calls;
  `ConsecutiveLexCalls` proves that two real `Lexer.Lex` calls in a row
  stamp what the trace says);
- only calls whose base `lex` produced a token stamp anything;
- consecutive stamped tokens tile (one ends where the next starts), provided
  every call between them that produced no token left the cursor in place;
- a call that does not move the cursor stamps an empty range;
- the ranges are ordered exactly when the host never moves its index backwards
  during a call that produces a token.

The location code itself validates nothing.

Modules: `Wrappers` (Option), `JsValues` (the JavaScript values an `isLexer`
property can hold, and truthiness), `SnapdragonLocation` (index.js) and
`LexTrace` (properties of repeated wrapped `lex` calls).

## Model

| member | source | states |
|---|---|---|
| SnapdragonLocation.Lexer.Snapshot | index.js:8-14 | a Position holds the host's `loc.index`, `loc.column` and `loc.line` at the moment it is taken, copied without change; it is a value, so later cursor moves cannot alter it |
| SnapdragonLocation.Lexer.CurrentPosition | index.js:98 | the installed `lexer.position()` returns the current cursor, field for field |
| SnapdragonLocation.IsLexer | index.js:139-141 | only an object whose `isLexer` is exactly `true` is a lexer; anything it accepts also passes the installer's truthiness check |
| SnapdragonLocation.Arm | index.js:49-59 | `location(x)` arms exactly when `x` is a lexer, with `start` the cursor at that moment and the capture bound to that host; otherwise it reads no cursor and returns the installer |
| SnapdragonLocation.Capture.Fire | index.js:53-58 | firing writes `token.loc = Location(start, cursor now)` and `token.range = (start.index, cursor index now)`, returns the very token passed in, and changes nothing else: not the host cursor, not the token's other fields |
| SnapdragonLocation.Lexer.ArmLocation | index.js:122 | the installed `lexer.location()` is `location(lexer)`: it gives a capture starting at the current cursor exactly when `isLexer` is `true` |
| SnapdragonLocation.Install | index.js:75-137 | a falsy `isLexer` fails with "expected a Snapdragon.Lexer instance" and leaves the host unchanged; otherwise `position`, `location` and `lex` are installed |
| SnapdragonLocation.Lexer.BaseLex | index.js:131 | the host's own `lex` leaves the cursor where its outcome says and returns its token, touching no token |
| SnapdragonLocation.Lexer.Lex | index.js:129-135 | before installation `lex` is the host's own; after it, the cursor is where the host's `lex` left it; no token means `undefined` is returned and nothing is stamped; a token on a host whose `isLexer` is `true` is stamped from the cursor at entry to the cursor after the host's `lex`, and the same token is returned; on any other host the call throws and the token is not touched |
| SnapdragonLocation.TruthyFlagHostRaises | index.js:75-141 | a host with `isLexer` equal to `1` passes the installer, yet its wrapped `lex` throws "expected a Snapdragon.Lexer instance" on the first token |
| SnapdragonLocation.FireTwiceScenario | test/test.js:33-70 | one capture fired twice reuses the same `start`: at `(0,0,1)` when fired where it was armed, and `(0,0,1)`–`(3,3,1)` after the host advanced three characters |
| LexTrace.Trace | index.js:129-135 | in a run of wrapped `lex` calls on a lexer, a call never throws and stamps exactly when the host's `lex` produced a token |
| LexTrace.TraceAt | index.js:129-135 | call `k` of a run behaves as a single wrapped `lex` started at the cursor call `k - 1` left |
| LexTrace.StampedLocation | index.js:51-56 | a stamped token's location starts at the cursor when its call began and ends at the cursor its host's `lex` left |
| LexTrace.StampCountIsProduced | index.js:132-134 | over any run, the number of stamped tokens equals the number of calls that produced a token |
| LexTrace.ConsecutiveStampsTile | test/test.js:266-343 | of two stamped tokens with only no-token calls between them, the first ends exactly where the second starts, provided each of those calls left the cursor where it found it (a failed match that moves the cursor opens a gap) |
| LexTrace.UnmovedCallStampsEmptyRange | index.js:51-56 | a call that leaves the cursor where it found it stamps `start == end` and `range == [i, i]` |
| LexTrace.RangesOrderedIffIndexNeverDecreases | index.js:56 | over any run, including calls that produce no token, every stamped range has `start <= end` if and only if the host never moves its index backwards within a call that produces a token |
| LexTrace.ConsecutiveLexCalls | index.js:129-135 | two wrapped `lex` calls in a row on an installed lexer stamp exactly the first two entries of `Trace` from the cursor before the first call, including when the first call produces no token, and leave the cursor where the second host `lex` left it |

## Left out

- The host lexer's internals are not part of this model. That covers line and column advancement, matching, `capture`, `advance`, `tokenize` and `use`. The cursor is three opaque integers. The host's own `lex` is a parameter (`BaseOutcome`): the cursor it leaves behind and the token it returns. Its `type` argument only reaches that code, so it is not modelled.
- The column base (0 or 1) belongs to the host. The model copies whatever the cursor holds.
- Some behaviour is described for this package but not implemented by index.js, so the model follows index.js. That covers a `source` label on `Location`, custom property names (`location('whatever')`, `lexer.location(name)`, `location(name, lexer)`), a `range` getter on `token.loc`, and a `location` event. Its `Location` has no `source`. It always writes `loc` and `range` on the token, and it emits nothing.
- Positions and locations are modelled as values. In index.js they are mutable objects shared by reference (one capture fired twice puts the same `start` object in both tokens' `loc`); that sharing is not captured.
- A function used as a host is not modelled. `isLexer(x)` rejects it on `typeof`, while the installer would accept one whose `isLexer` is truthy.
- Method patching and `lexer.constructor.prototype.lex.call` are dynamic dispatch. The model uses a fixed host `lex` (`Lexer.BaseLex`) and three installed flags. A user who overwrites `lexer.location` or `lexer.lex` afterwards is not modelled.
- SnapdragonLocation.Lexer.Lex: the host's own `lex` is modelled as always returning an object token or nothing. A host `lex` that throws (the error would pass through the wrapper after arming, with nothing stamped) and a truthy non-object result (on which `token.loc = …` throws a `TypeError` in strict mode) are not modelled.
- SnapdragonLocation.Lexer.Lex: a host `lex` that returns a falsy non-token (`null`, `false`, `0`, `""`) is folded into "no token". The wrapper returns `undefined` for all of these.
- SnapdragonLocation.Lexer.Lex: tokens carry no `isLexer` property, so applying the installer to a token always throws. A token with a truthy `isLexer` would instead get the plugin installed on it, and `undefined` would be returned. That case is not modelled.
- SnapdragonLocation.Install: its argument is always an object. Calling the installer on `undefined` or `null` raises a `TypeError` in JavaScript; that is not modelled.
- SnapdragonLocation.Capture.Fire: the token is a `Token`, never the host itself. Firing on the lexer object, which would overwrite its own `loc`, is excluded by the types.
- `module.exports` and the `Position`/`Location` exports are module wiring. The examples only print values.
- JavaScript numbers are modelled as reals (truthiness only) and the cursor as unbounded integers. Floating-point limits are not modelled.
