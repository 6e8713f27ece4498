/**
 * Location stamping over a lexer's cursor: `Position` and `Location`
 * snapshots, the arm/fire capture returned by `location(lexer)`, the
 * plugin installer, and the wrapped `lex` that the installer puts on a host.
 */
module SnapdragonLocation {
  import opened Wrappers
  import opened JsValues

  /** The message of the error the installer throws on an invalid host. */
  const NotALexerMessage := "expected a Snapdragon.Lexer instance"

  /** A snapshot of the host's cursor `lexer.loc`, copied field by field. */
  datatype Position = Position(index: int, column: int, line: int)

  /** The cursor where a token started and where it ended. */
  datatype Location = Location(start: Position, end: Position)

  /** The `[start.index, end.index]` pair written to `token.range`. */
  function RangeOf(loc: Location): (int, int) {
    (loc.start.index, loc.end.index)
  }

  /**
   * A token of the host. `kind` stands for the fields the host gives it
   * (its `type`, `value`, ...); the location code only ever writes `loc`
   * and `range`. A token has no `isLexer` property.
   */
  class Token {
    var kind: string
    var loc: Option<Location>
    var range: Option<(int, int)>

    constructor (kind: string)
      ensures this.kind == kind && loc == None && range == None
    {
      this.kind := kind;
      loc := None;
      range := None;
    }
  }

  /** What the outcome of `lex` is reported as: a returned value or a thrown error. */
  datatype LexResult = Returned(token: Option<Token>) | Raised(message: string)

  /** What the installer reports: it returns normally, or throws. */
  datatype Outcome = Pass | Fail(message: string)

  /**
   * One call of the host's own (prototype) `lex`, whose code is not part of
   * this model: the cursor it leaves behind and the token it returns, if any.
   */
  datatype BaseOutcome = BaseOutcome(exit: Position, token: Option<Token>) {
    function Produced(): set<Token> {
      if token.Some? then {token.value} else {}
    }

    /** The same call with the token reduced to whether there is one. */
    function Step(): BaseStep {
      BaseStep(exit, token.Some?)
    }
  }

  /** A call of the host's own `lex` on values: where it leaves the cursor, and whether it produced a token. */
  datatype BaseStep = BaseStep(exit: Position, produced: bool)

  /** What one call of the wrapped `lex` does to the token the host's `lex` returned. */
  datatype LexEffect = Untouched | Stamped(loc: Location) | Threw(message: string)

  /**
   * The effect of one call of the wrapped `lex`, on values: `isLexer` is the
   * host's flag at the call, `entry` the cursor when the call starts.
   */
  function Effect(isLexer: JsValue, entry: Position, step: BaseStep): LexEffect {
    if !step.produced then Untouched
    else if isLexer == Bool(true) then Stamped(Location(entry, step.exit))
    else Threw(NotALexerMessage)
  }

  /**
   * A host lexer: its cursor `loc.{index, column, line}`, its `isLexer`
   * marker, and whether the plugin has put `position`, `location` and the
   * wrapped `lex` on it.
   */
  class Lexer {
    var index: int
    var column: int
    var line: int
    var isLexer: JsValue
    var hasPosition: bool
    var hasLocation: bool
    var lexWrapped: bool

    constructor (isLexer: JsValue, at: Position)
      ensures this.isLexer == isLexer && Snapshot() == at
      ensures !hasPosition && !hasLocation && !lexWrapped
    {
      this.isLexer := isLexer;
      index, column, line := at.index, at.column, at.line;
      hasPosition, hasLocation, lexWrapped := false, false, false;
    }

    /** `new Position(lexer)`: the cursor as it is now, copied verbatim. */
    function Snapshot(): (p: Position)
      reads this
      ensures p.index == index && p.column == column && p.line == line
    {
      Position(index, column, line)
    }

    /** The installed `lexer.position()`. */
    method CurrentPosition() returns (p: Position)
      requires hasPosition
      ensures p.index == index && p.column == column && p.line == line
    {
      p := Snapshot();
    }

    /** The installed `lexer.location()`: `location(lexer)` on this host. */
    method ArmLocation() returns (r: Closure)
      requires hasLocation
      ensures r == Arm(HostObject(this))
      ensures r.FireClosure? <==> isLexer == Bool(true)
      ensures r.FireClosure? ==> r.capture.start == Snapshot() && r.capture.host == this
    {
      r := Arm(HostObject(this));
    }

    /** The host's own `lex`, as `lexer.constructor.prototype.lex` runs it. */
    method BaseLex(outcome: BaseOutcome) returns (tok: Option<Token>)
      modifies this`index, this`column, this`line
      ensures Snapshot() == outcome.exit && tok == outcome.token
    {
      index, column, line := outcome.exit.index, outcome.exit.column, outcome.exit.line;
      tok := outcome.token;
    }

    /**
     * `lexer.lex(type)`: the host's own `lex` until the plugin is installed,
     * and afterwards the wrapper that arms a capture, runs the host's own
     * `lex` and fires the capture on the token, if there is one.
     */
    method Lex(outcome: BaseOutcome) returns (r: LexResult)
      modifies this`index, this`column, this`line, outcome.Produced()
      ensures Snapshot() == outcome.exit
      ensures outcome.token.Some? ==> outcome.token.value.kind == old(outcome.token.value.kind)
      ensures !lexWrapped ==> r == Returned(outcome.token) && unchanged(outcome.Produced())
      ensures lexWrapped ==>
        match Effect(isLexer, old(Snapshot()), outcome.Step())
        case Untouched => r == Returned(None)
        case Stamped(l) =>
          && r == Returned(outcome.token)
          && outcome.token.value.loc == Some(l)
          && outcome.token.value.range == Some(RangeOf(l))
        case Threw(m) => r == Raised(m) && unchanged(outcome.Produced())
    {
      if !lexWrapped {
        var tok := BaseLex(outcome);
        return Returned(tok);
      }
      // `lexer.location()`, which the installer set to `location(lexer)`
      var loc := Arm(HostObject(this));
      var tok := BaseLex(outcome);
      if tok.None? {
        return Returned(None);
      }
      match loc
      case FireClosure(c) =>
        var t := c.Fire(tok.value);
        r := Returned(Some(t));
      case InstallClosure =>
        // the installer applied to the token: a token has no `isLexer`, so it throws
        r := Raised(NotALexerMessage);
    }
  }

  /**
   * An argument of `location(x)`: an object seen as a host, or any other
   * JavaScript value. `OtherValue(ObjectValue)` stands for an object or a
   * function that `isLexer(x)` rejects whatever its own `isLexer` holds; a
   * function used as a host is not modelled.
   */
  datatype JsArg = HostObject(obj: Lexer) | OtherValue(v: JsValue) {
    function Footprint(): set<object> {
      if HostObject? then {obj} else {}
    }
  }

  /**
   * `isLexer(x)`: an object whose `isLexer` is exactly `true`. Whatever it
   * accepts the installer accepts too, but not conversely.
   */
  predicate IsLexer(x: JsArg)
    reads x.Footprint()
    ensures IsLexer(x) ==> x.HostObject? && Truthy(x.obj.isLexer)
  {
    x.HostObject? && x.obj.isLexer == Bool(true)
  }

  /** The closure armed by `location`: its `start` snapshot and the host it reads `end` from. */
  datatype Capture = Capture(start: Position, host: Lexer) {
    /** Firing: snapshot `end`, write `token.loc` and `token.range`, return the token. */
    method Fire(tok: Token) returns (r: Token)
      modifies tok`loc, tok`range
      ensures r == tok
      ensures tok.loc == Some(Location(start, host.Snapshot()))
      ensures tok.range == Some((start.index, host.index))
      ensures host.Snapshot() == old(host.Snapshot())
    {
      var end := host.Snapshot();
      tok.loc := Some(Location(start, end));
      tok.range := Some((start.index, end.index));
      r := tok;
    }
  }

  /** What `location(x)` returns: a capture to fire, or the installer `location.plugin()`. */
  datatype Closure = FireClosure(capture: Capture) | InstallClosure

  /**
   * `location(x)`: on a lexer, arm a capture whose `start` is the cursor now;
   * on anything else, read nothing and return the installer.
   */
  function Arm(x: JsArg): (r: Closure)
    reads x.Footprint()
    ensures r.FireClosure? <==> IsLexer(x)
    ensures r.FireClosure? ==> r.capture.host == x.obj && r.capture.start == x.obj.Snapshot()
  {
    if IsLexer(x) then FireClosure(Capture(x.obj.Snapshot(), x.obj)) else InstallClosure
  }

  /**
   * The installer `location.plugin()` applied to a host: throw on a falsy
   * `isLexer`; otherwise put `position`, `location` and the wrapped `lex` on it.
   */
  method Install(host: Lexer) returns (r: Outcome)
    modifies host`hasPosition, host`hasLocation, host`lexWrapped
    ensures r == (if Truthy(host.isLexer) then Pass else Fail(NotALexerMessage))
    ensures r.Pass? ==> host.hasPosition && host.hasLocation && host.lexWrapped
    ensures r.Fail? ==> unchanged(host)
  {
    if !Truthy(host.isLexer) {
      return Fail(NotALexerMessage);
    }
    host.hasPosition := true;
    host.hasLocation := true;
    host.lexWrapped := true;
    r := Pass;
  }

  /**
   * A host whose `isLexer` is truthy but not `true` (here `1`) passes the
   * installer's check, yet `location(lexer)` does not arm on it: the wrapped
   * `lex` then applies the installer to the token it got, which throws.
   */
  method TruthyFlagHostRaises() returns (installed: Outcome, r: LexResult)
    ensures installed == Pass
    ensures r == Raised(NotALexerMessage)
  {
    var host := new Lexer(Number(1.0), Position(0, 1, 1));
    installed := Install(host);
    var tok := new Token("text");
    r := host.Lex(BaseOutcome(Position(3, 4, 1), Some(tok)));
  }

  /**
   * Firing one capture twice: first with the cursor where it was armed, then
   * after the host moved from index 0 to 3. Both stamps share the `start`.
   */
  method FireTwiceScenario() returns (first: Location, second: Location)
    ensures first == Location(Position(0, 0, 1), Position(0, 0, 1))
    ensures second == Location(Position(0, 0, 1), Position(3, 3, 1))
  {
    var host := new Lexer(Bool(true), Position(0, 0, 1));
    var installed := Install(host);
    var armed := host.ArmLocation();
    var c := armed.capture;
    var a := new Token("text");
    a := c.Fire(a);
    first := a.loc.value;
    var _ := host.BaseLex(BaseOutcome(Position(3, 3, 1), None));
    var b := new Token("text");
    b := c.Fire(b);
    second := b.loc.value;
  }
}
