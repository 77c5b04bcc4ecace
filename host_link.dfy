/** The host side of the serial link (server.js): the robot's UART text
    arrives in chunks of arbitrary size, is cut into lines at "\r\n", and each
    line that is not blank is searched with regular expressions for the
    robot's state, the servo angle, the distance, the minimum of a sweep and
    the driving mode. */
module HostLink {
  import opened Wrappers
  import opened Decimal
  import opened Ticks
  import opened RobotStates
  import Control
  import Tones

  // ---------------------------------------------------------------- framing

  /** String.prototype.split("\r\n"): the pieces between the separators,
      matched left to right; there is always one piece more than there are
      separators. */
  function Split(s: string): (parts: seq<string>)
    ensures |parts| >= 1
    decreases |s|
  {
    if |s| < 2 then [s]
    else if s[0] == '\r' && s[1] == '\n' then [""] + Split(s[2..])
    else
      var r := Split(s[1..]);
      [[s[0]] + r[0]] + r[1..]
  }

  /** The inverse of Split: the pieces with "\r\n" between each two. */
  function Join(parts: seq<string>): string
    requires |parts| >= 1
    decreases |parts|
  {
    if |parts| == 1 then parts[0] else parts[0] + "\r\n" + Join(parts[1..])
  }

  predicate NoCrlf(s: string) {
    forall i :: 0 <= i < |s| - 1 ==> !(s[i] == '\r' && s[i + 1] == '\n')
  }

  lemma JoinStarts(parts: seq<string>)
    requires |parts| >= 1
    ensures |parts[0]| <= |Join(parts)| && Join(parts)[..|parts[0]|] == parts[0]
  {
  }

  /** Splitting loses nothing, and no piece contains a separator. */
  lemma {:induction false} SplitJoin(s: string)
    ensures Join(Split(s)) == s
    ensures forall k :: 0 <= k < |Split(s)| ==> NoCrlf(Split(s)[k])
    decreases |s|
  {
    if |s| >= 2 {
      if s[0] == '\r' && s[1] == '\n' {
        SplitJoin(s[2..]);
        SplitJoinSeparator(s);
      } else {
        SplitJoin(s[1..]);
        SplitJoinChar(s);
      }
    }
  }

  /** The step of SplitJoin for a text that starts with a separator. */
  lemma SplitJoinSeparator(s: string)
    requires |s| >= 2 && s[0] == '\r' && s[1] == '\n'
    requires Join(Split(s[2..])) == s[2..] && forall k :: 0 <= k < |Split(s[2..])| ==> NoCrlf(Split(s[2..])[k])
    ensures Join(Split(s)) == s
    ensures forall k :: 0 <= k < |Split(s)| ==> NoCrlf(Split(s)[k])
  {
    var r := Split(s[2..]);
    assert ([""] + r)[1..] == r;
    assert s == "\r\n" + s[2..];
  }

  /** The step of SplitJoin for a text that starts with another character:
      it joins the first piece. */
  lemma SplitJoinChar(s: string)
    requires |s| >= 2 && !(s[0] == '\r' && s[1] == '\n')
    requires Join(Split(s[1..])) == s[1..] && forall k :: 0 <= k < |Split(s[1..])| ==> NoCrlf(Split(s[1..])[k])
    ensures Join(Split(s)) == s
    ensures forall k :: 0 <= k < |Split(s)| ==> NoCrlf(Split(s)[k])
  {
    var r := Split(s[1..]);
    var p := [[s[0]] + r[0]] + r[1..];
    assert Split(s) == p;
    JoinStarts(r);
    SplitJoinFirst(s[0], r);
    assert s == [s[0]] + s[1..];
    assert |r[0]| > 0 ==> r[0][0] == s[1];
    assert forall k :: 1 <= k < |p| ==> p[k] == r[k];
  }

  /** Prefixing a character to the first piece prefixes it to the join. */
  lemma SplitJoinFirst(c: char, r: seq<string>)
    requires |r| >= 1
    ensures Join([[c] + r[0]] + r[1..]) == [c] + Join(r)
  {
    var p := [[c] + r[0]] + r[1..];
    if |r| > 1 {
      assert p[1..] == r[1..];
      Regroup3([c], r[0], "\r\n", Join(r[1..]));
    }
  }

  lemma Regroup3(a: string, b: string, c: string, d: string)
    ensures a + b + c + d == a + (b + c + d)
  {
  }

  /** Splitting `x + b` re-uses every complete piece of `x`; only its last,
      unterminated piece is continued by `b`. */
  lemma {:induction false} SplitAppend(x: string, b: string)
    ensures var p := Split(x);
      Split(x + b) == p[..|p| - 1] + Split(p[|p| - 1] + b)
    decreases |x|
  {
    var p := Split(x);
    if |p| == 1 {
      SplitJoin(x);
      assert p[..0] == [];
    } else if x[0] == '\r' && x[1] == '\n' {
      SplitAppend(x[2..], b);
      SplitAppendSeparator(x, b);
    } else {
      SplitAppend(x[1..], b);
      SplitAppendChar(x, b);
    }
  }

  lemma SplitAppendSeparator(x: string, b: string)
    requires |x| >= 2 && x[0] == '\r' && x[1] == '\n'
    requires var q := Split(x[2..]); Split(x[2..] + b) == q[..|q| - 1] + Split(q[|q| - 1] + b)
    ensures var p := Split(x);
      Split(x + b) == p[..|p| - 1] + Split(p[|p| - 1] + b)
  {
    var q := Split(x[2..]);
    var xb := x + b;
    assert xb[2..] == x[2..] + b;
    assert xb[0] == '\r' && xb[1] == '\n';
    assert Split(xb) == [""] + Split(x[2..] + b);
    var p := Split(x);
    assert p == [""] + q;
    AppendLast([""], q);
    var tail := Split(q[|q| - 1] + b);
    assert Split(p[|p| - 1] + b) == tail;
    PiecesAssoc([""], q[..|q| - 1], tail);
  }

  lemma PiecesAssoc(a: seq<string>, b: seq<string>, c: seq<string>)
    ensures a + (b + c) == a + b + c
  {
  }

  /** Dropping the last piece of `a + q`, for a non-empty `q`. */
  lemma AppendLast(a: seq<string>, q: seq<string>)
    requires |q| >= 1
    ensures var p := a + q; |p| >= 1 && p[..|p| - 1] == a + q[..|q| - 1] && p[|p| - 1] == q[|q| - 1]
  {
  }

  lemma SplitAppendChar(x: string, b: string)
    requires |x| >= 2 && !(x[0] == '\r' && x[1] == '\n') && |Split(x)| > 1
    requires var r := Split(x[1..]); Split(x[1..] + b) == r[..|r| - 1] + Split(r[|r| - 1] + b)
    ensures var p := Split(x);
      Split(x + b) == p[..|p| - 1] + Split(p[|p| - 1] + b)
  {
    var r := Split(x[1..]);
    var xb := x + b;
    assert xb[1..] == x[1..] + b;
    assert xb[0] == x[0] && xb[1] == x[1];
    var big := Split(x[1..] + b);
    assert Split(xb) == [[x[0]] + big[0]] + big[1..];
    var p := Split(x);
    assert p == [[x[0]] + r[0]] + r[1..];
    var tail := Split(r[|r| - 1] + b);
    assert big == r[..|r| - 1] + tail;
    assert |r| > 1;
    assert big[0] == r[0] && big[1..] == r[1..|r| - 1] + tail;
    AppendLast([[x[0]] + r[0]], r[1..]);
    assert r[1..][..|r| - 2] == r[1..|r| - 1];
    assert Split(p[|p| - 1] + b) == tail;
    PiecesAssoc([[x[0]] + r[0]], r[1..|r| - 1], tail);
  }

  /** A line without a line feed, then a separator: the line is the first
      piece. */
  lemma {:induction false} SplitLine(t: string, rest: string)
    requires forall i :: 0 <= i < |t| ==> t[i] != '\n'
    ensures Split(t + "\r\n" + rest) == [t] + Split(rest)
    decreases |t|
  {
    var s := t + "\r\n" + rest;
    if |t| == 0 {
      assert s == "\r\n" + rest && s[2..] == rest;
    } else {
      assert s[1..] == t[1..] + "\r\n" + rest;
      SplitLine(t[1..], rest);
      assert [t[0]] + t[1..] == t;
    }
  }

  /** The complete lines of a text and the text after the last separator:
      `lines.pop()` of server.js's `buffer.split('\r\n')`. */
  function Frame(text: string): (r: (seq<string>, string))
    ensures NoCrlf(r.1) && forall k :: 0 <= k < |r.0| ==> NoCrlf(r.0[k])
    ensures Join(r.0 + [r.1]) == text
  {
    var p := Split(text);
    SplitJoin(text);
    assert p == p[..|p| - 1] + [p[|p| - 1]];
    (p[..|p| - 1], p[|p| - 1])
  }

  // ---------------------------------------------------------------- matching

  /** JavaScript's `\s`, which is also what String.prototype.trim removes:
      the white space and line terminator characters of ECMAScript. */
  predicate IsSpace(c: char) {
    c == '\t' || c == '\n' || c == '\U{0B}' || c == '\U{0C}' || c == '\r' || c == ' '
    || c == '\U{A0}' || c == '\U{1680}' || ('\U{2000}' <= c <= '\U{200A}')
    || c == '\U{2028}' || c == '\U{2029}' || c == '\U{202F}' || c == '\U{205F}'
    || c == '\U{3000}' || c == '\U{FEFF}'
  }

  /** JavaScript's `\w`. */
  predicate IsWordChar(c: char) {
    ('A' <= c <= 'Z') || ('a' <= c <= 'z') || IsDigit(c) || c == '_'
  }

  /** `line.trim()` is the empty string. */
  predicate IsBlank(line: string) {
    forall i :: 0 <= i < |line| ==> IsSpace(line[i])
  }

  predicate StartsAt(s: string, i: int, t: string) {
    0 <= i && i + |t| <= |s| && s[i..i + |t|] == t
  }

  /** String.prototype.includes. */
  predicate Includes(s: string, t: string) {
    exists i | 0 <= i <= |s| - |t| :: StartsAt(s, i, t)
  }

  /** The end of the run of white space starting at `i`. */
  function SkipSpaces(s: string, i: nat): (j: nat)
    requires i <= |s|
    ensures i <= j <= |s| && (forall k :: i <= k < j ==> IsSpace(s[k])) && (j < |s| ==> !IsSpace(s[j]))
    decreases |s| - i
  {
    if i < |s| && IsSpace(s[i]) then SkipSpaces(s, i + 1) else i
  }

  /** The end of the run of decimal digits starting at `i` (`\d+`, greedy). */
  function DigitEnd(s: string, i: nat): (j: nat)
    requires i <= |s|
    ensures i <= j <= |s| && (forall k :: i <= k < j ==> IsDigit(s[k])) && (j < |s| ==> !IsDigit(s[j]))
    decreases |s| - i
  {
    if i < |s| && IsDigit(s[i]) then DigitEnd(s, i + 1) else i
  }

  /** The end of the run of word characters starting at `i` (`\w+`, greedy). */
  function WordEnd(s: string, i: nat): (j: nat)
    requires i <= |s|
    ensures i <= j <= |s| && (forall k :: i <= k < j ==> IsWordChar(s[k])) && (j < |s| ==> !IsWordChar(s[j]))
    decreases |s| - i
  {
    if i < |s| && IsWordChar(s[i]) then WordEnd(s, i + 1) else i
  }

  /** The regular expressions of parseSTM32Response: `/STATE:(\w+)/`, and
      `/<key>\s*=\s*(\d+)/` for the keys angle, dist, min_angle and
      min_dist. */
  datatype Pattern = StateWord | Field(key: string)

  /** The literal text a match of the pattern starts with. */
  function Lead(p: Pattern): string {
    match p
    case StateWord => "STATE:"
    case Field(key) => key
  }

  /** The capture group of a match of `p` that starts exactly at `i`. The
      greedy `\s*` before "=" and before the digits never has to give back a
      character, because neither "=" nor a digit is white space. */
  function MatchAt(s: string, i: nat, p: Pattern): (m: Option<string>)
    requires i <= |s|
    ensures m.Some? ==> StartsAt(s, i, Lead(p)) && |m.value| > 0
    ensures m.Some? && p.Field? ==> AllDigits(m.value)
    ensures m.Some? && p.StateWord? ==> forall k :: 0 <= k < |m.value| ==> IsWordChar(m.value[k])
  {
    if !StartsAt(s, i, Lead(p)) then None
    else
      match p
      case StateWord =>
        var e := WordEnd(s, i + 6);
        if e == i + 6 then None else Some(s[i + 6..e])
      case Field(key) =>
        var j := SkipSpaces(s, i + |key|);
        if j == |s| || s[j] != '=' then None
        else
          var k := SkipSpaces(s, j + 1);
          var e := DigitEnd(s, k);
          if e == k then None else Some(s[k..e])
  }

  /** String.prototype.match without the g flag: the capture of the leftmost
      match at or after `i`, or none when the pattern matches nowhere. */
  function Find(s: string, i: nat, p: Pattern): (m: Option<string>)
    requires i <= |s|
    ensures m.Some? ==> |m.value| > 0 && (p.Field? ==> AllDigits(m.value))
    ensures m.None? <==> forall j :: i <= j <= |s| ==> MatchAt(s, j, p).None?
    decreases |s| - i
  {
    var here := MatchAt(s, i, p);
    if here.Some? || i == |s| then here else Find(s, i + 1, p)
  }

  /** Positions where the pattern does not match can be skipped. */
  lemma {:induction false} FindSkip(s: string, i: nat, k: nat, p: Pattern)
    requires i <= k <= |s|
    requires forall j :: i <= j < k ==> MatchAt(s, j, p).None?
    ensures Find(s, i, p) == Find(s, k, p)
    decreases k - i
  {
    if i < k {
      FindStep(s, i, p);
      FindSkip(s, i + 1, k, p);
    }
  }

  lemma FindStep(s: string, i: nat, p: Pattern)
    requires i < |s| && MatchAt(s, i, p).None?
    ensures Find(s, i, p) == Find(s, i + 1, p)
  {
  }

  /** The leftmost match wins. */
  lemma FindFirst(s: string, k: nat, p: Pattern)
    requires k <= |s| && MatchAt(s, k, p).Some?
    requires forall j :: 0 <= j < k ==> MatchAt(s, j, p).None?
    ensures Find(s, 0, p) == MatchAt(s, k, p)
  {
    FindSkip(s, 0, k, p);
  }

  /** A pattern whose leading text does not occur anywhere does not match. */
  lemma FindAbsent(s: string, p: Pattern)
    requires !Includes(s, Lead(p))
    ensures Find(s, 0, p).None?
  {
    forall j | 0 <= j <= |s|
      ensures MatchAt(s, j, p).None?
    {
    }
  }

  // ---------------------------------------------------------------- parsing

  /** The `status` object of server.js. */
  datatype Status = Status(direction: string, mode: string, state: string, connected: bool, port: string, baudRate: int)

  /** Everything parseSTM32Response updates: `status` and the radar
      variables. The radar map is keyed by angle in degrees. */
  datatype Telemetry = Telemetry(
    status: Status,
    radar: map<nat, nat>,
    currentAngle: nat,
    currentDistance: nat,
    minAngle: nat,
    minDistance: nat)

  /** The initial values of server.js, with the configured baud rate. */
  function Boot(baudRate: int): (t: Telemetry)
    ensures t.status.state == "IDLE" && t.radar == map[] && t.minDistance == 999
  {
    Telemetry(Status("STOP", "MANUAL", "IDLE", false, "", baudRate), map[], 90, 0, 90, 999)
  }

  /** The mode section of parseSTM32Response: "AUTO MODE" first, then
      "MANUAL:" with the first of four directions, then "STOP". */
  function Moded(st: Status, line: string): Status {
    if Includes(line, "AUTO MODE") then st.(mode := "AUTO", direction := "AUTO")
    else if Includes(line, "MANUAL:") then
      var m := st.(mode := "MANUAL");
      if Includes(line, "FORWARD") then m.(direction := "FORWARD")
      else if Includes(line, "BACKWARD") then m.(direction := "BACKWARD")
      else if Includes(line, "LEFT") then m.(direction := "LEFT")
      else if Includes(line, "RIGHT") then m.(direction := "RIGHT")
      else m
    else if Includes(line, "STOP") then st.(direction := "STOP", mode := "MANUAL")
    else st
  }

  /** The radar range of server.js: angles 30 to 150 are recorded. */
  predicate InSweep(angle: nat) {
    30 <= angle <= 150
  }

  /** `/STATE:(\w+)/`: the state name. */
  function StateStep(t: Telemetry, line: string): Telemetry {
    match Find(line, 0, StateWord)
    case Some(w) => t.(status := t.status.(state := w))
    case None => t
  }

  /** The angle, then the distance, recorded in the radar map when the
      current angle is in the sweep. */
  function AngleStep(t: Telemetry, line: string): Telemetry {
    match Find(line, 0, Field("angle"))
    case Some(d) => t.(currentAngle := Value(d))
    case None => t
  }

  function DistStep(t: Telemetry, line: string): Telemetry {
    match Find(line, 0, Field("dist"))
    case Some(d) =>
      var dist := Value(d);
      t.(currentDistance := dist, radar := if InSweep(t.currentAngle) then t.radar[t.currentAngle := dist] else t.radar)
    case None => t
  }

  /** The minimum of a sweep, as the DECIDE report gives it. */
  function MinStep(t: Telemetry, line: string): Telemetry {
    var t1 := match Find(line, 0, Field("min_angle"))
      case Some(d) => t.(minAngle := Value(d))
      case None => t;
    match Find(line, 0, Field("min_dist"))
    case Some(d) => t1.(minDistance := Value(d))
    case None => t1
  }

  /** parseSTM32Response, section by section in the order of server.js;
      numbers are `parseInt` of the captured digits. */
  function Parsed(t: Telemetry, line: string): Telemetry {
    var t1 := MinStep(DistStep(AngleStep(StateStep(t, line), line), line), line);
    t1.(status := Moded(t1.status, line))
  }

  /** The lines of one `data` event, in order, blank ones skipped. */
  function Feed(t: Telemetry, lines: seq<string>): Telemetry
    decreases |lines|
  {
    if |lines| == 0 then t
    else
      var before := Feed(t, lines[..|lines| - 1]);
      var line := lines[|lines| - 1];
      if IsBlank(line) then before else Parsed(before, line)
  }

  /** The `data` handler: the pending text and the telemetry after a chunk. */
  function Receive(buffer: string, t: Telemetry, chunk: string): (string, Telemetry) {
    var (lines, rest) := Frame(buffer + chunk);
    (rest, Feed(t, lines))
  }

  // ---------------------------------------------------------------- properties

  /** Feeding two runs of lines is feeding their concatenation. */
  lemma {:induction false} FeedConcat(t: Telemetry, a: seq<string>, b: seq<string>)
    ensures Feed(Feed(t, a), b) == Feed(t, a + b)
    decreases |b|
  {
    if |b| == 0 {
      assert a + b == a;
    } else {
      FeedConcat(t, a, b[..|b| - 1]);
      assert (a + b)[..|a + b| - 1] == a + b[..|b| - 1];
    }
  }

  /** A blank line changes nothing. */
  lemma BlankSkipped(t: Telemetry, lines: seq<string>, line: string)
    requires IsBlank(line)
    ensures Feed(t, lines + [line]) == Feed(t, lines)
  {
    assert (lines + [line])[..|lines|] == lines;
  }

  /** After a chunk, the pending text and the lines handed to the parser,
      re-joined with "\r\n", are exactly the old pending text followed by the
      chunk; the pending text holds no separator. */
  lemma ReceiveKeeps(buffer: string, t: Telemetry, chunk: string)
    ensures var (rest, u) := Receive(buffer, t, chunk);
      var (lines, rest') := Frame(buffer + chunk);
      && rest == rest' && NoCrlf(rest) && u == Feed(t, lines)
      && Join(lines + [rest]) == buffer + chunk
  {
  }

  /** Framing `x + b` gives the complete lines of `x`, then those of its
      unterminated tail continued by `b`. */
  lemma FrameAppend(x: string, b: string)
    ensures var (lines1, rest1) := Frame(x);
      var (lines2, rest2) := Frame(rest1 + b);
      Frame(x + b) == (lines1 + lines2, rest2)
  {
    var p := Split(x);
    SplitAppend(x, b);
    var q := Split(p[|p| - 1] + b);
    var all := p[..|p| - 1] + q;
    assert all[..|all| - 1] == p[..|p| - 1] + q[..|q| - 1];
    assert all[|all| - 1] == q[|q| - 1];
  }

  /** How the serial driver cuts the text into chunks does not matter: two
      chunks in a row leave the same pending text and telemetry as their
      concatenation in one chunk. */
  lemma ChunksCompose(buffer: string, t: Telemetry, a: string, b: string)
    ensures var (buffer1, t1) := Receive(buffer, t, a);
      Receive(buffer1, t1, b) == Receive(buffer, t, a + b)
  {
    FrameAppend(buffer + a, b);
    assert buffer + a + b == buffer + (a + b);
    var (lines1, rest1) := Frame(buffer + a);
    var (lines2, rest2) := Frame(rest1 + b);
    FeedConcat(t, lines1, lines2);
  }

  /** A line with none of the patterns and none of the mode words changes
      nothing. */
  lemma Unrecognised(t: Telemetry, line: string)
    requires !Includes(line, "STATE:") && !Includes(line, "angle") && !Includes(line, "dist")
    requires !Includes(line, "min_angle") && !Includes(line, "min_dist")
    requires !Includes(line, "AUTO MODE") && !Includes(line, "MANUAL:") && !Includes(line, "STOP")
    ensures Parsed(t, line) == t
  {
    FindAbsent(line, StateWord);
    FindAbsent(line, Field("angle"));
    FindAbsent(line, Field("dist"));
    FindAbsent(line, Field("min_angle"));
    FindAbsent(line, Field("min_dist"));
  }

  // ---------------------------------------------------------------- the robot's reports

  /** Character `c` does not occur in `s`. */
  predicate Lacks(s: string, c: char) {
    forall i :: 0 <= i < |s| ==> s[i] != c
  }

  /** A text cannot include another text with a character it lacks. */
  lemma Absent(s: string, t: string, k: nat)
    requires k < |t| && Lacks(s, t[k])
    ensures !Includes(s, t)
  {
    forall i | 0 <= i <= |s| - |t|
      ensures !StartsAt(s, i, t)
    {
      assert s[i..i + |t|][k] == s[i + k];
    }
  }

  lemma LacksConcat(a: string, b: string, c: char)
    requires Lacks(a, c) && Lacks(b, c)
    ensures Lacks(a + b, c)
  {
  }

  /** The characters missing from every state name the firmware prints:
      "U", "P" and everything but the capital letters. */
  predicate NoName(c: char) {
    c == 'U' || c == 'P' || !('A' <= c <= 'Z')
  }

  lemma NameChars(st: RobotState)
    ensures |StateToStr(st)| > 0 && forall i :: 0 <= i < |StateToStr(st)| ==> IsWordChar(StateToStr(st)[i])
    ensures forall c :: NoName(c) ==> Lacks(StateToStr(st), c)
  {
    StateToStrInjective(st, st);
  }

  lemma DigitsLacks(n: nat, c: char)
    requires !IsDigit(c)
    ensures Lacks(Digits(n), c)
  {
  }

  /** `%3d` is white space, then the `%d` digits. */
  lemma {:induction false} PaddedChars(n: nat) returns (pad: string)
    ensures Padded(n, 3) == pad + Digits(n) && forall i :: 0 <= i < |pad| ==> pad[i] == ' '
  {
    var s := Padded(n, 3);
    PaddedShape(n, 3);
    pad := s[..|s| - |Digits(n)|];
    assert s == pad + s[|s| - |Digits(n)|..];
  }

  lemma {:induction false} PaddedLacks(n: nat, c: char)
    requires c != ' ' && !IsDigit(c)
    ensures Lacks(Padded(n, 3), c)
  {
    var pad := PaddedChars(n);
    DigitsLacks(n, c);
    LacksConcat(pad, Digits(n), c);
  }

  /** `/STATE:(\w+)/` on a line that starts with "STATE:" and a word. */
  lemma StateReads(name: string, post: string)
    requires |name| > 0 && forall i :: 0 <= i < |name| ==> IsWordChar(name[i])
    requires |post| > 0 && !IsWordChar(post[0])
    ensures Find("STATE:" + name + post, 0, StateWord) == Some(name)
  {
    var s := "STATE:" + name + post;
    assert s[0..6] == "STATE:";
    var e := 6 + |name|;
    assert s[e] == post[0];
    assert forall i :: 6 <= i < e ==> s[i] == name[i - 6];
    assert WordEnd(s, 6) == e;
    assert s[6..e] == name;
  }

  /** The key cannot match before `|pre|` when character `q` of the key
      occurs neither in `pre` nor earlier in the key. */
  lemma FieldNotBefore(pre: string, key: string, q: nat, rest: string)
    requires q < |key| && Lacks(pre, key[q]) && forall j :: 0 <= j < q ==> key[j] != key[q]
    ensures forall j :: 0 <= j < |pre| ==> MatchAt(pre + key + rest, j, Field(key)).None?
  {
    var s := pre + key + rest;
    forall j | 0 <= j < |pre|
      ensures !StartsAt(s, j, key)
    {
      if j + q < |pre| {
        assert s[j + q] == pre[j + q];
      } else {
        assert s[j + q] == key[j + q - |pre|];
      }
      assert s[j..j + |key|][q] == s[j + q];
    }
  }

  /** A match of `/<key>\s*=\s*(\d+)/` at `a`, described by positions: the
      key, "=" at j, white space up to k, digits up to e, then no digit. */
  lemma MatchesField(s: string, a: nat, key: string, k: nat, e: nat)
    requires a + |key| < k < e <= |s| && s[a..a + |key|] == key && s[a + |key|] == '='
    requires forall i :: a + |key| + 1 <= i < k ==> IsSpace(s[i])
    requires forall i :: k <= i < e ==> IsDigit(s[i])
    requires e < |s| ==> !IsDigit(s[e])
    ensures MatchAt(s, a, Field(key)) == Some(s[k..e])
  {
    var j := a + |key|;
    assert SkipSpaces(s, j) == j;
    assert IsDigit(s[k]) && !IsSpace(s[k]);
    assert SkipSpaces(s, j + 1) == k;
    assert DigitEnd(s, k) == e;
  }

  /** The key, "=", white space and the digits of `n`, then a non-digit. */
  lemma FieldMatches(pre: string, key: string, pad: string, n: nat, post: string)
    requires forall i :: 0 <= i < |pad| ==> pad[i] == ' '
    requires |post| > 0 && !IsDigit(post[0])
    ensures MatchAt(pre + key + ("=" + pad + Digits(n) + post), |pre|, Field(key)) == Some(Digits(n))
  {
    var d := Digits(n);
    var tail := "=" + pad + d + post;
    var s := pre + key + tail;
    var a := |pre|;
    var j := a + |key|;
    var k := j + 1 + |pad|;
    var e := k + |d|;
    assert s[a..j] == key;
    assert tail[0] == '=' && tail[1 + |pad|] == d[0] && tail[1 + |pad| + |d|] == post[0];
    assert forall i :: 1 <= i < 1 + |pad| ==> tail[i] == pad[i - 1];
    assert forall i :: 1 + |pad| <= i < 1 + |pad| + |d| ==> tail[i] == d[i - 1 - |pad|];
    assert forall i :: j <= i < |s| ==> s[i] == tail[i - j];
    assert s[k..e] == d;
    MatchesField(s, a, key, k, e);
  }

  /** `/<key>\s*=\s*(\d+)/` on a line where `key` first appears after `pre`,
      followed by "=", white space and the digits of `n`. */
  lemma FieldReads(pre: string, key: string, q: nat, pad: string, n: nat, post: string)
    requires q < |key| && Lacks(pre, key[q]) && forall j :: 0 <= j < q ==> key[j] != key[q]
    requires forall i :: 0 <= i < |pad| ==> pad[i] == ' '
    requires |post| > 0 && !IsDigit(post[0])
    ensures Find(pre + key + "=" + pad + Digits(n) + post, 0, Field(key)) == Some(Digits(n))
  {
    var s := pre + key + "=" + pad + Digits(n) + post;
    Regroup4(pre + key, "=", pad, Digits(n), post);
    FieldNotBefore(pre, key, q, "=" + pad + Digits(n) + post);
    FieldMatches(pre, key, pad, n, post);
    FindFirst(s, |pre|, Field(key));
  }

  lemma Regroup4(a: string, b: string, c: string, d: string, e: string)
    ensures a + b + c + d + e == a + (b + c + d + e)
  {
  }

  /** A report as its head `a + b` and everything after it. */
  lemma RegroupTail(a: string, b: string, c: string, d: string, e: string, f: string, g: string)
    ensures a + b + c + d + e + f + g == a + b + (c + d + e + f + g)
  {
  }

  /** The shape of a report around its last field `x k q`: `a`, the text
      before it, then the field's padded digits `p + d`, then `u`. */
  lemma RegroupLast(a: string, x: string, k: string, q: string, p: string, d: string, u: string)
    ensures a + (x + k + q) + (p + d) + u == a + x + k + q + p + d + u
  {
  }

  /** The same with two more pieces `w`, `v` after the field. */
  lemma RegroupInner(a: string, x: string, k: string, q: string, p: string, d: string, w: string, v: string, u: string)
    ensures a + (x + k + q) + (p + d) + w + v + u == a + x + k + q + p + d + (w + v + u)
  {
  }

  /** A line without a line feed, then "\r\n" and nothing else, frames to
      that one line. */
  lemma FrameLine(l: string)
    requires forall i :: 0 <= i < |l| ==> l[i] != '\n'
    ensures Frame(l + "\r\n") == ([l], "")
  {
    SplitLine(l, "");
    assert l + "\r\n" + "" == l + "\r\n";
    assert Split("") == [""];
  }

  lemma FeedOne(t: Telemetry, l: string)
    requires !IsBlank(l)
    ensures Feed(t, [l]) == Parsed(t, l)
  {
    assert [l][..0] == [];
  }

  /** A report line of the firmware arrives as its text, then "\r\r\n":
      with nothing pending, the host parses the text with one carriage
      return left at its end and keeps nothing pending. */
  lemma LineReceived(t: Telemetry, body: string)
    requires forall i :: 0 <= i < |body| ==> body[i] != '\n'
    requires !IsBlank(body + "\r")
    ensures Receive("", t, body + "\r\r\n") == ("", Parsed(t, body + "\r"))
  {
    var l := body + "\r";
    assert forall i :: 0 <= i < |l| ==> l[i] != '\n';
    assert "" + (body + "\r\r\n") == l + "\r\n";
    FrameLine(l);
    FeedOne(t, l);
  }

  /** The SCAN report as the host sees it: the text of the firmware's SCAN
      printf with the carriage return the UART adds. */
  function ScanSeen(st: RobotState, angle: u8, dist: u16): string {
    "STATE:" + StateToStr(st) + " | angle=" + Padded(angle, 3) + " | dist=" + Padded(dist, 3) + " cm\r"
  }

  /** "STATE:", a state name and a separator lack what all three lack. */
  lemma HeadLacks(st: RobotState, sep: string, c: char)
    requires NoName(c) && Lacks("STATE:", c) && Lacks(sep, c)
    ensures Lacks("STATE:" + StateToStr(st) + sep, c)
  {
    NameChars(st);
    LacksConcat("STATE:", StateToStr(st), c);
    LacksConcat("STATE:" + StateToStr(st), sep, c);
  }

  lemma {:induction false} ScanLacks(st: RobotState, angle: u8, dist: u16, c: char)
    requires NoName(c) && c != ' ' && !IsDigit(c)
    requires Lacks("STATE:", c) && Lacks(" | angle=", c) && Lacks(" | dist=", c) && Lacks(" cm\r", c)
    ensures Lacks(ScanSeen(st, angle, dist), c)
  {
    HeadLacks(st, " | angle=", c);
    PaddedLacks(angle, c);
    PaddedLacks(dist, c);
    var h := "STATE:" + StateToStr(st) + " | angle=";
    LacksConcat(h, Padded(angle, 3), c);
    LacksConcat(h + Padded(angle, 3), " | dist=", c);
    LacksConcat(h + Padded(angle, 3) + " | dist=", Padded(dist, 3), c);
    LacksConcat(h + Padded(angle, 3) + " | dist=" + Padded(dist, 3), " cm\r", c);
  }

  lemma {:induction false} ScanFindsState(st: RobotState, angle: u8, dist: u16)
    ensures Find(ScanSeen(st, angle, dist), 0, StateWord) == Some(StateToStr(st))
  {
    var post := " | angle=" + Padded(angle, 3) + " | dist=" + Padded(dist, 3) + " cm\r";
    NameChars(st);
    RegroupTail("STATE:", StateToStr(st), " | angle=", Padded(angle, 3), " | dist=", Padded(dist, 3), " cm\r");
    StateReads(StateToStr(st), post);
  }

  lemma {:induction false} ScanFindsAngle(st: RobotState, angle: u8, dist: u16)
    ensures Find(ScanSeen(st, angle, dist), 0, Field("angle")) == Some(Digits(angle))
  {
    var head := "STATE:" + StateToStr(st);
    var pad := PaddedChars(angle);
    assert " | angle=" == " | " + "angle" + "=";
    RegroupInner(head, " | ", "angle", "=", pad, Digits(angle), " | dist=", Padded(dist, 3), " cm\r");
    HeadLacks(st, " | ", 'a');
    FieldReads(head + " | ", "angle", 0, pad, angle, " | dist=" + Padded(dist, 3) + " cm\r");
  }

  lemma {:induction false} ScanFindsDist(st: RobotState, angle: u8, dist: u16)
    ensures Find(ScanSeen(st, angle, dist), 0, Field("dist")) == Some(Digits(dist))
  {
    var head := "STATE:" + StateToStr(st) + " | angle=" + Padded(angle, 3);
    var pad := PaddedChars(dist);
    assert " | dist=" == " | " + "dist" + "=";
    RegroupLast(head, " | ", "dist", "=", pad, Digits(dist), " cm\r");
    HeadLacks(st, " | angle=", 'd');
    PaddedLacks(angle, 'd');
    LacksConcat("STATE:" + StateToStr(st) + " | angle=", Padded(angle, 3), 'd');
    LacksConcat(head, " | ", 'd');
    FieldReads(head + " | ", "dist", 0, pad, dist, " cm\r");
  }

  /** A report without "_", "U" or "P" has neither minimum nor mode word. */
  lemma NoMinNoMode(line: string)
    requires Lacks(line, '_') && Lacks(line, 'U') && Lacks(line, 'P')
    ensures Find(line, 0, Field("min_angle")).None? && Find(line, 0, Field("min_dist")).None?
    ensures !Includes(line, "AUTO MODE") && !Includes(line, "MANUAL:") && !Includes(line, "STOP")
  {
    Absent(line, "min_angle", 3);
    Absent(line, "min_dist", 3);
    FindAbsent(line, Field("min_angle"));
    FindAbsent(line, Field("min_dist"));
    Absent(line, "AUTO MODE", 1);
    Absent(line, "MANUAL:", 3);
    Absent(line, "STOP", 3);
  }

  /** Neither minimum nor any mode word occurs in a SCAN report. */
  lemma {:induction false} ScanFindsNoMore(st: RobotState, angle: u8, dist: u16)
    ensures var line := ScanSeen(st, angle, dist);
      && Find(line, 0, Field("min_angle")).None? && Find(line, 0, Field("min_dist")).None?
      && !Includes(line, "AUTO MODE") && !Includes(line, "MANUAL:") && !Includes(line, "STOP")
  {
    ScanLacks(st, angle, dist, '_');
    ScanLacks(st, angle, dist, 'U');
    ScanLacks(st, angle, dist, 'P');
    NoMinNoMode(ScanSeen(st, angle, dist));
  }

  /** A report as the firmware prints it, text then "\r\n", reaches an idle
      host as "\r\r\n" after the text and is parsed with the carriage return
      left at its end. */
  lemma ReportReceived(t: Telemetry, body: string)
    requires |body| > 0 && body[0] == 'S' && Lacks(body, '\n')
    ensures Receive("", t, Control.Wire(body + "\r\n")) == ("", Parsed(t, body + "\r"))
  {
    Control.WireLine(body);
    assert !IsSpace((body + "\r")[0]);
    LineReceived(t, body);
  }

  /** What the host learns from a SCAN report: the state name, the angle and
      the distance, and the radar point when the angle is in the sweep. */
  lemma {:induction false} ScanRead(t: Telemetry, st: RobotState, angle: u8, dist: u16)
    ensures Parsed(t, ScanSeen(st, angle, dist)) ==
      t.(status := t.status.(state := StateToStr(st)), currentAngle := angle, currentDistance := dist,
         radar := if InSweep(angle) then t.radar[angle := dist] else t.radar)
  {
    var line := ScanSeen(st, angle, dist);
    ScanFindsState(st, angle, dist);
    ScanFindsAngle(st, angle, dist);
    ScanFindsDist(st, angle, dist);
    ScanFindsNoMore(st, angle, dist);
    ValueDigits(angle);
    ValueDigits(dist);
  }

  /** The SCAN line the firmware prints, as the host parses it. */
  lemma {:induction false} ScanReportRead(t: Telemetry, st: RobotState, angle: u8, dist: u16)
    ensures Receive("", t, Control.Wire(Control.ScanLine(st, angle, dist))) ==
      ("", t.(status := t.status.(state := StateToStr(st)), currentAngle := angle, currentDistance := dist,
              radar := if InSweep(angle) then t.radar[angle := dist] else t.radar))
  {
    var body := "STATE:" + StateToStr(st) + " | angle=" + Padded(angle, 3) + " | dist=" + Padded(dist, 3) + " cm";
    assert Control.ScanLine(st, angle, dist) == body + "\r\n";
    assert ScanSeen(st, angle, dist) == body + "\r";
    ScanLacks(st, angle, dist, '\n');
    assert forall i :: 0 <= i < |body| ==> body[i] == ScanSeen(st, angle, dist)[i];
    ReportReceived(t, body);
    ScanRead(t, st, angle, dist);
  }

  /** The example SCAN line of server.js's comment, as it arrives with the
      carriage return of the UART. */
  lemma ExampleScan(t: Telemetry)
    ensures Parsed(t, "STATE:SCAN | angle= 30 | dist= 45 cm\r") ==
      t.(status := t.status.(state := "SCAN"), currentAngle := 30, currentDistance := 45, radar := t.radar[30 := 45])
  {
    ExampleSeen();
    ScanRead(t, Scan, 30, 45);
  }

  lemma ExampleSeen()
    ensures ScanSeen(Scan, 30, 45) == "STATE:SCAN | angle= 30 | dist= 45 cm\r"
  {
    PaddedExample(30, " 30");
    PaddedExample(45, " 45");
    assert "STATE:" + "SCAN" == "STATE:SCAN";
    assert "STATE:SCAN" + " | angle=" == "STATE:SCAN | angle=";
    assert "STATE:SCAN | angle=" + " 30" == "STATE:SCAN | angle= 30";
    assert "STATE:SCAN | angle= 30" + " | dist=" == "STATE:SCAN | angle= 30 | dist=";
    assert "STATE:SCAN | angle= 30 | dist=" + " 45" == "STATE:SCAN | angle= 30 | dist= 45";
  }

  lemma PaddedExample(n: nat, p: string)
    requires 10 <= n < 100 && p == [' ', (48 + n / 10) as char, (48 + n % 10) as char]
    ensures Padded(n, 3) == p
  {
    assert Digits(n / 10) == [(48 + n / 10) as char];
    assert Digits(n) == p[1..];
  }

  /** The DECIDE report as the host sees it. */
  function DecideSeen(st: RobotState, minAngle: u8, minDist: u16): string {
    "STATE:" + StateToStr(st) + " | min_angle=" + Digits(minAngle) + " | min_dist=" + Digits(minDist) + " cm\r"
  }

  lemma {:induction false} DecideLacks(st: RobotState, minAngle: u8, minDist: u16, c: char)
    requires NoName(c) && !IsDigit(c)
    requires Lacks("STATE:", c) && Lacks(" | min_angle=", c) && Lacks(" | min_dist=", c) && Lacks(" cm\r", c)
    ensures Lacks(DecideSeen(st, minAngle, minDist), c)
  {
    HeadLacks(st, " | min_angle=", c);
    DigitsLacks(minAngle, c);
    DigitsLacks(minDist, c);
    var h := "STATE:" + StateToStr(st) + " | min_angle=";
    LacksConcat(h, Digits(minAngle), c);
    LacksConcat(h + Digits(minAngle), " | min_dist=", c);
    LacksConcat(h + Digits(minAngle) + " | min_dist=", Digits(minDist), c);
    LacksConcat(h + Digits(minAngle) + " | min_dist=" + Digits(minDist), " cm\r", c);
  }

  lemma {:induction false} DecideFindsState(st: RobotState, minAngle: u8, minDist: u16)
    ensures Find(DecideSeen(st, minAngle, minDist), 0, StateWord) == Some(StateToStr(st))
  {
    var post := " | min_angle=" + Digits(minAngle) + " | min_dist=" + Digits(minDist) + " cm\r";
    NameChars(st);
    RegroupTail("STATE:", StateToStr(st), " | min_angle=", Digits(minAngle), " | min_dist=", Digits(minDist), " cm\r");
    StateReads(StateToStr(st), post);
  }

  /** `/angle\s*=\s*(\d+)/` first matches inside "min_angle". */
  lemma {:induction false} DecideFindsAngle(st: RobotState, minAngle: u8, minDist: u16)
    ensures Find(DecideSeen(st, minAngle, minDist), 0, Field("angle")) == Some(Digits(minAngle))
  {
    var head := "STATE:" + StateToStr(st);
    assert " | min_angle=" == " | min_" + "angle" + "=";
    assert "" + Digits(minAngle) == Digits(minAngle);
    RegroupInner(head, " | min_", "angle", "=", "", Digits(minAngle), " | min_dist=", Digits(minDist), " cm\r");
    HeadLacks(st, " | min_", 'a');
    FieldReads(head + " | min_", "angle", 0, "", minAngle, " | min_dist=" + Digits(minDist) + " cm\r");
  }

  /** `/dist\s*=\s*(\d+)/` matches inside "min_dist". */
  lemma {:induction false} DecideFindsDist(st: RobotState, minAngle: u8, minDist: u16)
    ensures Find(DecideSeen(st, minAngle, minDist), 0, Field("dist")) == Some(Digits(minDist))
  {
    var head := "STATE:" + StateToStr(st) + " | min_angle=" + Digits(minAngle);
    assert " | min_dist=" == " | min_" + "dist" + "=";
    assert "" + Digits(minDist) == Digits(minDist);
    RegroupLast(head, " | min_", "dist", "=", "", Digits(minDist), " cm\r");
    HeadLacks(st, " | min_angle=", 'd');
    DigitsLacks(minAngle, 'd');
    LacksConcat("STATE:" + StateToStr(st) + " | min_angle=", Digits(minAngle), 'd');
    LacksConcat(head, " | min_", 'd');
    FieldReads(head + " | min_", "dist", 0, "", minDist, " cm\r");
  }

  lemma {:induction false} DecideFindsMinAngle(st: RobotState, minAngle: u8, minDist: u16)
    ensures Find(DecideSeen(st, minAngle, minDist), 0, Field("min_angle")) == Some(Digits(minAngle))
  {
    var head := "STATE:" + StateToStr(st);
    assert " | min_angle=" == " | " + "min_angle" + "=";
    assert "" + Digits(minAngle) == Digits(minAngle);
    RegroupInner(head, " | ", "min_angle", "=", "", Digits(minAngle), " | min_dist=", Digits(minDist), " cm\r");
    HeadLacks(st, " | ", 'm');
    FieldReads(head + " | ", "min_angle", 0, "", minAngle, " | min_dist=" + Digits(minDist) + " cm\r");
  }

  /** "min_dist" cannot start before its place: its "d" occurs nowhere
      earlier. */
  lemma {:induction false} DecideFindsMinDist(st: RobotState, minAngle: u8, minDist: u16)
    ensures Find(DecideSeen(st, minAngle, minDist), 0, Field("min_dist")) == Some(Digits(minDist))
  {
    var head := "STATE:" + StateToStr(st) + " | min_angle=" + Digits(minAngle);
    assert " | min_dist=" == " | " + "min_dist" + "=";
    assert "" + Digits(minDist) == Digits(minDist);
    RegroupLast(head, " | ", "min_dist", "=", "", Digits(minDist), " cm\r");
    HeadLacks(st, " | min_angle=", 'd');
    DigitsLacks(minAngle, 'd');
    LacksConcat("STATE:" + StateToStr(st) + " | min_angle=", Digits(minAngle), 'd');
    LacksConcat(head, " | ", 'd');
    FieldReads(head + " | ", "min_dist", 4, "", minDist, " cm\r");
  }

  lemma {:induction false} DecideNoMode(st: RobotState, minAngle: u8, minDist: u16)
    ensures var line := DecideSeen(st, minAngle, minDist);
      !Includes(line, "AUTO MODE") && !Includes(line, "MANUAL:") && !Includes(line, "STOP")
  {
    var line := DecideSeen(st, minAngle, minDist);
    DecideLacks(st, minAngle, minDist, 'U');
    DecideLacks(st, minAngle, minDist, 'P');
    Absent(line, "AUTO MODE", 1);
    Absent(line, "MANUAL:", 3);
    Absent(line, "STOP", 3);
  }

  /** What the host learns from a DECIDE report. Besides the state and the
      minimum, the angle and distance patterns match inside "min_angle" and
      "min_dist": the minimum becomes the current reading and is plotted on
      the radar when it is in the sweep. */
  lemma {:induction false} DecideRead(t: Telemetry, st: RobotState, minAngle: u8, minDist: u16)
    ensures Parsed(t, DecideSeen(st, minAngle, minDist)) ==
      t.(status := t.status.(state := StateToStr(st)), currentAngle := minAngle, currentDistance := minDist,
         radar := (if InSweep(minAngle) then t.radar[minAngle := minDist] else t.radar),
         minAngle := minAngle, minDistance := minDist)
  {
    DecideFindsState(st, minAngle, minDist);
    DecideFindsAngle(st, minAngle, minDist);
    DecideFindsDist(st, minAngle, minDist);
    DecideFindsMinAngle(st, minAngle, minDist);
    DecideFindsMinDist(st, minAngle, minDist);
    DecideNoMode(st, minAngle, minDist);
    ValueDigits(minAngle);
    ValueDigits(minDist);
  }

  /** The DECIDE line the firmware prints, as the host parses it. */
  lemma {:induction false} DecideReportRead(t: Telemetry, st: RobotState, minAngle: u8, minDist: u16)
    ensures Receive("", t, Control.Wire(Control.DecideLine(st, minAngle, minDist))) ==
      ("", t.(status := t.status.(state := StateToStr(st)), currentAngle := minAngle, currentDistance := minDist,
              radar := (if InSweep(minAngle) then t.radar[minAngle := minDist] else t.radar),
              minAngle := minAngle, minDistance := minDist))
  {
    var body := "STATE:" + StateToStr(st) + " | min_angle=" + Digits(minAngle) + " | min_dist=" + Digits(minDist) + " cm";
    assert Control.DecideLine(st, minAngle, minDist) == body + "\r\n";
    assert DecideSeen(st, minAngle, minDist) == body + "\r";
    DecideLacks(st, minAngle, minDist, '\n');
    assert forall i :: 0 <= i < |body| ==> body[i] == DecideSeen(st, minAngle, minDist)[i];
    ReportReceived(t, body);
    DecideRead(t, st, minAngle, minDist);
  }

  /** The MOVE report as the host sees it. */
  function MoveSeen(st: RobotState): string {
    "STATE:" + StateToStr(st) + " | FORWARD\r"
  }

  /** The characters the MOVE report's tail lacks. */
  lemma ForwardLacks()
    ensures forall c :: c in "ad_UP\n" ==> Lacks(" | FORWARD\r", c)
  {
  }

  lemma {:induction false} MoveFindsState(st: RobotState)
    ensures Find(MoveSeen(st), 0, StateWord) == Some(StateToStr(st))
  {
    NameChars(st);
    StateReads(StateToStr(st), " | FORWARD\r");
  }

  lemma {:induction false} MoveFindsNoField(st: RobotState)
    ensures Find(MoveSeen(st), 0, Field("angle")).None? && Find(MoveSeen(st), 0, Field("dist")).None?
  {
    var line := MoveSeen(st);
    ForwardLacks();
    HeadLacks(st, " | FORWARD\r", 'a');
    HeadLacks(st, " | FORWARD\r", 'd');
    Absent(line, "angle", 0);
    Absent(line, "dist", 0);
    FindAbsent(line, Field("angle"));
    FindAbsent(line, Field("dist"));
  }

  lemma {:induction false} MoveNoMore(st: RobotState)
    ensures var line := MoveSeen(st);
      && Find(line, 0, Field("min_angle")).None? && Find(line, 0, Field("min_dist")).None?
      && !Includes(line, "AUTO MODE") && !Includes(line, "MANUAL:") && !Includes(line, "STOP")
  {
    ForwardLacks();
    HeadLacks(st, " | FORWARD\r", '_');
    HeadLacks(st, " | FORWARD\r", 'U');
    HeadLacks(st, " | FORWARD\r", 'P');
    NoMinNoMode(MoveSeen(st));
  }

  /** A MOVE report only names the state: "FORWARD" appears without
      "MANUAL:", so the direction is not touched. */
  lemma {:induction false} MoveRead(t: Telemetry, st: RobotState)
    ensures Parsed(t, MoveSeen(st)) == t.(status := t.status.(state := StateToStr(st)))
  {
    MoveFindsState(st);
    MoveFindsNoField(st);
    MoveNoMore(st);
  }

  lemma {:induction false} MoveReportRead(t: Telemetry, st: RobotState)
    ensures Receive("", t, Control.Wire(Control.MoveLine(st))) == ("", t.(status := t.status.(state := StateToStr(st))))
  {
    var body := "STATE:" + StateToStr(st) + " | FORWARD";
    assert Control.MoveLine(st) == body + "\r\n";
    assert MoveSeen(st) == body + "\r";
    ForwardLacks();
    HeadLacks(st, " | FORWARD\r", '\n');
    assert forall i :: 0 <= i < |body| ==> body[i] == MoveSeen(st)[i];
    ReportReceived(t, body);
    MoveRead(t, st);
  }

  /** A line lacking ':' or 'S', 'a', 'i' and '_' has none of the five
      patterns. */
  lemma NoFields(line: string)
    requires Lacks(line, ':') || Lacks(line, 'S')
    requires Lacks(line, 'a') && Lacks(line, 'i') && Lacks(line, '_')
    ensures Find(line, 0, StateWord).None? && Find(line, 0, Field("angle")).None?
    ensures Find(line, 0, Field("dist")).None?
    ensures Find(line, 0, Field("min_angle")).None? && Find(line, 0, Field("min_dist")).None?
  {
    if Lacks(line, ':') {
      Absent(line, "STATE:", 5);
    } else {
      Absent(line, "STATE:", 0);
    }
    Absent(line, "angle", 0);
    Absent(line, "dist", 1);
    Absent(line, "min_angle", 3);
    Absent(line, "min_dist", 3);
    FindAbsent(line, StateWord);
    FindAbsent(line, Field("angle"));
    FindAbsent(line, Field("dist"));
    FindAbsent(line, Field("min_angle"));
    FindAbsent(line, Field("min_dist"));
  }

  /** A line without any of the patterns only touches the mode. */
  lemma OnlyModed(t: Telemetry, line: string)
    requires Find(line, 0, StateWord).None? && Find(line, 0, Field("angle")).None?
    requires Find(line, 0, Field("dist")).None?
    requires Find(line, 0, Field("min_angle")).None? && Find(line, 0, Field("min_dist")).None?
    ensures Parsed(t, line) == t.(status := Moded(t.status, line))
  {
  }

  /** The characters and words of the replies, one reply at a time. */
  lemma AutoText()
    ensures var l := "AUTO MODE START\r";
      Lacks(l, ':') && Lacks(l, 'a') && Lacks(l, 'i') && Lacks(l, '_') && Includes(l, "AUTO MODE")
  {
    assert StartsAt("AUTO MODE START\r", 0, "AUTO MODE");
  }

  lemma StopText()
    ensures var l := "STOP\r";
      Lacks(l, ':') && Lacks(l, 'a') && Lacks(l, 'i') && Lacks(l, '_')
      && !Includes(l, "AUTO MODE") && !Includes(l, "MANUAL:") && Includes(l, "STOP")
  {
    Absent("STOP\r", "AUTO MODE", 1);
    Absent("STOP\r", "MANUAL:", 0);
    assert StartsAt("STOP\r", 0, "STOP");
  }

  lemma ForwardText()
    ensures var l := "MANUAL: FORWARD\r";
      Lacks(l, 'S') && Lacks(l, 'a') && Lacks(l, 'i') && Lacks(l, '_')
      && !Includes(l, "AUTO MODE") && Includes(l, "MANUAL:") && Includes(l, "FORWARD")
  {
    Absent("MANUAL: FORWARD\r", "AUTO MODE", 2);
    assert StartsAt("MANUAL: FORWARD\r", 0, "MANUAL:") && StartsAt("MANUAL: FORWARD\r", 8, "FORWARD");
  }

  lemma BackwardText()
    ensures var l := "MANUAL: BACKWARD\r";
      Lacks(l, 'S') && Lacks(l, 'a') && Lacks(l, 'i') && Lacks(l, '_')
      && !Includes(l, "AUTO MODE") && Includes(l, "MANUAL:") && !Includes(l, "FORWARD") && Includes(l, "BACKWARD")
  {
    Absent("MANUAL: BACKWARD\r", "AUTO MODE", 2);
    Absent("MANUAL: BACKWARD\r", "FORWARD", 0);
    assert StartsAt("MANUAL: BACKWARD\r", 0, "MANUAL:") && StartsAt("MANUAL: BACKWARD\r", 8, "BACKWARD");
  }

  lemma LeftText()
    ensures var l := "MANUAL: LEFT\r";
      Lacks(l, 'S') && Lacks(l, 'a') && Lacks(l, 'i') && Lacks(l, '_')
      && !Includes(l, "AUTO MODE") && Includes(l, "MANUAL:") && !Includes(l, "FORWARD")
      && !Includes(l, "BACKWARD") && Includes(l, "LEFT")
  {
    Absent("MANUAL: LEFT\r", "AUTO MODE", 3);
    Absent("MANUAL: LEFT\r", "FORWARD", 1);
    Absent("MANUAL: LEFT\r", "BACKWARD", 0);
    assert StartsAt("MANUAL: LEFT\r", 0, "MANUAL:") && StartsAt("MANUAL: LEFT\r", 8, "LEFT");
  }

  lemma RightText()
    ensures var l := "MANUAL: RIGHT\r";
      Lacks(l, 'S') && Lacks(l, 'a') && Lacks(l, 'i') && Lacks(l, '_')
      && !Includes(l, "AUTO MODE") && Includes(l, "MANUAL:") && !Includes(l, "FORWARD")
      && !Includes(l, "BACKWARD") && !Includes(l, "LEFT") && Includes(l, "RIGHT")
  {
    Absent("MANUAL: RIGHT\r", "AUTO MODE", 3);
    Absent("MANUAL: RIGHT\r", "FORWARD", 0);
    Absent("MANUAL: RIGHT\r", "BACKWARD", 0);
    Absent("MANUAL: RIGHT\r", "LEFT", 1);
    assert StartsAt("MANUAL: RIGHT\r", 0, "MANUAL:") && StartsAt("MANUAL: RIGHT\r", 8, "RIGHT");
  }

  lemma ResetText()
    ensures var l := "SERVO RESET (90 deg)\r";
      Lacks(l, ':') && Lacks(l, 'a') && Lacks(l, 'i') && Lacks(l, '_')
      && !Includes(l, "AUTO MODE") && !Includes(l, "MANUAL:") && !Includes(l, "STOP")
  {
    Absent("SERVO RESET (90 deg)\r", "AUTO MODE", 1);
    Absent("SERVO RESET (90 deg)\r", "MANUAL:", 1);
    Absent("SERVO RESET (90 deg)\r", "STOP", 3);
  }

  lemma AutoHeard(t: Telemetry)
    ensures Parsed(t, "AUTO MODE START\r") == t.(status := t.status.(mode := "AUTO", direction := "AUTO"))
  {
    AutoText();
    NoFields("AUTO MODE START\r");
    OnlyModed(t, "AUTO MODE START\r");
  }

  lemma StopHeard(t: Telemetry)
    ensures Parsed(t, "STOP\r") == t.(status := t.status.(direction := "STOP", mode := "MANUAL"))
  {
    StopText();
    NoFields("STOP\r");
    OnlyModed(t, "STOP\r");
  }

  lemma ForwardHeard(t: Telemetry)
    ensures Parsed(t, "MANUAL: FORWARD\r") == t.(status := t.status.(mode := "MANUAL", direction := "FORWARD"))
  {
    ForwardText();
    NoFields("MANUAL: FORWARD\r");
    OnlyModed(t, "MANUAL: FORWARD\r");
  }

  lemma BackwardHeard(t: Telemetry)
    ensures Parsed(t, "MANUAL: BACKWARD\r") == t.(status := t.status.(mode := "MANUAL", direction := "BACKWARD"))
  {
    BackwardText();
    NoFields("MANUAL: BACKWARD\r");
    OnlyModed(t, "MANUAL: BACKWARD\r");
  }

  lemma LeftHeard(t: Telemetry)
    ensures Parsed(t, "MANUAL: LEFT\r") == t.(status := t.status.(mode := "MANUAL", direction := "LEFT"))
  {
    LeftText();
    NoFields("MANUAL: LEFT\r");
    OnlyModed(t, "MANUAL: LEFT\r");
  }

  lemma RightHeard(t: Telemetry)
    ensures Parsed(t, "MANUAL: RIGHT\r") == t.(status := t.status.(mode := "MANUAL", direction := "RIGHT"))
  {
    RightText();
    NoFields("MANUAL: RIGHT\r");
    OnlyModed(t, "MANUAL: RIGHT\r");
  }

  /** The reply to 'r' matches nothing: the host keeps its telemetry. */
  lemma ResetHeard(t: Telemetry)
    ensures Parsed(t, "SERVO RESET (90 deg)\r") == t
  {
    ResetText();
    NoFields("SERVO RESET (90 deg)\r");
    OnlyModed(t, "SERVO RESET (90 deg)\r");
  }

  /** What the host records from the firmware's reply to each command. */
  lemma ReplyRead(t: Telemetry, c: u8)
    ensures Control.Key(c, 't') ==> Parsed(t, Control.Reply(c) + "\r") == t.(status := t.status.(mode := "AUTO", direction := "AUTO"))
    ensures !Control.Key(c, 't') && Control.Key(c, 'x') ==>
      Parsed(t, Control.Reply(c) + "\r") == t.(status := t.status.(mode := "MANUAL", direction := "STOP"))
    ensures !Control.Key(c, 't') && !Control.Key(c, 'x') && Control.Key(c, 'w') ==>
      Parsed(t, Control.Reply(c) + "\r") == t.(status := t.status.(mode := "MANUAL", direction := "FORWARD"))
    ensures !Control.Key(c, 't') && !Control.Key(c, 'x') && !Control.Key(c, 'w') && Control.Key(c, 's') ==>
      Parsed(t, Control.Reply(c) + "\r") == t.(status := t.status.(mode := "MANUAL", direction := "BACKWARD"))
    ensures Control.Key(c, 'a') ==>
      Parsed(t, Control.Reply(c) + "\r") == t.(status := t.status.(mode := "MANUAL", direction := "LEFT"))
    ensures Control.Key(c, 'd') ==>
      Parsed(t, Control.Reply(c) + "\r") == t.(status := t.status.(mode := "MANUAL", direction := "RIGHT"))
    ensures Control.Key(c, 'r') ==> Parsed(t, Control.Reply(c) + "\r") == t
  {
    var r := Control.Reply(c);
    if Control.Key(c, 't') {
      assert r + "\r" == "AUTO MODE START\r";
      AutoHeard(t);
    } else if Control.Key(c, 'x') {
      assert r + "\r" == "STOP\r";
      StopHeard(t);
    } else if Control.Key(c, 'w') {
      assert r + "\r" == "MANUAL: FORWARD\r";
      ForwardHeard(t);
    } else if Control.Key(c, 's') {
      assert r + "\r" == "MANUAL: BACKWARD\r";
      BackwardHeard(t);
    } else if Control.Key(c, 'a') {
      assert r + "\r" == "MANUAL: LEFT\r";
      LeftHeard(t);
    } else if Control.Key(c, 'd') {
      assert r + "\r" == "MANUAL: RIGHT\r";
      RightHeard(t);
    } else if Control.Key(c, 'r') {
      assert r + "\r" == "SERVO RESET (90 deg)\r";
      ResetHeard(t);
    }
  }

  /** Every reply starts with a capital letter. */
  lemma ReplyNotBlank(c: u8)
    requires Control.IsCommand(c)
    ensures !IsBlank(Control.Reply(c) + "\r")
  {
    var r := Control.Reply(c);
    assert r[0] in "ASM";
    assert (r + "\r")[0] == r[0];
  }

  lemma DropPrefix(a: string, p: string, x: string, y: string)
    requires a == p + x + y
    ensures a[|p|..] == x + y
  {
  }

  /** The text a command adds to the UART, received by an idle host, is
      parsed as the reply line with nothing left pending. */
  lemma CommandHeard(w: Control.World, c: u8, now: u32, t: Telemetry)
    requires Tones.Inv(w.player) && Control.IsCommand(c)
    ensures var added := Control.Command(w, c, now).console[|w.console|..];
      Receive("", t, added) == ("", Parsed(t, Control.Reply(c) + "\r"))
  {
    Control.CommandReports(w, c, now);
    Control.ReplyOneLine(c);
    ReplyNotBlank(c);
    DropPrefix(Control.Command(w, c, now).console, w.console, Control.Reply(c), "\r\r\n");
    LineReceived(t, Control.Reply(c));
  }

  // ---------------------------------------------------------------- the monitor

  /** The report of getFullStatus: `status` spread out, then the radar
      variables. */
  datatype Report = Report(
    direction: string, mode: string, state: string, connected: bool, port: string, baudRate: int,
    radar: map<nat, nat>, currentAngle: nat, currentDistance: nat, minAngle: nat, minDistance: nat)

  /** The serial-side state of server.js: the pending text of the `data`
      handler and the telemetry it keeps. */
  class HostMonitor {
    var buffer: string
    var data: Telemetry

    constructor (baudRate: int)
      ensures buffer == "" && data == Boot(baudRate)
    {
      buffer := "";
      data := Boot(baudRate);
    }

    /** parseSTM32Response, one section after the other. */
    method ParseResponse(line: string)
      modifies this
      ensures buffer == old(buffer) && data == Parsed(old(data), line)
    {
      ReadState(line);
      ReadAngle(line);
      ReadDist(line);
      ReadMin(line);
      data := data.(status := Moded(data.status, line));
    }

    method ReadState(line: string)
      modifies this
      ensures buffer == old(buffer) && data == StateStep(old(data), line)
    {
      var stateMatch := Find(line, 0, StateWord);
      if stateMatch.Some? {
        data := data.(status := data.status.(state := stateMatch.value));
      }
    }

    method ReadAngle(line: string)
      modifies this
      ensures buffer == old(buffer) && data == AngleStep(old(data), line)
    {
      var angleMatch := Find(line, 0, Field("angle"));
      if angleMatch.Some? {
        data := data.(currentAngle := Value(angleMatch.value));
      }
    }

    method ReadDist(line: string)
      modifies this
      ensures buffer == old(buffer) && data == DistStep(old(data), line)
    {
      var distMatch := Find(line, 0, Field("dist"));
      if distMatch.Some? {
        data := data.(currentDistance := Value(distMatch.value));
        if data.currentAngle >= 30 && data.currentAngle <= 150 {
          data := data.(radar := data.radar[data.currentAngle := data.currentDistance]);
        }
      }
    }

    method ReadMin(line: string)
      modifies this
      ensures buffer == old(buffer) && data == MinStep(old(data), line)
    {
      var minAngleMatch := Find(line, 0, Field("min_angle"));
      var minDistMatch := Find(line, 0, Field("min_dist"));
      if minAngleMatch.Some? {
        data := data.(minAngle := Value(minAngleMatch.value));
      }
      if minDistMatch.Some? {
        data := data.(minDistance := Value(minDistMatch.value));
      }
    }

    /** The serial port's `data` handler. */
    method OnData(chunk: string)
      modifies this
      ensures (buffer, data) == Receive(old(buffer), old(data), chunk)
    {
      var text := buffer + chunk;
      var (lines, rest) := Frame(text);
      buffer := rest;
      var i := 0;
      while i < |lines|
        invariant 0 <= i <= |lines| && buffer == rest
        invariant data == Feed(old(data), lines[..i])
      {
        assert lines[..i + 1][..i] == lines[..i];
        if !IsBlank(lines[i]) {
          ParseResponse(lines[i]);
        }
        i := i + 1;
      }
      assert lines[..i] == lines;
    }

    /** getFullStatus: changes nothing. */
    method GetFullStatus() returns (r: Report)
      ensures r == Report(data.status.direction, data.status.mode, data.status.state, data.status.connected,
                          data.status.port, data.status.baudRate, data.radar, data.currentAngle,
                          data.currentDistance, data.minAngle, data.minDistance)
    {
      var s := data.status;
      r := Report(s.direction, s.mode, s.state, s.connected, s.port, s.baudRate,
                  data.radar, data.currentAngle, data.currentDistance, data.minAngle, data.minDistance);
    }
  }
}
