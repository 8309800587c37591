/** Extraction of the bundle's URL from the text of a JavaScript error stack
    (Environment.ScriptFileFromStack).

    The three regular expressions of the source are not executed here: the
    regex engine is a parameter (`Engine`). What the model keeps is the
    structure of each pattern. A successful match is represented by a parse
    witness (`Match`) that splits the stack text into the part before the
    capture, the capture itself (group 1, a `Token`), the `:line[:column]`
    suffix and the unmatched rest. An engine is `Sound` when every witness it
    returns really parses the stack according to the pattern, and `Complete`
    when it reports failure only if no such witness exists. */
module StackTrace {
  import opened Wrappers

  // ---------------------------------------------------------------------------
  // Character classes

  predicate IsDigit(c: char) { '0' <= c <= '9' }

  /** Characters that the regex `.` does not match. */
  predicate IsLineTerminator(c: char)
  {
    c == '\n' || c == '\r' || c == '\U{2028}' || c == '\U{2029}'
  }

  /** The characters matched by `\s`. */
  predicate IsSpace(c: char)
  {
    c == ' ' || c == '\t' || c == '\n' || c == '\r' || c == '\U{B}' || c == '\U{C}' ||
    c == '\U{A0}' || c == '\U{1680}' || ('\U{2000}' <= c <= '\U{200A}') ||
    c == '\U{2028}' || c == '\U{2029}' || c == '\U{202F}' || c == '\U{205F}' ||
    c == '\U{3000}' || c == '\U{FEFF}'
  }

  /** `s` is made of characters that `.` matches. */
  predicate SingleLine(s: string)
  {
    forall i :: 0 <= i < |s| ==> !IsLineTerminator(s[i])
  }

  /** `s` contains none of the characters of `excluded` (a negated class `[^...]`). */
  predicate Avoids(s: string, excluded: set<char>)
  {
    forall i :: 0 <= i < |s| ==> s[i] !in excluded
  }

  /** `\d+` */
  predicate IsNumber(s: string)
  {
    |s| > 0 && forall i :: 0 <= i < |s| ==> IsDigit(s[i])
  }

  // ---------------------------------------------------------------------------
  // Group 1: the URL-like token shared by all three patterns
  //   data:text\/javascript(?:;[^,]+)?,.+?
  //   | (?:|blob:)(?:http[s]?|file):\/\/[\/]?.+?\/[^:\)]*?

  const InlinePrefix: string := "data:text/javascript"

  datatype Scheme = Http | Https | File

  function SchemeText(scheme: Scheme): string
  {
    match scheme
    case Http => "http"
    case Https => "https"
    case File => "file"
  }

  datatype Token =
    | Inline(parameters: Option<string>, payload: string)
    | Remote(blob: bool, scheme: Scheme, rootSlash: bool, authority: string, file: string)

  predicate ValidToken(t: Token)
  {
    match t
    case Inline(parameters, payload) =>
      (parameters.Some? ==> |parameters.value| > 0 && Avoids(parameters.value, {','})) &&
      |payload| > 0 && SingleLine(payload)
    case Remote(_, _, _, authority, file) =>
      |authority| > 0 && SingleLine(authority) && Avoids(file, {':', ')'})
  }

  function TokenText(t: Token): string
  {
    match t
    case Inline(parameters, payload) =>
      InlinePrefix + (if parameters.Some? then ";" + parameters.value else "") + "," + payload
    case Remote(blob, scheme, rootSlash, authority, file) =>
      (if blob then "blob:" else "") + SchemeText(scheme) + "://" +
      (if rootSlash then "/" else "") + authority + "/" + file
  }

  // ---------------------------------------------------------------------------
  // The suffix `(?::\d+)(?::\d+)?` that follows group 1

  datatype Position = Position(line: string, column: Option<string>)

  predicate ValidPosition(p: Position)
  {
    IsNumber(p.line) && (p.column.Some? ==> IsNumber(p.column.value))
  }

  function PositionText(p: Position): string
  {
    ":" + p.line + (if p.column.Some? then ":" + p.column.value else "")
  }

  // ---------------------------------------------------------------------------
  // What precedes group 1

  datatype Separator = SpacedAt | AtSign

  function SeparatorText(sep: Separator): string
  {
    match sep
    case SpacedAt => " at "
    case AtSign => "@"
  }

  datatype Lead =
      /** unanchored search (line 104): whatever precedes the match */
    | Skipped(text: string)
      /** line 107, first alternative: the empty string */
    | Bare
      /** line 107, `[^:@]*@` */
    | FunctionAt(name: string)
      /** line 107, `.+\)@` (its lookahead is met by every token) */
    | CallAt(frame: string)
      /** line 107, `.+?\s+(?: at |@)(?:[^:\(]+ )*[\(]?` */
    | Frame(head: string, gap: string, sep: Separator, words: seq<string>, paren: bool)
      /** unanchored search for `\)@` (line 110): whatever precedes, then `)@` */
    | AfterCall(text: string)

  function WordsText(words: seq<string>): string
  {
    if words == [] then "" else words[0] + " " + WordsText(words[1..])
  }

  function LeadText(lead: Lead): string
  {
    match lead
    case Skipped(text) => text
    case Bare => ""
    case FunctionAt(name) => name + "@"
    case CallAt(frame) => frame + ")@"
    case Frame(head, gap, sep, words, paren) =>
      head + gap + SeparatorText(sep) + WordsText(words) + (if paren then "(" else "")
    case AfterCall(text) => text + ")@"
  }

  /** The four alternatives of the anchored prefix of line 107. */
  predicate AnchoredLead(lead: Lead)
  {
    match lead
    case Bare => true
    case FunctionAt(name) => Avoids(name, {':', '@'})
    case CallAt(frame) => |frame| > 0 && SingleLine(frame)
    case Frame(head, gap, _, words, _) =>
      |head| > 0 && SingleLine(head) &&
      |gap| > 0 && (forall i :: 0 <= i < |gap| ==> IsSpace(gap[i])) &&
      forall k :: 0 <= k < |words| ==> |words[k]| > 0 && Avoids(words[k], {':', '('})
    case _ => false
  }

  // ---------------------------------------------------------------------------
  // The three patterns and their matches

  /** The patterns of lines 104, 107 and 110, in the order they are tried. */
  datatype Pattern = Unanchored | Anchored | AfterParen

  function Rank(p: Pattern): nat
  {
    match p
    case Unanchored => 0
    case Anchored => 1
    case AfterParen => 2
  }

  predicate LeadFits(p: Pattern, lead: Lead)
  {
    match p
    case Unanchored => lead.Skipped?
    case Anchored => AnchoredLead(lead)
    case AfterParen => lead.AfterCall?
  }

  /** A parse of the stack text by one pattern; `token` is capture group 1. */
  datatype Match = Match(lead: Lead, token: Token, position: Position, rest: string)

  function MatchText(m: Match): string
  {
    LeadText(m.lead) + TokenText(m.token) + PositionText(m.position) + m.rest
  }

  predicate IsMatch(p: Pattern, stack: string, m: Match)
  {
    LeadFits(p, m.lead) && ValidToken(m.token) && ValidPosition(m.position) &&
    MatchText(m) == stack
  }

  /** The regex engine: `String.prototype.match` with one of the three patterns. */
  type Matcher = string -> Option<Match>

  datatype Engine = Engine(unanchored: Matcher, anchored: Matcher, afterParen: Matcher)
  {
    function Run(p: Pattern, stack: string): Option<Match>
    {
      match p
      case Unanchored => unanchored(stack)
      case Anchored => anchored(stack)
      case AfterParen => afterParen(stack)
    }

    /** Every match the engine reports parses the stack by its pattern. */
    ghost predicate Sound()
    {
      forall p, stack :: Run(p, stack).Some? ==> IsMatch(p, stack, Run(p, stack).value)
    }

    /** The engine reports no match only when the pattern has no parse of the stack. */
    ghost predicate Complete()
    {
      forall p, stack, m :: IsMatch(p, stack, m) ==> Run(p, stack).Some?
    }
  }

  // ---------------------------------------------------------------------------
  // ScriptFileFromStack (Environment.cs:102-118)

  /** Group 1 of the first of the three patterns that matches, or null. */
  function ScriptFileFromStack(stack: string, e: Engine): (r: Option<string>)
    ensures r.None? <==> forall p :: e.Run(p, stack).None?
    ensures forall p :: e.Run(p, stack).Some? &&
                        (forall q :: Rank(q) < Rank(p) ==> e.Run(q, stack).None?) ==>
                        r == Some(TokenText(e.Run(p, stack).value.token))
  {
    match e.Run(Unanchored, stack)
    case Some(m) => Some(TokenText(m.token))
    case None =>
      match e.Run(Anchored, stack)
      case Some(m) => Some(TokenText(m.token))
      case None =>
        match e.Run(AfterParen, stack)
        case Some(m) => Some(TokenText(m.token))
        case None => None
  }

  // ---------------------------------------------------------------------------
  // Shape of an extracted URL

  /** `data:text/javascript`, or an optional `blob:` then `http://`, `https://` or `file://`. */
  predicate UrlLike(s: string)
  {
    InlinePrefix <= s ||
    "http://" <= s || "https://" <= s || "file://" <= s ||
    "blob:http://" <= s || "blob:https://" <= s || "blob:file://" <= s
  }

  /** `v` occurs in `stack` at index `i` and is immediately followed by `:` and a digit. */
  predicate FollowedByPosition(stack: string, i: nat, v: string)
  {
    i + |v| + 2 <= |stack| && stack[i..i + |v|] == v &&
    stack[i + |v|] == ':' && IsDigit(stack[i + |v| + 1])
  }

  lemma TokenIsUrlLike(t: Token)
    ensures UrlLike(TokenText(t))
  {
    match t
    case Inline(parameters, payload) =>
      var tail := (if parameters.Some? then ";" + parameters.value else "") + "," + payload;
      assert TokenText(t) == InlinePrefix + tail;
      InlineIsUrlLike(tail);
    case Remote(blob, scheme, rootSlash, authority, file) =>
      var tail := (if rootSlash then "/" else "") + authority + "/" + file;
      assert TokenText(t) == (if blob then "blob:" else "") + SchemeText(scheme) + "://" + tail;
      RemoteIsUrlLike(blob, scheme, tail);
  }

  lemma InlineIsUrlLike(tail: string)
    ensures UrlLike(InlinePrefix + tail)
  {
    assert InlinePrefix <= InlinePrefix + tail;
  }

  lemma RemoteIsUrlLike(blob: bool, scheme: Scheme, tail: string)
    ensures UrlLike((if blob then "blob:" else "") + SchemeText(scheme) + "://" + tail)
  {
    var head := (if blob then "blob:" else "") + SchemeText(scheme) + "://";
    assert head <= head + tail;
    if blob {
      match scheme
      case Http => assert head == "blob:http://";
      case Https => assert head == "blob:https://";
      case File => assert head == "blob:file://";
    } else {
      match scheme
      case Http => assert head == "http://";
      case Https => assert head == "https://";
      case File => assert head == "file://";
    }
  }

  /** In a parse, the capture sits right before `:` and the line number. */
  lemma CaptureFollowedByPosition(m: Match)
    requires ValidPosition(m.position)
    ensures FollowedByPosition(MatchText(m), |LeadText(m.lead)|, TokenText(m.token))
  {
    var lead, token, pos := LeadText(m.lead), TokenText(m.token), PositionText(m.position);
    var stack := MatchText(m);
    assert stack == lead + token + (pos + m.rest);
    var i := |lead|;
    assert stack[i..i + |token|] == token;
    assert pos[0] == ':' && pos[1] == m.position.line[0];
    assert stack[i + |token|] == pos[0];
    assert stack[i + |token| + 1] == pos[1];
  }

  /** Any URL the extraction returns has the token shape of the patterns and is
      followed in the stack by `:` and at least one digit, so the line and column
      suffix is never part of it. */
  lemma ExtractedUrlShape(stack: string, e: Engine)
    requires e.Sound()
    ensures var r := ScriptFileFromStack(stack, e);
            r.Some? ==> UrlLike(r.value) && exists i :: FollowedByPosition(stack, i, r.value)
  {
    var r := ScriptFileFromStack(stack, e);
    if r.Some? {
      var p := if e.unanchored(stack).Some? then Unanchored
               else if e.anchored(stack).Some? then Anchored
               else AfterParen;
      var m := e.Run(p, stack).value;
      assert IsMatch(p, stack, m);
      assert r.value == TokenText(m.token);
      TokenIsUrlLike(m.token);
      CaptureFollowedByPosition(m);
    }
  }

  /** With an engine that is sound and complete, the extraction yields null
      exactly when none of the three patterns has a parse of the stack. */
  lemma NullExactlyWhenNoPatternMatches(stack: string, e: Engine)
    requires e.Sound() && e.Complete()
    ensures ScriptFileFromStack(stack, e).None? <==> forall p, m :: !IsMatch(p, stack, m)
  {
    if ScriptFileFromStack(stack, e).None? {
      forall p, m ensures !IsMatch(p, stack, m) {
        assert e.Run(p, stack).None?;
      }
    } else {
      var p :| e.Run(p, stack).Some?;
      assert IsMatch(p, stack, e.Run(p, stack).value);
    }
  }

  // ---------------------------------------------------------------------------
  // Worked examples: one stack line per dialect, all naming the same script

  /** `https://example.com/app/alphaTab.js` */
  const ExampleUrl: string := "https://" + "example.com/app" + "/" + "alphaTab.js"
  const ExampleToken: Token := Remote(false, Https, false, "example.com/app", "alphaTab.js")
  const ExamplePosition: Position := Position("42", Some("7"))

  /** Chrome: `Error` then a line `    at https://example.com/app/alphaTab.js:42:7` */
  const AtStack: string := "Error\n    at " + ExampleUrl + ":42:7"
  /** Firefox: `init@https://example.com/app/alphaTab.js:42:7` */
  const FrameStack: string := "init@" + ExampleUrl + ":42:7"
  /** Safari and older Firefox after a call: `render()@https://example.com/app/alphaTab.js:42:7` */
  const ParenStack: string := "render()@" + ExampleUrl + ":42:7"

  /** The capture of a remote token ends with a file name after a `/` and holds no `:` there. */
  lemma RemoteTail(t: Token)
    requires t.Remote? && ValidToken(t)
    ensures var text := TokenText(t);
            |text| >= |t.file| + 1 && text[|text| - |t.file| - 1] == '/' &&
            forall k :: |text| - |t.file| <= k < |text| ==> text[k] != ':'
  {
    var head := (if t.blob then "blob:" else "") + SchemeText(t.scheme) + "://" +
                (if t.rootSlash then "/" else "") + t.authority;
    assert TokenText(t) == head + "/" + t.file;
    var text := TokenText(t);
    forall k | |text| - |t.file| <= k < |text| ensures text[k] != ':' {
      assert text[k] == t.file[k - (|text| - |t.file|)];
    }
  }

  /** The first two characters of anything URL-like. */
  lemma UrlLikeStart(s: string)
    requires UrlLike(s)
    ensures |s| >= 2
    ensures (s[0] == 'h' && s[1] == 't') || (s[0] == 'b' && s[1] == 'l') ||
            (s[0] == 'd' && s[1] == 'a') || (s[0] == 'f' && s[1] == 'i')
  {
    if InlinePrefix <= s {
      assert s[..2] == InlinePrefix[..2];
    } else if "http://" <= s || "https://" <= s {
      assert s[..2] == "ht";
    } else if "file://" <= s {
      assert s[..2] == "fi";
    } else {
      assert s[..2] == "bl";
    }
  }

  /** Two characters that can begin group 1. */
  predicate UrlStart(c: char, d: char)
  {
    (c == 'h' && d == 't') || (c == 'b' && d == 'l') || (c == 'd' && d == 'a') || (c == 'f' && d == 'i')
  }

  /** `stack` has a single place where a token can begin, `start`; the first `:`
      followed by a digit after it is at `end`; and no `/` comes after `end`. */
  predicate SingleCandidate(stack: string, start: nat, end: nat)
  {
    start < end < |stack| && stack[start] == 'h' && stack[end] == ':' &&
    (forall k :: 0 <= k && k + 2 <= |stack| && UrlStart(stack[k], stack[k + 1]) ==> k == start) &&
    (forall k :: start < k && k + 2 <= |stack| && stack[k] == ':' && IsDigit(stack[k + 1]) ==> end <= k) &&
    (forall k :: 0 <= k < |stack| && stack[k] == '/' ==> k < end)
  }

  /** In such a stack every parse, by any pattern, captures `stack[start..end]`. */
  lemma SingleCandidateCapture(stack: string, start: nat, end: nat, p: Pattern, m: Match)
    requires SingleCandidate(stack, start, end) && IsMatch(p, stack, m)
    ensures TokenText(m.token) == stack[start..end]
  {
    CaptureFollowedByPosition(m);
    SingleCandidateStart(stack, start, end, |LeadText(m.lead)|, m.token);
    SingleCandidateEnd(stack, start, end, m.token);
  }

  /** The capture can only begin at `start`, with an `http` token. */
  lemma SingleCandidateStart(stack: string, start: nat, end: nat, i: nat, token: Token)
    requires SingleCandidate(stack, start, end)
    requires ValidToken(token) && FollowedByPosition(stack, i, TokenText(token))
    ensures i == start && token.Remote?
  {
    var t := TokenText(token);
    TokenIsUrlLike(token);
    UrlLikeStart(t);
    assert stack[i] == t[0] && stack[i + 1] == t[1];
    assert i == start;
    if token.Inline? {
      assert false;
    }
  }

  /** The capture ends at `end`: a later `:` would fall in its file name. */
  lemma SingleCandidateEnd(stack: string, start: nat, end: nat, token: Token)
    requires SingleCandidate(stack, start, end)
    requires token.Remote? && ValidToken(token) && FollowedByPosition(stack, start, TokenText(token))
    ensures TokenText(token) == stack[start..end]
  {
    var t := TokenText(token);
    RemoteTail(token);
    var slash := |t| - |token.file| - 1;
    assert stack[start + slash] == t[slash] == '/';
    forall j | start + slash < j < start + |t| ensures stack[j] != ':' {
      assert stack[j] == t[j - start];
    }
    assert end == start + |t|;
  }

  /** With a sound and complete engine such a stack, once it has a parse,
      resolves to `stack[start..end]`. */
  lemma SingleCandidateResolves(stack: string, start: nat, end: nat, e: Engine, p: Pattern, m: Match)
    requires SingleCandidate(stack, start, end) && IsMatch(p, stack, m)
    requires e.Sound() && e.Complete()
    ensures ScriptFileFromStack(stack, e) == Some(stack[start..end])
  {
    assert e.Run(p, stack).Some?;
    var q := if e.Run(Unanchored, stack).Some? then Unanchored
             else if e.Run(Anchored, stack).Some? then Anchored
             else AfterParen;
    assert e.Run(q, stack).Some?;
    SingleCandidateCapture(stack, start, end, q, e.Run(q, stack).value);
  }

  lemma ExampleTokenText()
    ensures ValidToken(ExampleToken) && TokenText(ExampleToken) == ExampleUrl
  {
    assert "https" + "://" == "https://";
  }

  lemma ExamplePositionText()
    ensures ValidPosition(ExamplePosition) && PositionText(ExamplePosition) == ":42:7"
  {
  }

  /** The parse of `text + ExampleUrl + ":42:7"` whose lead spells `text`. */
  lemma ExampleMatch(p: Pattern, lead: Lead, text: string)
    requires LeadFits(p, lead) && LeadText(lead) == text
    ensures IsMatch(p, text + ExampleUrl + ":42:7", Match(lead, ExampleToken, ExamplePosition, ""))
  {
    ExampleTokenText();
    ExamplePositionText();
    assert text + ExampleUrl + ":42:7" + "" == text + ExampleUrl + ":42:7";
  }

  // Chrome: pattern 1 (line 104) finds the URL after `at `

  lemma AtStackStarts(k: nat)
    requires k + 2 <= |AtStack| && UrlStart(AtStack[k], AtStack[k + 1])
    ensures k == 13
  {
  }

  lemma AtStackPositions(k: nat)
    requires 13 < k && k + 2 <= |AtStack| && AtStack[k] == ':' && IsDigit(AtStack[k + 1])
    ensures 48 <= k
  {
  }

  lemma AtStackSlashes(k: nat)
    requires k < |AtStack| && AtStack[k] == '/'
    ensures k < 48
  {
  }

  lemma AtStackCandidate()
    ensures SingleCandidate(AtStack, 13, 48) && AtStack[13..48] == ExampleUrl
  {
    forall k | 0 <= k && k + 2 <= |AtStack| && UrlStart(AtStack[k], AtStack[k + 1]) ensures k == 13 {
      AtStackStarts(k);
    }
    forall k | 13 < k && k + 2 <= |AtStack| && AtStack[k] == ':' && IsDigit(AtStack[k + 1]) ensures 48 <= k {
      AtStackPositions(k);
    }
    forall k | 0 <= k < |AtStack| && AtStack[k] == '/' ensures k < 48 {
      AtStackSlashes(k);
    }
    assert ("Error\n    at " + ExampleUrl + ":42:7")[13..48] == ExampleUrl;
  }

  /** Every parse of the Chrome line captures the URL without `:42:7`. */
  lemma AtStackCapture(p: Pattern, m: Match)
    requires IsMatch(p, AtStack, m)
    ensures TokenText(m.token) == ExampleUrl
  {
    AtStackCandidate();
    SingleCandidateCapture(AtStack, 13, 48, p, m);
  }

  /** With a sound and complete engine the Chrome line resolves to the URL. */
  lemma AtStackResolves(e: Engine)
    requires e.Sound() && e.Complete()
    ensures ScriptFileFromStack(AtStack, e) == Some(ExampleUrl)
  {
    ExampleMatch(Unanchored, Skipped("Error\n    at "), "Error\n    at ");
    AtStackCandidate();
    SingleCandidateResolves(AtStack, 13, 48, e, Unanchored,
                            Match(Skipped("Error\n    at "), ExampleToken, ExamplePosition, ""));
  }

  // Firefox: pattern 2 (line 107) through its alternative `[^:@]*@`

  lemma FrameStackStarts(k: nat)
    requires k + 2 <= |FrameStack| && UrlStart(FrameStack[k], FrameStack[k + 1])
    ensures k == 5
  {
  }

  lemma FrameStackPositions(k: nat)
    requires 5 < k && k + 2 <= |FrameStack| && FrameStack[k] == ':' && IsDigit(FrameStack[k + 1])
    ensures 40 <= k
  {
  }

  lemma FrameStackSlashes(k: nat)
    requires k < |FrameStack| && FrameStack[k] == '/'
    ensures k < 40
  {
  }

  lemma FrameStackCandidate()
    ensures SingleCandidate(FrameStack, 5, 40) && FrameStack[5..40] == ExampleUrl
  {
    forall k | 0 <= k && k + 2 <= |FrameStack| && UrlStart(FrameStack[k], FrameStack[k + 1]) ensures k == 5 {
      FrameStackStarts(k);
    }
    forall k | 5 < k && k + 2 <= |FrameStack| && FrameStack[k] == ':' && IsDigit(FrameStack[k + 1])
      ensures 40 <= k
    {
      FrameStackPositions(k);
    }
    forall k | 0 <= k < |FrameStack| && FrameStack[k] == '/' ensures k < 40 {
      FrameStackSlashes(k);
    }
    assert ("init@" + ExampleUrl + ":42:7")[5..40] == ExampleUrl;
  }

  /** Every parse of the Firefox line captures the URL without `:42:7`. */
  lemma FrameStackCapture(p: Pattern, m: Match)
    requires IsMatch(p, FrameStack, m)
    ensures TokenText(m.token) == ExampleUrl
  {
    FrameStackCandidate();
    SingleCandidateCapture(FrameStack, 5, 40, p, m);
  }

  /** With a sound and complete engine the Firefox line resolves to the URL. */
  lemma FrameStackResolves(e: Engine)
    requires e.Sound() && e.Complete()
    ensures ScriptFileFromStack(FrameStack, e) == Some(ExampleUrl)
  {
    assert AnchoredLead(FunctionAt("init"));
    ExampleMatch(Anchored, FunctionAt("init"), "init@");
    FrameStackCandidate();
    SingleCandidateResolves(FrameStack, 5, 40, e, Anchored,
                            Match(FunctionAt("init"), ExampleToken, ExamplePosition, ""));
  }

  // After a call: pattern 3 (line 110) finds the URL after `)@`

  lemma ParenStackStarts(k: nat)
    requires k + 2 <= |ParenStack| && UrlStart(ParenStack[k], ParenStack[k + 1])
    ensures k == 9
  {
  }

  lemma ParenStackPositions(k: nat)
    requires 9 < k && k + 2 <= |ParenStack| && ParenStack[k] == ':' && IsDigit(ParenStack[k + 1])
    ensures 44 <= k
  {
  }

  lemma ParenStackSlashes(k: nat)
    requires k < |ParenStack| && ParenStack[k] == '/'
    ensures k < 44
  {
  }

  lemma ParenStackCandidate()
    ensures SingleCandidate(ParenStack, 9, 44) && ParenStack[9..44] == ExampleUrl
  {
    forall k | 0 <= k && k + 2 <= |ParenStack| && UrlStart(ParenStack[k], ParenStack[k + 1]) ensures k == 9 {
      ParenStackStarts(k);
    }
    forall k | 9 < k && k + 2 <= |ParenStack| && ParenStack[k] == ':' && IsDigit(ParenStack[k + 1])
      ensures 44 <= k
    {
      ParenStackPositions(k);
    }
    forall k | 0 <= k < |ParenStack| && ParenStack[k] == '/' ensures k < 44 {
      ParenStackSlashes(k);
    }
    assert ("render()@" + ExampleUrl + ":42:7")[9..44] == ExampleUrl;
  }

  /** Every parse of the line after a call captures the URL without `:42:7`. */
  lemma ParenStackCapture(p: Pattern, m: Match)
    requires IsMatch(p, ParenStack, m)
    ensures TokenText(m.token) == ExampleUrl
  {
    ParenStackCandidate();
    SingleCandidateCapture(ParenStack, 9, 44, p, m);
  }

  /** With a sound and complete engine the line after a call resolves to the URL. */
  lemma ParenStackResolves(e: Engine)
    requires e.Sound() && e.Complete()
    ensures ScriptFileFromStack(ParenStack, e) == Some(ExampleUrl)
  {
    assert LeadText(AfterCall("render(")) == "render()@";
    ExampleMatch(AfterParen, AfterCall("render("), "render()@");
    ParenStackCandidate();
    SingleCandidateResolves(ParenStack, 9, 44, e, AfterParen,
                            Match(AfterCall("render("), ExampleToken, ExamplePosition, ""));
  }
}
