/** The message envelope as the relay and its clients handle it: the delimited wire form
    `"name: body"`, the regular expression /^([^:]+):\s*(.*)$/ both sides decode it with,
    the `{username, message}` object the relay re-encodes it as, and the way a page turns a
    received frame into a chat bubble. */
module Codec {
  import opened Text

  datatype Option<T> = None | Some(value: T)

  /** The object the relay builds and broadcasts: `{username, message}`. */
  datatype Envelope = Envelope(username: string, message: string)

  /** The two capture groups of /^([^:]+):\s*(.*)$/ on a successful match. */
  datatype Groups = Groups(name: string, body: string)

  /** Sender used when an incoming string is not in the delimited form. */
  const SystemSender: string := "System"

  /** Prefix a page puts in front of a prompt for the language model. */
  const LlmPrefix: string := "[LLM] "

  /** Marker the relay looks for to tell a prompt from a chat message. */
  const LlmTag: string := "[LLM]"

  /** `s.match(/^([^:]+):\s*(.*)$/)`. `[^:]+` can only stop at a colon, so the first group is
      everything before the first colon and must be non-empty; the greedy `\s*` then takes
      all whitespace after that colon, and `(.*)$` must reach the end without crossing a
      line terminator. Giving whitespace back to `(.*)` never helps, because whitespace put
      back in front of the rest leaves the offending line terminator in it. */
  function MatchDelimited(s: string): (m: Option<Groups>)
  {
    var i := IndexOf(s, ':');
    if i < 1 then None
    else
      var rest := TrimStart(s[i + 1..]);
      if NoLineTerminator(rest) then Some(Groups(s[..i], rest)) else None
  }

  /** On a match the sender group ends at the first colon, which is not at index 0, and the
      body group is the rest of the string after that colon with its leading whitespace gone. */
  lemma MatchAtFirstColon(s: string) returns (i: nat)
    requires MatchDelimited(s).Some?
    ensures 1 <= i < |s| && s[i] == ':' && ':' !in s[..i]
    ensures MatchDelimited(s).value == Groups(s[..i], TrimStart(s[i + 1..]))
    ensures NoLineTerminator(TrimStart(s[i + 1..]))
  {
    i := IndexOf(s, ':');
    IndexOfFinds(s, ':');
  }

  /** On a match, `s` is the sender group, a colon, whitespace and the body group, in that
      order: the sender group is non-empty and has no colon, and the body is a single line that
      does not start with whitespace. */
  lemma MatchSound(s: string) returns (w: string)
    requires MatchDelimited(s).Some?
    ensures var g := MatchDelimited(s).value;
      && s == g.name + ":" + w + g.body
      && g.name != [] && ':' !in g.name && AllSpace(w)
      && NoLineTerminator(g.body) && (g.body == [] || !IsSpace(g.body[0]))
  {
    var i := MatchAtFirstColon(s);
    var tail := s[i + 1..];
    var rest := TrimStart(tail);
    TrimStartCut(tail);
    w := tail[..|tail| - |rest|];
    SplitAround(s, i, |tail| - |rest|);
  }

  /** `s` cut at index `i` and again `cut` characters further on. */
  lemma SplitAround(s: string, i: nat, cut: nat)
    requires i < |s| && cut <= |s| - i - 1
    ensures s == s[..i] + [s[i]] + s[i + 1..][..cut] + s[i + 1..][cut..]
  {
    assert s[i + 1..] == s[i + 1..][..cut] + s[i + 1..][cut..];
    assert s == s[..i] + [s[i]] + s[i + 1..];
  }

  /** Every string of the shape `a + ":" + w + b` with a non-empty, colon-free `a`, whitespace
      `w` and a single-line `b` matches, with `a` as the sender group. */
  lemma MatchComplete(a: string, w: string, b: string)
    requires |a| >= 1 && ':' !in a
    requires AllSpace(w) && NoLineTerminator(b)
    ensures MatchDelimited(a + ":" + w + b) == Some(Groups(a, TrimStart(b)))
  {
    var s := a + ":" + w + b;
    ConcatParts(a, w, b);
    TrimStartSkipsSpace(w, b);
    TrimStartSingleLine(b);
    MatchAt(s, |a|);
  }

  /** A string whose first colon is at `i >= 1` and whose remainder after it is a single line
      once its leading whitespace is gone matches, split at that colon. */
  lemma MatchAt(s: string, i: nat)
    requires 1 <= i < |s| && s[i] == ':' && ':' !in s[..i]
    requires NoLineTerminator(TrimStart(s[i + 1..]))
    ensures MatchDelimited(s) == Some(Groups(s[..i], TrimStart(s[i + 1..])))
  {
    IndexOfFirst(s, ':', i);
  }

  lemma ConcatParts(a: string, w: string, b: string)
    ensures var s := a + ":" + w + b;
      |a| < |s| && s[..|a|] == a && s[|a|] == ':' && s[|a| + 1..] == w + b
  {
  }

  /** The relay's decoder (first half of `myHandleIncomingMessage`): on a match the trimmed
      groups, otherwise sender "System" with the raw, untrimmed string. */
  function DecodeRelay(s: string): (e: Envelope)
    ensures e.message == s <==> MatchDelimited(s).None?
    ensures MatchDelimited(s).None? ==> e.username == SystemSender
    ensures MatchDelimited(s).Some? ==> Trimmed(e.username) && Trimmed(e.message)
  {
    match MatchDelimited(s)
    case Some(g) => Envelope(Trim(g.name), Trim(g.body))
    case None => Envelope(SystemSender, s)
  }

  /** A message whose first colon is at index `i >= 1` and whose remainder, once its leading
      whitespace is gone, is a single line, decodes to the trimmed text before the first colon
      and the trimmed text after it. */
  lemma DecodeAtFirstColon(s: string, i: nat)
    requires 1 <= i < |s| && s[i] == ':' && ':' !in s[..i]
    requires NoLineTerminator(TrimStart(s[i + 1..]))
    ensures DecodeRelay(s) == Envelope(Trim(s[..i]), Trim(s[i + 1..]))
  {
    MatchAt(s, i);
    TrimAfterTrimStart(s[i + 1..]);
  }

  /** No colon, or a colon in first position: the raw string is attributed to "System". */
  lemma DecodeWithoutSender(s: string)
    requires ':' !in s || (s != [] && s[0] == ':')
    ensures DecodeRelay(s) == Envelope(SystemSender, s)
  {
  }

  /** A line terminator after the first non-blank character of the remainder defeats `(.*)$`:
      the raw string is attributed to "System". */
  lemma DecodeMultiline(s: string, i: nat, j: nat, k: nat)
    requires 1 <= i < j < k < |s| && s[i] == ':' && ':' !in s[..i]
    requires !IsSpace(s[j]) && IsLineTerminator(s[k])
    ensures DecodeRelay(s) == Envelope(SystemSender, s)
  {
    IndexOfFirst(s, ':', i);
    var rest := s[i + 1..];
    TrimStartKeeps(rest, j - i - 1, k - i - 1);
    assert !NoLineTerminator(TrimStart(rest));
  }

  /** The wire form a page sends: `${name}: ${body}`. */
  function WireForm(name: string, body: string): string {
    name + ": " + body
  }

  /** The body a page sends: the prefix "[LLM] " for a prompt, nothing for a chat message. */
  function Prefix(isPrompt: bool): string {
    if isPrompt then LlmPrefix else ""
  }

  /** Decoding inverts encoding for a trimmed, non-empty, colon-free name and a trimmed,
      single-line body. */
  lemma WireRoundTrip(name: string, body: string)
    requires name != [] && Trimmed(name) && ':' !in name
    requires Trimmed(body) && NoLineTerminator(body)
    ensures DecodeRelay(WireForm(name, body)) == Envelope(name, body)
  {
    assert WireForm(name, body) == name + ":" + " " + body;
    MatchComplete(name, " ", body);
    assert TrimStart(body) == body;
    TrimOfTrimmed(name);
    TrimOfTrimmed(body);
  }

  /** A trimmed non-empty message stays trimmed and single-line once a prefix is put in front. */
  lemma PrefixedBody(isPrompt: bool, msg: string)
    requires msg != [] && Trimmed(msg) && NoLineTerminator(msg)
    ensures Trimmed(Prefix(isPrompt) + msg) && NoLineTerminator(Prefix(isPrompt) + msg)
  {
    var body := Prefix(isPrompt) + msg;
    assert body[|body| - 1] == msg[|msg| - 1];
    if isPrompt {
      assert body[0] == '[';
      forall x | 0 <= x < |body| ensures !IsLineTerminator(body[x]) {
        if x >= |LlmPrefix| { assert body[x] == msg[x - |LlmPrefix|]; }
      }
    } else {
      assert body == msg;
    }
  }

  /** A colon inside the name splits it: the relay attributes the message to the text before
      that colon. */
  lemma ColonInNameSplits(name: string, body: string, i: nat)
    requires 1 <= i < |name| && name[i] == ':' && ':' !in name[..i]
    requires NoLineTerminator(name) && NoLineTerminator(body)
    ensures DecodeRelay(WireForm(name, body)).username == Trim(name[..i])
  {
    var s := WireForm(name, body);
    assert s[..i] == name[..i] && s[i] == ':';
    var a, rest := name[..i], s[i + 1..];
    assert rest == name[i + 1..] + ": " + body;
    forall x | 0 <= x < |rest| ensures !IsLineTerminator(rest[x]) {
      if x < |name| - i - 1 { assert rest[x] == name[i + 1 + x]; }
      else if x >= |name| - i + 1 { assert rest[x] == body[x - (|name| - i + 1)]; }
    }
    TrimStartSingleLine(rest);
    DecodeAtFirstColon(s, i);
  }

  // ---------------------------------------------------------------------------------------
  // JSON

  /** A member value of a parsed JSON object, as far as the pages look at it. Numbers,
      booleans, null, arrays and nested objects are `JOther`, with their JavaScript truthiness
      and the text `String(value)` makes of them. */
  datatype JsonValue = JString(str: string) | JOther(truthy: bool, text: string)

  /** What `JSON.parse` makes of a frame's text: it throws, it yields a value that is not an
      object (a string, number, boolean or null), or it yields an object. */
  datatype Parsed = NotJson | NonObject | Object(fields: map<string, JsonValue>)

  /** A received text frame with the outcome of `JSON.parse` on its text. */
  datatype Frame = Frame(text: string, parsed: Parsed)

  predicate Truthy(v: JsonValue) {
    match v
    case JString(s) => s != []
    case JOther(t, _) => t
  }

  /** The value as a template literal or `textContent` shows it. */
  function AsText(v: JsonValue): string {
    match v
    case JString(s) => s
    case JOther(_, t) => t
  }

  function HexDigit(n: nat): (c: char)
    requires n < 16
    ensures !IsLineTerminator(c)
  {
    if n < 10 then '0' + n as char else 'a' + (n - 10) as char
  }

  /** How `JSON.stringify` writes one character inside a string literal. */
  function EscapeChar(c: char): (r: string)
    ensures |r| >= 1
    ensures c != '\U{2028}' && c != '\U{2029}' ==> NoLineTerminator(r)
  {
    if c == '"' then "\\\""
    else if c == '\\' then "\\\\"
    else if c == '\U{0008}' then "\\b"
    else if c == '\t' then "\\t"
    else if c == '\n' then "\\n"
    else if c == '\U{000C}' then "\\f"
    else if c == '\r' then "\\r"
    else if c < ' ' then
      var n := c as int;
      "\\u00" + [HexDigit(n / 16), HexDigit(n % 16)]
    else [c]
  }

  function QuoteBody(s: string): (r: string)
    ensures (forall i :: 0 <= i < |s| ==> s[i] != '\U{2028}' && s[i] != '\U{2029}') ==>
              NoLineTerminator(r)
    decreases |s|
  {
    if s == [] then [] else EscapeChar(s[0]) + QuoteBody(s[1..])
  }

  /** `JSON.stringify` of a string: a double-quoted, escaped literal. */
  function Quote(s: string): (r: string)
    ensures |r| >= 2 && r[0] == '"' && r[|r| - 1] == '"'
  {
    "\"" + QuoteBody(s) + "\""
  }

  /** `JSON.stringify({username, message})`, the text the relay broadcasts. */
  function EnvelopeJson(e: Envelope): string {
    "{\"username\":" + Quote(e.username) + ",\"message\":" + Quote(e.message) + "}"
  }

  /** The frame a recipient of the relay's broadcast receives: the JSON text together with its
      parse, the object `{username, message}` with the two strings it was made from. */
  function EnvelopeFrame(e: Envelope): (f: Frame)
    ensures f.text == EnvelopeJson(e)
  {
    Frame(EnvelopeJson(e), Object(map["username" := JString(e.username), "message" := JString(e.message)]))
  }

  // ---------------------------------------------------------------------------------------
  // What a page shows for a received message

  /** The content of a chat bubble: a highlighted name and a body, or text as it came. */
  datatype Content = Named(name: string, body: string) | Raw(text: string)

  /** Regular-expression display: on a match the trimmed name and trimmed body, otherwise the
      raw text. */
  function DisplayDelimited(text: string): (c: Content)
  {
    match MatchDelimited(text)
    case Some(g) => Named(Trim(g.name), Trim(g.body))
    case None => Raw(text)
  }

  /** A page decodes exactly as the relay does: where the relay finds a sender the page shows
      the same sender and body; where the relay falls back to "System" the page shows the raw
      text. */
  lemma DisplayAgreesWithRelay(text: string)
    ensures DisplayDelimited(text) ==
      var e := DecodeRelay(text);
      if e.message == text then Raw(text) else Named(e.username, e.message)
  {
  }

  /** `JSON.parse(text)` followed by `data.username.trim()` and `data.message.trim()`: both
      members must be strings, or a TypeError sends the page to its fallback. */
  function JsonEnvelope(p: Parsed): (r: Option<Envelope>)
    ensures r.Some? <==> p.Object? && "username" in p.fields && p.fields["username"].JString?
                         && "message" in p.fields && p.fields["message"].JString?
  {
    if p.Object? && "username" in p.fields && "message" in p.fields then
      match (p.fields["username"], p.fields["message"])
      case (JString(u), JString(m)) => Some(Envelope(u, m))
      case _ => None
    else None
  }

  /** The newest page's display of a received frame: JSON first, then the regular expression,
      then the raw text. */
  function DisplayOther(f: Frame): Content {
    match JsonEnvelope(f.parsed)
    case Some(e) => Named(Trim(e.username), Trim(e.message))
    case None => DisplayDelimited(f.text)
  }

  /** What the newest page shows for anything that went through the relay: a delimited message
      as its sender and body, anything else as from "System" with the trimmed raw text. */
  lemma DisplayOfRelayed(s: string)
    ensures MatchDelimited(s).Some? ==>
      var g := MatchDelimited(s).value;
      DisplayOther(EnvelopeFrame(DecodeRelay(s))) == Named(Trim(g.name), Trim(g.body))
    ensures MatchDelimited(s).None? ==>
      DisplayOther(EnvelopeFrame(DecodeRelay(s))) == Named(SystemSender, Trim(s))
  {
    if MatchDelimited(s).Some? {
      DisplayOfEnvelope(DecodeRelay(s));
      var g := MatchDelimited(s).value;
      TrimIdempotent(g.name);
      TrimIdempotent(g.body);
    } else {
      assert Trimmed(SystemSender);
      DisplayOfTrimmedSender(SystemSender, s);
    }
  }

  lemma DisplayOfTrimmedSender(u: string, m: string)
    requires Trimmed(u)
    ensures DisplayOther(EnvelopeFrame(Envelope(u, m))) == Named(u, Trim(m))
  {
    DisplayOfEnvelope(Envelope(u, m));
    TrimOfTrimmed(u);
  }

  /** A page shows the relay's object as its two members, trimmed. */
  lemma DisplayOfEnvelope(e: Envelope)
    ensures DisplayOther(EnvelopeFrame(e)) == Named(Trim(e.username), Trim(e.message))
  {
    EnvelopeParses(e);
  }

  /** The relay's object parses back to the envelope it was built from. */
  lemma EnvelopeParses(e: Envelope)
    ensures JsonEnvelope(EnvelopeFrame(e).parsed) == Some(e)
  {
    var fields := EnvelopeFrame(e).parsed.fields;
    assert fields["username"] == JString(e.username);
    assert fields["message"] == JString(e.message);
  }
}
