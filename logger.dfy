/** The structured logger: `write` builds an entry (time, message, severity), merges the
    caller's context over it and hands it to a formatter, whose result is written as one
    line to a console. Two formatters come with it: JSON, and a human-readable one that
    colours the line by severity with ANSI escape sequences. */
module Logger {
  import opened Wrappers
  import opened JsValue

  const Reset := "\U{1B}[0m"
  const Bold := "\U{1B}[1m"
  const Black := "\U{1B}[30m"
  const Red := "\U{1B}[31m"
  const Green := "\U{1B}[32m"
  const Yellow := "\U{1B}[33m"

  /** The severities drawn in bold red. */
  const Severe: set<string> := {"ERROR", "CRITICAL", "ALERT", "EMERGENCY"}

  /** The style table of the pretty formatter: the escape sequence opening a line. */
  const Styles: map<string, string> := map[
    "DEBUG" := Black + Bold,
    "INFO" := Reset,
    "NOTICE" := Green + Bold,
    "WARNING" := Yellow + Bold,
    "ERROR" := Red + Bold,
    "CRITICAL" := Red + Bold,
    "ALERT" := Red + Bold,
    "EMERGENCY" := Red + Bold]

  /** `${styles[key]}`: the style of a known severity, and otherwise the text that
      `undefined` becomes in a template literal. */
  function Style(key: string): string
  {
    if key in Styles then Styles[key] else "undefined"
  }

  /** The formatter a logger was built with: JSON serialisation, the pretty formatter, or
      any function from an entry to a line. */
  datatype Formatter = Json | Pretty | Custom(format: Record -> string)

  /** What formatting yields: a line, or the `TypeError` JavaScript would throw. */
  datatype Formatted = Line(text: string) | TypeError(reason: string)

  /** The entry's `message`: JSON for anything whose `typeof` is "object", `String(message)`
      for everything else. */
  function MessageText(message: Value, host: Host): string
  {
    if IsObjectType(message) then host.stringify(message) else ToString(message, host)
  }

  /** The entry `write` creates before merging the context, stamped with the clock value `now`. */
  function NewEntry(severity: string, message: Value, now: int, host: Host): Record
  {
    [Field("time", Date(now)), Field("message", Str(MessageText(message, host))), Field("severity", Str(severity))]
  }

  /** The entry `write` hands to the formatter: the new entry with the context assigned over it.
      An omitted context is an empty object. */
  function LogEntry(severity: string, message: Value, context: Option<Record>, now: int, host: Host): Record
  {
    Assign(NewEntry(severity, message, now, host), if context.Some? then context.value else [])
  }

  /** The context each convenience method passes: `{httpRequest}`. */
  function HttpContext(httpRequest: Value): Option<Record>
  {
    Some([Field("httpRequest", httpRequest)])
  }

  /** The HTTP part of a pretty line: empty without a (truthy) request descriptor, and
      otherwise `ip - METHOD url status size - `. */
  function HttpSegment(httpRequest: Value, host: Host): Formatted
  {
    if !Truthy(httpRequest) then Line("")
    else
      var fields := if httpRequest.Object? then httpRequest.fields else [];
      var remoteIp := Get(fields, "remoteIp");
      var verb := Get(fields, "requestMethod");
      if !verb.Str? then TypeError("requestMethod.toUpperCase is not a function")
      else
        Line(ShownIp(remoteIp, host) + " - " + ToUpper(verb.s) + HttpTail(fields, host))
  }

  /** `remoteIp || "unknown"`, as text. */
  function ShownIp(remoteIp: Value, host: Host): string
  {
    if Truthy(remoteIp) then ToString(remoteIp, host) else "unknown"
  }

  /** The part of the HTTP segment after the method: ` url status size - `. */
  function HttpTail(fields: Record, host: Host): string
  {
    " " + ToString(Get(fields, "requestUrl"), host) + " " + ToString(Get(fields, "status"), host)
      + " " + ToString(Get(fields, "responseSize"), host) + " - "
  }

  /** The pretty formatter: `[time] ` then the severity's style, the HTTP segment, the
      message and the reset sequence. */
  function PrettyLine(entry: Record, host: Host): Formatted
  {
    var time := Get(entry, "time");
    if time.Undefined? || time.Null? then TypeError("cannot read toLocaleString of " + ToString(time, host))
    else
      match HttpSegment(Get(entry, "httpRequest"), host)
      case TypeError(reason) => TypeError(reason)
      case Line(http) =>
        Line("[" + host.localeString(time) + "] " + Style(ToString(Get(entry, "severity"), host))
          + http + ToString(Get(entry, "message"), host) + Reset)
  }

  function Format(formatter: Formatter, entry: Record, host: Host): Formatted
  {
    match formatter
    case Json => Line(host.stringify(Object(entry)))
    case Pretty => PrettyLine(entry, host)
    case Custom(f) => Line(f(entry))
  }

  // ---------------------------------------------------------------------------
  // Properties of entries and of the pretty formatter

  /** The entry holds the time, the message text and the severity unless the context
      supplies those keys, in which case the context's values win; every other key of
      the context is carried over as it is. */
  lemma EntryFields(severity: string, message: Value, context: Record, now: int, host: Host, k: string)
    requires UniqueKeys(context)
    ensures Get(LogEntry(severity, message, Some(context), now, host), k) ==
      if k in Keys(context) then Get(context, k)
      else if k == "time" then Date(now)
      else if k == "message" then Str(MessageText(message, host))
      else if k == "severity" then Str(severity)
      else Undefined
  {
    var base := NewEntry(severity, message, now, host);
    assert Get(base[2..], k) == if k == "severity" then Str(severity) else Undefined by {
      assert base[2..][1..] == [];
    }
    assert Get(base[1..], k) == if k == "message" then Str(MessageText(message, host)) else Get(base[2..], k) by {
      assert base[1..][1..] == base[2..];
    }
    GetAssign(base, context, k);
  }

  /** In creation order the entry's keys begin with `time`, `message`, `severity`, are
      unique, and are exactly those three plus the context's. */
  lemma EntryKeys(severity: string, message: Value, context: Option<Record>, now: int, host: Host)
    ensures var ks := Keys(LogEntry(severity, message, context, now, host));
      && |ks| >= 3 && ks[..3] == ["time", "message", "severity"]
      && UniqueKeys(LogEntry(severity, message, context, now, host))
      && forall k :: k in ks <==> k in ["time", "message", "severity"] || (context.Some? && k in Keys(context.value))
  {
    var base := NewEntry(severity, message, now, host);
    assert Keys(base) == ["time", "message", "severity"];
    KeysAssign(base, if context.Some? then context.value else []);
  }

  /** In enumeration order (what `JSON.stringify` writes) the context's array-index keys come
      first, in ascending order, then `time`, `message`, `severity`; so the entry is
      enumerated from `time` on exactly when no key of the context is an array index. */
  lemma EntryOwnKeys(severity: string, message: Value, context: Option<Record>, now: int, host: Host)
    ensures var e := LogEntry(severity, message, context, now, host);
      var own := OwnKeys(e);
      var n := |IndexKeys(Keys(e))|;
      && |own| == |Keys(e)| && n + 3 <= |own|
      && Ascending(own[..n])
      && (forall i :: 0 <= i < n ==> IsArrayIndex(own[i]))
      && own[n..n + 3] == ["time", "message", "severity"]
    ensures var e := LogEntry(severity, message, context, now, host);
      OwnKeys(e)[..3] == ["time", "message", "severity"] <==>
        forall k :: context.Some? && k in Keys(context.value) ==> !IsArrayIndex(k)
  {
    var e := LogEntry(severity, message, context, now, host);
    var ks := Keys(e);
    var base := ["time", "message", "severity"];
    EntryKeys(severity, message, context, now, host);
    assert base <= ks;
    assert forall i :: 0 <= i < |base| ==> !IsArrayIndex(base[i]) by {
      NotArrayIndex("time");
      NotArrayIndex("message");
      NotArrayIndex("severity");
    }
    NamedPrefixPosition(e, base);
    OwnKeysShape(e);
    if IndexKeys(ks) != [] {
      var k := IndexKeys(ks)[0];
      assert k in ks && IsArrayIndex(k);
    }
  }

  /** A string message is written as it is; any other non-object is written as `String(message)`. */
  lemma MessagePassesStrings(s: string, host: Host)
    ensures MessageText(Str(s), host) == s
    ensures forall n :: MessageText(Num(n), host) == Decimal(n)
    ensures MessageText(Undefined, host) == "undefined"
  {
  }

  /** A convenience method's entry carries its fixed severity, the message text, the time
      and the request descriptor it was given. */
  lemma ConvenienceEntry(severity: string, message: Value, httpRequest: Value, now: int, host: Host)
    ensures var e := LogEntry(severity, message, HttpContext(httpRequest), now, host);
      && Get(e, "severity") == Str(severity)
      && Get(e, "message") == Str(MessageText(message, host))
      && Get(e, "time") == Date(now)
      && Get(e, "httpRequest") == httpRequest
      && Keys(e) == ["time", "message", "severity", "httpRequest"]
      && OwnKeys(e) == ["time", "message", "severity", "httpRequest"]
  {
    var e := LogEntry(severity, message, HttpContext(httpRequest), now, host);
    var ks := ["time", "message", "severity", "httpRequest"];
    var ctx := [Field("httpRequest", httpRequest)];
    assert Keys(ctx) == ["httpRequest"];
    assert Get(e, "severity") == Str(severity) by {
      EntryFields(severity, message, ctx, now, host, "severity");
    }
    assert Get(e, "message") == Str(MessageText(message, host)) by {
      EntryFields(severity, message, ctx, now, host, "message");
    }
    assert Get(e, "time") == Date(now) by {
      EntryFields(severity, message, ctx, now, host, "time");
    }
    assert Get(e, "httpRequest") == httpRequest by {
      EntryFields(severity, message, ctx, now, host, "httpRequest");
    }
    assert Keys(e) == ks by {
      var base := NewEntry(severity, message, now, host);
      assert ctx[1..] == [];
      assert e == Assign(base, ctx);
      assert Assign(base, ctx) == Put(base, "httpRequest", httpRequest);
      assert Keys(base) == ["time", "message", "severity"];
      KeysPut(base, "httpRequest", httpRequest);
    }
    FixedKeysEnumerated(e);
  }

  /** No key of a convenience method's entry is an array index, so it is enumerated as created. */
  lemma FixedKeysEnumerated(e: Record)
    requires Keys(e) == ["time", "message", "severity", "httpRequest"]
    ensures OwnKeys(e) == Keys(e)
  {
    NotArrayIndex("time");
    NotArrayIndex("message");
    NotArrayIndex("severity");
    NotArrayIndex("httpRequest");
    OnlyNamedKeys(e);
  }

  /** Without a request descriptor the HTTP segment is empty. */
  lemma NoHttpSegment(entry: Record, host: Host)
    requires !Truthy(Get(entry, "httpRequest"))
    requires !Get(entry, "time").Undefined? && !Get(entry, "time").Null?
    ensures PrettyLine(entry, host) ==
      Line("[" + host.localeString(Get(entry, "time")) + "] " + Style(ToString(Get(entry, "severity"), host))
        + ToString(Get(entry, "message"), host) + Reset)
  {
  }

  /** With a request descriptor whose method is a string, the segment is
      `ip - METHOD url status size - `: the address as text when it is truthy and "unknown"
      for every falsy one, the method upper-cased, and the other three fields as text. */
  lemma HttpSegmentShape(fields: Record, host: Host, verb: string)
    requires Get(fields, "requestMethod") == Str(verb)
    ensures var ip := Get(fields, "remoteIp");
      HttpSegment(Object(fields), host) == Line(
        (if Truthy(ip) then ToString(ip, host) else "unknown") + " - " + ToUpper(verb)
        + (" " + ToString(Get(fields, "requestUrl"), host) + " " + ToString(Get(fields, "status"), host)
           + " " + ToString(Get(fields, "responseSize"), host) + " - "))
  {
    assert Truthy(Object(fields));
  }

  /** A truthy request descriptor without a string method makes the pretty formatter throw,
      whatever else the entry holds. */
  lemma HttpSegmentNeedsMethod(entry: Record, host: Host)
    requires var time := Get(entry, "time"); !time.Undefined? && !time.Null?
    requires var h := Get(entry, "httpRequest");
      Truthy(h) && !Get(if h.Object? then h.fields else [], "requestMethod").Str?
    ensures PrettyLine(entry, host).TypeError?
  {
  }

  /** Every pretty line ends with the reset sequence. */
  lemma PrettyEndsWithReset(entry: Record, host: Host)
    ensures PrettyLine(entry, host).Line? ==>
      var t := PrettyLine(entry, host).text; |t| >= |Reset| && t[|t| - |Reset|..] == Reset
  {
  }

  /** Exactly ERROR, CRITICAL, ALERT and EMERGENCY are styled bold red. */
  lemma SevereIsRedBold(key: string)
    ensures Style(key) == Red + Bold <==> key in Severe
  {
    if key !in Styles {
      assert Style(key)[0] == 'u';
    } else if key !in Severe {
      assert Style(key)[3] != (Red + Bold)[3] || |Style(key)| != |Red + Bold|;
    }
  }

  /** `logger.error("boom")`: the pretty line is the time, bold red, "boom", reset; the JSON
      line serialises an entry with time, message "boom" and severity "ERROR". */
  lemma ErrorBoom(now: int, host: Host)
    ensures var e := LogEntry("ERROR", Str("boom"), HttpContext(Undefined), now, host);
      && Format(Pretty, e, host) == Line("[" + host.localeString(Date(now)) + "] " + Red + Bold + "boom" + Reset)
      && Format(Json, e, host) == Line(host.stringify(Object(e)))
      && Get(e, "message") == Str("boom") && Get(e, "severity") == Str("ERROR") && Get(e, "time") == Date(now)
  {
    var e := LogEntry("ERROR", Str("boom"), HttpContext(Undefined), now, host);
    assert Get(e, "message") == Str("boom") && Get(e, "severity") == Str("ERROR")
      && Get(e, "time") == Date(now) && Get(e, "httpRequest") == Undefined by {
      ConvenienceEntry("ERROR", Str("boom"), Undefined, now, host);
    }
    assert Format(Pretty, e, host) == Line("[" + host.localeString(Date(now)) + "] " + Red + Bold + "boom" + Reset) by {
      NoHttpSegment(e, host);
      assert Style("ERROR") == Red + Bold;
    }
  }

  // ---------------------------------------------------------------------------
  // The sink and the logger

  /** The output a logger writes to: each `log` call appends one line. */
  class Console {
    var lines: seq<string>

    constructor()
      ensures lines == []
    {
      lines := [];
    }

    method Log(line: string)
      modifies this
      ensures lines == old(lines) + [line]
    {
      lines := lines + [line];
    }
  }

  class Logger {
    const console: Console
    const formatter: Formatter
    /** The runtime services the formatters and `write` call. */
    const host: Host

    /** A logger writing to `console`; an omitted formatter means JSON. */
    constructor(console: Console, formatter: Option<Formatter>, host: Host)
      ensures this.console == console && this.host == host
      ensures formatter.None? ==> this.formatter == Json
      ensures formatter.Some? ==> this.formatter == formatter.value
    {
      this.console := console;
      this.formatter := if formatter.Some? then formatter.value else Json;
      this.host := host;
    }

    /** Writes one entry stamped `now`: exactly one formatted line reaches the console,
        unless the formatter throws, in which case nothing does. */
    method Write(severity: string, message: Value, context: Option<Record>, now: int) returns (r: Formatted)
      modifies console
      ensures r == Format(formatter, LogEntry(severity, message, context, now, host), host)
      ensures console.lines == old(console.lines) + (if r.Line? then [r.text] else [])
    {
      r := Format(formatter, LogEntry(severity, message, context, now, host), host);
      if r.Line? {
        console.Log(r.text);
      }
    }

    method Debug(message: Value, httpRequest: Value, now: int) returns (r: Formatted)
      modifies console
      ensures r == Format(formatter, LogEntry("DEBUG", message, HttpContext(httpRequest), now, host), host)
      ensures console.lines == old(console.lines) + (if r.Line? then [r.text] else [])
    {
      r := Write("DEBUG", message, HttpContext(httpRequest), now);
    }

    method Info(message: Value, httpRequest: Value, now: int) returns (r: Formatted)
      modifies console
      ensures r == Format(formatter, LogEntry("INFO", message, HttpContext(httpRequest), now, host), host)
      ensures console.lines == old(console.lines) + (if r.Line? then [r.text] else [])
    {
      r := Write("INFO", message, HttpContext(httpRequest), now);
    }

    method Notice(message: Value, httpRequest: Value, now: int) returns (r: Formatted)
      modifies console
      ensures r == Format(formatter, LogEntry("NOTICE", message, HttpContext(httpRequest), now, host), host)
      ensures console.lines == old(console.lines) + (if r.Line? then [r.text] else [])
    {
      r := Write("NOTICE", message, HttpContext(httpRequest), now);
    }

    method Warning(message: Value, httpRequest: Value, now: int) returns (r: Formatted)
      modifies console
      ensures r == Format(formatter, LogEntry("WARNING", message, HttpContext(httpRequest), now, host), host)
      ensures console.lines == old(console.lines) + (if r.Line? then [r.text] else [])
    {
      r := Write("WARNING", message, HttpContext(httpRequest), now);
    }

    method Error(message: Value, httpRequest: Value, now: int) returns (r: Formatted)
      modifies console
      ensures r == Format(formatter, LogEntry("ERROR", message, HttpContext(httpRequest), now, host), host)
      ensures console.lines == old(console.lines) + (if r.Line? then [r.text] else [])
    {
      r := Write("ERROR", message, HttpContext(httpRequest), now);
    }

    method Critical(message: Value, httpRequest: Value, now: int) returns (r: Formatted)
      modifies console
      ensures r == Format(formatter, LogEntry("CRITICAL", message, HttpContext(httpRequest), now, host), host)
      ensures console.lines == old(console.lines) + (if r.Line? then [r.text] else [])
    {
      r := Write("CRITICAL", message, HttpContext(httpRequest), now);
    }
  }
}
