/** The wire format of the progress stream: the event-stream format of the HTML Living
    Standard (sections 9.2.5 and 9.2.6). The server writes one `event:` line and one `data:`
    line per event, a blank line after each, and comment lines as keepalives. The second half
    of the module is the standard's line processing on the receiving side, enough to show that
    what a browser's EventSource dispatches is exactly the events that were written. */
module EventStream {
  import opened Wrappers

  /** One event on the wire. */
  function Frame(event: string, data: string): string {
    "event: " + event + "\ndata: " + data + "\n\n"
  }

  /** A comment line and its blank line: ignored by every receiver. */
  const Keepalive: string := ": keepalive\n\n"

  /** What the server writes, item by item. */
  datatype Item = EventItem(event: string, data: string) | KeepaliveItem

  function Render(item: Item): string {
    match item
    case EventItem(e, d) => Frame(e, d)
    case KeepaliveItem => Keepalive
  }

  function RenderAll(items: seq<Item>): string {
    if items == [] then "" else Render(items[0]) + RenderAll(items[1..])
  }

  predicate NoLineBreak(s: string) {
    forall i :: 0 <= i < |s| ==> s[i] != '\n' && s[i] != '\r'
  }

  /** A frame is well formed when neither its name nor its data breaks a line. */
  predicate WellFormed(items: seq<Item>) {
    forall i :: 0 <= i < |items| && items[i].EventItem? ==>
      NoLineBreak(items[i].event) && NoLineBreak(items[i].data)
  }

  // ---- The receiving side ----

  /** An event as the receiver dispatches it. */
  datatype Dispatched = Dispatched(eventType: string, data: string)

  /** The event type and data buffers of the receiver. */
  datatype Buffers = Buffers(eventType: string, data: string)

  const Fresh: Buffers := Buffers("", "")

  /** The first line of `s` and what follows its terminator (CRLF, LF or a lone CR); None when
      `s` holds no terminator, because an unterminated last line is never processed. */
  function NextLine(s: string): (r: Option<(string, string)>)
    ensures r.Some? ==> |r.value.1| < |s|
  {
    if s == [] then None
    else if s[0] == '\n' then Some(("", s[1..]))
    else if s[0] == '\r' then Some(("", if |s| > 1 && s[1] == '\n' then s[2..] else s[1..]))
    else
      match NextLine(s[1..])
      case None => None
      case Some(lr) => Some(([s[0]] + lr.0, lr.1))
  }

  /** The index of the first colon of `line`, or its length when it has none. */
  function ColonAt(line: string): (i: nat)
    ensures i <= |line|
    ensures i < |line| ==> line[i] == ':'
    ensures forall j :: 0 <= j < i ==> line[j] != ':'
  {
    if line == [] || line[0] == ':' then 0 else 1 + ColonAt(line[1..])
  }

  /** A field value loses one leading space. */
  function DropSpace(v: string): string {
    if |v| > 0 && v[0] == ' ' then v[1..] else v
  }

  /** Only the `event` and `data` fields touch the two buffers; `id`, `retry` and unknown
      fields leave them as they are. */
  function ProcessField(b: Buffers, field: string, value: string): Buffers {
    if field == "event" then b.(eventType := value)
    else if field == "data" then b.(data := b.data + value + "\n")
    else b
  }

  /** A blank line: an empty data buffer dispatches nothing; otherwise the data loses its last
      line feed and the type defaults to "message". Both buffers are then reset. */
  function Dispatch(b: Buffers): (Buffers, seq<Dispatched>) {
    if b.data == "" then (Fresh, [])
    else
      var d := if b.data[|b.data| - 1] == '\n' then b.data[..|b.data| - 1] else b.data;
      (Fresh, [Dispatched(if b.eventType == "" then "message" else b.eventType, d)])
  }

  function ProcessLine(b: Buffers, line: string): (Buffers, seq<Dispatched>) {
    if line == "" then Dispatch(b)
    else if line[0] == ':' then (b, [])
    else
      var i := ColonAt(line);
      var value := if i < |line| then DropSpace(line[i + 1..]) else "";
      (ProcessField(b, line[..i], value), [])
  }

  /** Every event dispatched while reading `s` with buffers `b`. */
  function Parse(b: Buffers, s: string): seq<Dispatched>
    decreases |s|
  {
    match NextLine(s)
    case None => []
    case Some(lr) => ProcessLine(b, lr.0).1 + Parse(ProcessLine(b, lr.0).0, lr.1)
  }

  /** What a receiver should see for the written items: one event per frame, in order,
      nothing for a keepalive. */
  function Expected(items: seq<Item>): seq<Dispatched> {
    if items == [] then []
    else
      (match items[0]
       case EventItem(e, d) => [Dispatched(if e == "" then "message" else e, d)]
       case KeepaliveItem => [])
      + Expected(items[1..])
  }

  lemma {:induction false} NextLineOf(line: string, rest: string)
    requires NoLineBreak(line)
    ensures NextLine(line + "\n" + rest) == Some((line, rest))
  {
    if line != [] {
      assert (line + "\n" + rest)[1..] == line[1..] + "\n" + rest;
      NextLineOf(line[1..], rest);
      assert [line[0]] + line[1..] == line;
    }
  }

  lemma {:induction false} ColonAtPrefix(p: string, rest: string)
    requires forall j :: 0 <= j < |p| ==> p[j] != ':'
    ensures ColonAt(p + ":" + rest) == |p|
  {
    if p != [] {
      assert (p + ":" + rest)[1..] == p[1..] + ":" + rest;
      ColonAtPrefix(p[1..], rest);
    }
  }

  /** Reading one terminated line. */
  lemma ParseLine(b: Buffers, line: string, rest: string)
    requires NoLineBreak(line)
    ensures Parse(b, line + "\n" + rest) == ProcessLine(b, line).1 + Parse(ProcessLine(b, line).0, rest)
  {
    NextLineOf(line, rest);
  }

  lemma FieldLine(b: Buffers, field: string, v: string)
    requires field == "event" || field == "data"
    ensures ProcessLine(b, field + ": " + v) == (ProcessField(b, field, v), [])
  {
    var line := field + ": " + v;
    assert line == field + ":" + (" " + v);
    ColonAtPrefix(field, " " + v);
    assert line[|field| + 1..] == " " + v;
    assert line[..|field|] == field;
  }

  /** A frame is read back as its event, and the receiver is back in its initial state. */
  lemma ParseFrame(e: string, d: string, rest: string)
    requires NoLineBreak(e) && NoLineBreak(d)
    ensures Parse(Fresh, Frame(e, d) + rest)
         == [Dispatched(if e == "" then "message" else e, d)] + Parse(Fresh, rest)
  {
    var l1 := "event: " + e;
    var l2 := "data: " + d;
    NoLineBreakConcat("event: ", e);
    NoLineBreakConcat("data: ", d);
    var r2 := "" + "\n" + rest;
    var r1 := l2 + "\n" + r2;
    assert Frame(e, d) + rest == l1 + "\n" + r1;
    var b1 := Buffers(e, "");
    var b2 := Buffers(e, d + "\n");
    var x := Dispatched(if e == "" then "message" else e, d);
    FrameLines(e, d);
    ParseLine(b2, "", rest);
    assert Parse(b2, r2) == [x] + Parse(Fresh, rest);
    ParseLine(b1, l2, r2);
    assert Parse(b1, r1) == [] + Parse(b2, r2);
    ParseLine(Fresh, l1, r1);
    assert Parse(Fresh, l1 + "\n" + r1) == [] + Parse(b1, r1);
  }

  /** The three lines of a frame, one at a time: the name, the data, the blank line. */
  lemma FrameLines(e: string, d: string)
    ensures ProcessLine(Fresh, "event: " + e) == (Buffers(e, ""), [])
    ensures ProcessLine(Buffers(e, ""), "data: " + d) == (Buffers(e, d + "\n"), [])
    ensures ProcessLine(Buffers(e, d + "\n"), "")
         == (Fresh, [Dispatched(if e == "" then "message" else e, d)])
  {
    assert "event: " + e == "event" + ": " + e;
    FieldLine(Fresh, "event", e);
    assert "data: " + d == "data" + ": " + d;
    FieldLine(Buffers(e, ""), "data", d);
    assert "" + d + "\n" == d + "\n";
    assert (d + "\n")[..|d + "\n"| - 1] == d;
  }

  /** A keepalive dispatches nothing and leaves the receiver in its initial state. */
  lemma ParseKeepalive(rest: string)
    ensures Parse(Fresh, Keepalive + rest) == Parse(Fresh, rest)
  {
    var l1 := ": keepalive";
    assert NoLineBreak(l1);
    var r1 := "" + "\n" + rest;
    assert Keepalive + rest == l1 + "\n" + r1;
    ParseLine(Fresh, l1, r1);
    ParseLine(Fresh, "", rest);
  }

  /** One well-formed item is read back as its expected events. */
  lemma ParseItem(item: Item, rest: string)
    requires WellFormed([item])
    ensures Parse(Fresh, Render(item) + rest) == Expected([item]) + Parse(Fresh, rest)
  {
    assert Expected([item][1..]) == [];
    assert [item][0] == item;
    match item
    case EventItem(e, d) => ParseFrame(e, d, rest);
    case KeepaliveItem => ParseKeepalive(rest);
  }

  /** Reading a rendered stream, followed by anything, yields the expected events first. */
  lemma {:induction false} ParseRender(items: seq<Item>, rest: string)
    requires WellFormed(items)
    ensures Parse(Fresh, RenderAll(items) + rest) == Expected(items) + Parse(Fresh, rest)
  {
    if items != [] {
      WellFormedSplit(items);
      ParseRender(items[1..], rest);
      ParseRenderCons(items, rest);
    } else {
      assert RenderAll(items) + rest == rest;
    }
  }

  /** The step of the induction: the first item, then what the rest is known to give. */
  lemma ParseRenderCons(items: seq<Item>, rest: string)
    requires items != [] && WellFormed([items[0]])
    requires Parse(Fresh, RenderAll(items[1..]) + rest) == Expected(items[1..]) + Parse(Fresh, rest)
    ensures Parse(Fresh, RenderAll(items) + rest) == Expected(items) + Parse(Fresh, rest)
  {
    var tail := items[1..];
    var more := RenderAll(tail) + rest;
    var head := Expected([items[0]]);
    RenderAllCons(items, rest);
    ParseItem(items[0], more);
    ExpectedCons(items);
    ConcatAssoc(head, Expected(tail), Parse(Fresh, rest));
  }

  lemma RenderAllCons(items: seq<Item>, rest: string)
    requires items != []
    ensures RenderAll(items) + rest == Render(items[0]) + (RenderAll(items[1..]) + rest)
  {
    assert RenderAll(items) == Render(items[0]) + RenderAll(items[1..]);
    ConcatAssoc(Render(items[0]), RenderAll(items[1..]), rest);
  }

  lemma ConcatAssoc<T>(a: seq<T>, b: seq<T>, c: seq<T>)
    ensures a + (b + c) == (a + b) + c
  {
  }

  lemma WellFormedSplit(items: seq<Item>)
    requires WellFormed(items) && items != []
    ensures WellFormed([items[0]]) && WellFormed(items[1..])
  {
    assert [items[0]][0] == items[0];
    forall i | 0 <= i < |items[1..]| && items[1..][i].EventItem?
      ensures NoLineBreak(items[1..][i].event) && NoLineBreak(items[1..][i].data)
    {
      assert items[1..][i] == items[i + 1];
    }
  }

  lemma ExpectedCons(items: seq<Item>)
    requires items != []
    ensures Expected(items) == Expected([items[0]]) + Expected(items[1..])
  {
    assert [items[0]][1..] == [];
  }

  lemma NoLineBreakConcat(a: string, b: string)
    requires NoLineBreak(a) && NoLineBreak(b)
    ensures NoLineBreak(a + b)
  {
    forall i | 0 <= i < |a + b|
      ensures (a + b)[i] != '\n' && (a + b)[i] != '\r'
    {
      if i < |a| { assert (a + b)[i] == a[i]; } else { assert (a + b)[i] == b[i - |a|]; }
    }
  }

  /** A whole rendered stream is read back as exactly its events. */
  lemma ParseRenderAll(items: seq<Item>)
    requires WellFormed(items)
    ensures Parse(Fresh, RenderAll(items)) == Expected(items)
  {
    ParseRender(items, "");
    assert RenderAll(items) + "" == RenderAll(items);
  }
}
