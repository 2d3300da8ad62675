/** A single communication event: its payload, sender, receiver, creation time and identifier,
    and the debug rendering that shortens long text. */
module Messages {
  import opened Wrappers
  import opened PyText

  /** The receiver: absent (Python `None`), one name (possibly the broadcast marker "ALL"),
      or a list of names. */
  datatype Recipient = Nobody | To(name: string) | ToList(names: seq<string>)

  /** A value inside a structured payload. */
  datatype Value = Str(s: string) | StrList(items: seq<string>)

  /** A payload: plain text, or a dictionary given by its entries in insertion order. */
  datatype Payload = Text(text: string) | Dict(entries: seq<(string, Value)>)

  /** An immutable message record. Timestamps are integers on an abstract clock. */
  datatype Message = Message(
    content: Payload,
    sendFrom: Option<string>,
    sendTo: Recipient,
    timestamp: int,
    msgId: string)

  /** The constructor. The clock reading `now` and the fresh identifier `freshId` stand for
      `time.time()` and `uuid4()`; they are used only when no timestamp or id is supplied. */
  function NewMessage(content: Payload, sendFrom: Option<string>, sendTo: Recipient,
                      timestamp: Option<int>, msgId: Option<string>,
                      now: int, freshId: string): (m: Message)
    ensures m.content == content && m.sendFrom == sendFrom && m.sendTo == sendTo
    ensures timestamp.Some? ==> m.timestamp == timestamp.value
    ensures timestamp.None? ==> m.timestamp == now
    ensures msgId.Some? ==> m.msgId == msgId.value
    ensures msgId.None? ==> m.msgId == freshId
  {
    Message(content, sendFrom, sendTo, timestamp.GetOr(now), msgId.GetOr(freshId))
  }

  /** The longest content the debug rendering shows unshortened, and the kept prefix otherwise. */
  const ShowLimit := 33
  const KeptPrefix := 30

  /** The content as the debug rendering shows it: the first 30 characters and "..." when
      the text is longer than 33 characters, the text itself otherwise. */
  function ShownContent(content: string): (r: string)
    ensures |r| <= ShowLimit && |r| <= |content|
    ensures r == content <==> |content| <= ShowLimit
    ensures |content| > ShowLimit ==> |r| == ShowLimit && r[..KeptPrefix] == content[..KeptPrefix] && r[KeptPrefix..] == "..."
  {
    if |content| > ShowLimit then content[..KeptPrefix] + "..." else content
  }

  /** `str(v)` of a dictionary value, as it appears inside `str(dict)`. */
  function ValueRepr(v: Value): string
  {
    match v
    case Str(s) => Quote(s)
    case StrList(xs) => ListRepr(xs)
  }

  /** `str(v)` of a value on its own, as an f-string shows it. */
  function ValueText(v: Value): string
  {
    match v
    case Str(s) => s
    case StrList(xs) => ListRepr(xs)
  }

  function EntryReprs(entries: seq<(string, Value)>): (r: seq<string>)
    ensures |r| == |entries|
  {
    if entries == [] then []
    else [Quote(entries[0].0) + ": " + ValueRepr(entries[0].1)] + EntryReprs(entries[1..])
  }

  /** `str(content)`: the text itself, or the dictionary rendering `{'k': v, ...}`. */
  function PayloadText(p: Payload): string
  {
    match p
    case Text(t) => t
    case Dict(es) => "{" + Join(", ", EntryReprs(es)) + "}"
  }

  /** `str(send_from)`. */
  function SenderText(s: Option<string>): string
  {
    match s
    case Some(name) => name
    case None => "None"
  }

  /** `str(send_to)`. */
  function RecipientText(r: Recipient): string
  {
    match r
    case Nobody => "None"
    case To(name) => name
    case ToList(names) => ListRepr(names)
  }

  /** A timestamp formatted with `%.2f`; timestamps are integers here, so the fraction is `.00`. */
  function TimeText(t: int): string
  {
    IntToString(t) + ".00"
  }

  /** The rendering `len(content) > 33` chooses: text is shortened by `ShownContent`; a dictionary
      has as length its number of entries, and slicing one raises TypeError. */
  function TruncatedContent(p: Payload): (r: Result<string>)
    ensures r.Err? <==> p.Dict? && |p.entries| > ShowLimit
    ensures p.Text? ==> r == Ok(ShownContent(p.text))
    ensures p.Dict? && |p.entries| <= ShowLimit ==> r == Ok(PayloadText(p))
  {
    match p
    case Text(t) => Ok(ShownContent(t))
    case Dict(es) => if |es| > ShowLimit then Err(TypeError) else Ok(PayloadText(p))
  }

  /** `__repr__`: the debug line `Message(msg_id=…, from=…, to=…, time=…, content='…')`. */
  function Repr(m: Message): (r: Result<string>)
    ensures r.Err? <==> m.content.Dict? && |m.content.entries| > ShowLimit
    ensures r.Ok? ==> |r.value| >= 17 && r.value[..15] == "Message(msg_id=" && r.value[|r.value| - 2..] == "')"
    ensures r.Ok? ==> OccursAt(m.msgId + ", from=" + SenderText(m.sendFrom) + ", to=", r.value, 15)
    ensures r.Ok? ==> OccursAt(RecipientText(m.sendTo) + ", time=" + TimeText(m.timestamp), r.value,
                               15 + |m.msgId + ", from=" + SenderText(m.sendFrom) + ", to="|)
    ensures r.Ok? ==> var tail := ", content='" + TruncatedContent(m.content).value + "')";
                      |tail| <= |r.value| && r.value[|r.value| - |tail|..] == tail
  {
    match TruncatedContent(m.content)
    case Err(e) => Err(e)
    case Ok(shown) =>
      var head := "Message(msg_id=";
      var names := m.msgId + ", from=" + SenderText(m.sendFrom) + ", to=";
      var time := RecipientText(m.sendTo) + ", time=" + TimeText(m.timestamp);
      var tail := ", content='" + shown + "')";
      var line := head + names + time + tail;
      ConcatPieces(head, names, time, tail);
      Ok(line)
  }

  /** Where the four pieces of a concatenation sit in it. */
  lemma ConcatPieces(head: string, names: string, time: string, tail: string)
    ensures var line := head + names + time + tail;
            && line[..|head|] == head && line[|head|..|head| + |names|] == names
            && line[|head| + |names|..|head| + |names| + |time|] == time
            && line[|line| - |tail|..] == tail
            && (|tail| >= 2 ==> line[|line| - 2..] == tail[|tail| - 2..])
  {
    var line := head + names + time + tail;
    assert line[..|head|] == head;
    assert line[|head|..|head| + |names|] == names;
    assert line[|head| + |names|..|head| + |names| + |time|] == time;
    assert line[|line| - |tail|..] == tail;
  }
}
