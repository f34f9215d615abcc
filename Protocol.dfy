/**
 * The AlphaSMS XML request format. A request is a `package` element that
 * carries the credentials (a `key`, or a `login` and a `password`) and
 * exactly one child named after the operation. `Encode` gives the tree of a
 * request; `Decode` reads a tree back and recovers the request, and the two
 * are proved inverse to each other.
 */
module Protocol {
  import opened Results
  import opened Php
  import opened Xml

  datatype Auth = ByKey(key: string) | ByLogin(login: string, password: string)

  /** What one request asks for, with every attribute in its final string form. */
  datatype Command =
    | SendMessage(text: string, recipient: string, sender: string, msgType: string,
                  id: Option<string>, url: Option<string>,
                  dateBeg: Option<Value>, dateEnd: Option<Value>)
    | QueryStatus(id: Option<string>, smsId: Option<string>)
    | DeleteQueued(id: Option<string>, smsId: Option<string>)
    | QueryBalance

  datatype Request = Request(auth: Auth, command: Command)

  /** The name of the operation child. */
  function Tag(c: Command): string {
    match c
    case SendMessage(_, _, _, _, _, _, _, _) => "message"
    case QueryStatus(_, _) => "status"
    case DeleteQueued(_, _) => "delete"
    case QueryBalance => "balance"
  }

  function TextAttr(name: string, o: Option<string>): seq<Attr> {
    if o.Some? then [Attr(name, Text(o.value))] else []
  }

  function DateAttr(name: string, o: Option<Value>): seq<Attr> {
    if o.Some? then [Attr(name, IsoDate(o.value))] else []
  }

  // ---------------------------------------------------------------------
  // Encoding

  function EncodeAuth(a: Auth): Element {
    match a
    case ByKey(k) => Element("package", [Attr("key", Text(k))], "", [])
    case ByLogin(l, p) => Element("package", [Attr("login", Text(l)), Attr("password", Text(p))], "", [])
  }

  function IdsMsg(id: Option<string>, smsId: Option<string>): Element {
    Element("msg", TextAttr("id", id) + TextAttr("sms_id", smsId), "", [])
  }

  function SendAttrs(c: Command): seq<Attr>
    requires c.SendMessage?
  {
    [Attr("recipient", Text(c.recipient)), Attr("sender", Text(c.sender)), Attr("type", Text(c.msgType))]
    + OptionalAttrs(Optionals(c.id, c.url, c.dateBeg, c.dateEnd))
  }

  /** The operation child of the `package` element. */
  function EncodeCommand(c: Command): Element {
    match c
    case SendMessage(text, _, _, _, _, _, _, _) =>
      Element("message", [], "", [Element("msg", SendAttrs(c), text, [])])
    case QueryStatus(id, smsId) => Element("status", [], "", [IdsMsg(id, smsId)])
    case DeleteQueued(id, smsId) => Element("delete", [], "", [IdsMsg(id, smsId)])
    case QueryBalance => Element("balance", [], "", [])
  }

  function Encode(r: Request): Element {
    AddChild(EncodeAuth(r.auth), EncodeCommand(r.command))
  }

  // ---------------------------------------------------------------------
  // Decoding

  function DecodeAuth(attrs: seq<Attr>): Option<Auth> {
    if |attrs| == 1 && attrs[0].name == "key" && attrs[0].value.Text? then
      Some(ByKey(attrs[0].value.s))
    else if |attrs| == 2 && attrs[0].name == "login" && attrs[0].value.Text?
         && attrs[1].name == "password" && attrs[1].value.Text? then
      Some(ByLogin(attrs[0].value.s, attrs[1].value.s))
    else None
  }

  /** Takes a text attribute called `name` off the front of `attrs`, if it is there. */
  function TakeText(attrs: seq<Attr>, name: string): (Option<string>, seq<Attr>) {
    if |attrs| > 0 && attrs[0].name == name && attrs[0].value.Text? then
      (Some(attrs[0].value.s), attrs[1..])
    else (None, attrs)
  }

  /** Takes a date attribute called `name` off the front of `attrs`, if it is there. */
  function TakeDate(attrs: seq<Attr>, name: string): (Option<Value>, seq<Attr>) {
    if |attrs| > 0 && attrs[0].name == name && attrs[0].value.IsoDate? then
      (Some(attrs[0].value.timestamp), attrs[1..])
    else (None, attrs)
  }

  /** Reads the `msg` element of a status or delete request. */
  function DecodeIds(msg: Element): Option<(Option<string>, Option<string>)> {
    if msg.name != "msg" || msg.text != "" || msg.children != [] then None
    else
      var (id, rest) := TakeText(msg.attrs, "id");
      var (smsId, rest') := TakeText(rest, "sms_id");
      if rest' == [] then Some((id, smsId)) else None
  }

  /** The optional attributes of a message: `id`, `url`, `date_beg` and `date_end`, in that order. */
  datatype Optionals = Optionals(id: Option<string>, url: Option<string>, dateBeg: Option<Value>, dateEnd: Option<Value>)

  function OptionalAttrs(o: Optionals): seq<Attr> {
    TextAttr("id", o.id) + TextAttr("url", o.url) + DateAttr("date_beg", o.dateBeg) + DateAttr("date_end", o.dateEnd)
  }

  /** The optional attributes appended one at a time after `fixed`. */
  lemma AppendOptionals(fixed: seq<Attr>, o: Optionals)
    ensures fixed + OptionalAttrs(o)
            == fixed + TextAttr("id", o.id) + TextAttr("url", o.url)
               + DateAttr("date_beg", o.dateBeg) + DateAttr("date_end", o.dateEnd)
  {
  }

  function DecodeOptionals(tail: seq<Attr>): Option<Optionals> {
    var (id, r1) := TakeText(tail, "id");
    var (url, r2) := TakeText(r1, "url");
    var (beg, r3) := TakeDate(r2, "date_beg");
    var (end, r4) := TakeDate(r3, "date_end");
    if r4 == [] then Some(Optionals(id, url, beg, end)) else None
  }

  /** Reads the `msg` element of a message request. */
  function DecodeSend(msg: Element): Option<Command> {
    if msg.name != "msg" || msg.children != [] || |msg.attrs| < 3 then None
    else
      var a := msg.attrs;
      if a[0].name == "recipient" && a[0].value.Text? && a[1].name == "sender" && a[1].value.Text?
         && a[2].name == "type" && a[2].value.Text? then
        match DecodeOptionals(a[3..])
        case Some(o) => Some(SendMessage(msg.text, a[0].value.s, a[1].value.s, a[2].value.s, o.id, o.url, o.dateBeg, o.dateEnd))
        case None => None
      else None
  }

  function DecodeCommand(op: Element): Option<Command> {
    if op.attrs != [] || op.text != "" then None
    else if op.name == "balance" then
      if op.children == [] then Some(QueryBalance) else None
    else if |op.children| != 1 then None
    else if op.name == "message" then DecodeSend(op.children[0])
    else if op.name == "status" || op.name == "delete" then
      match DecodeIds(op.children[0])
      case Some((id, smsId)) => Some(if op.name == "status" then QueryStatus(id, smsId) else DeleteQueued(id, smsId))
      case None => None
    else None
  }

  function Decode(e: Element): Option<Request> {
    if e.name != "package" || e.text != "" || |e.children| != 1 then None
    else
      match (DecodeAuth(e.attrs), DecodeCommand(e.children[0]))
      case (Some(a), Some(c)) => Some(Request(a, c))
      case _ => None
  }

  /** The sender a message request carries, read back from its tree. */
  function SenderOf(tree: Element): Option<string> {
    match Decode(tree)
    case Some(Request(_, SendMessage(_, _, sender, _, _, _, _, _))) => Some(sender)
    case _ => None
  }

  // ---------------------------------------------------------------------
  // The two directions

  /** An optional attribute put in front of a list whose head has another name is taken back off. */
  lemma TakeTextOf(o: Option<string>, name: string, rest: seq<Attr>)
    requires rest == [] || rest[0].name != name
    ensures TakeText(TextAttr(name, o) + rest, name) == (o, rest)
  {
    if o.Some? {
      assert (TextAttr(name, o) + rest)[1..] == rest;
    } else {
      assert TextAttr(name, o) + rest == rest;
    }
  }

  lemma TakeDateOf(o: Option<Value>, name: string, rest: seq<Attr>)
    requires rest == [] || rest[0].name != name
    ensures TakeDate(DateAttr(name, o) + rest, name) == (o, rest)
  {
    if o.Some? {
      assert (DateAttr(name, o) + rest)[1..] == rest;
    } else {
      assert DateAttr(name, o) + rest == rest;
    }
  }

  /** Taking an optional attribute off the front and putting it back gives the list back. */
  lemma TakeTextSplit(attrs: seq<Attr>, name: string)
    ensures attrs == TextAttr(name, TakeText(attrs, name).0) + TakeText(attrs, name).1
  {
    if |attrs| > 0 && attrs[0].name == name && attrs[0].value.Text? {
      assert attrs == [attrs[0]] + attrs[1..];
    }
  }

  lemma TakeDateSplit(attrs: seq<Attr>, name: string)
    ensures attrs == DateAttr(name, TakeDate(attrs, name).0) + TakeDate(attrs, name).1
  {
    if |attrs| > 0 && attrs[0].name == name && attrs[0].value.IsoDate? {
      assert attrs == [attrs[0]] + attrs[1..];
    }
  }

  lemma DecodeIdsEncode(id: Option<string>, smsId: Option<string>)
    ensures DecodeIds(IdsMsg(id, smsId)) == Some((id, smsId))
  {
    var s := TextAttr("sms_id", smsId);
    TakeTextOf(id, "id", s);
    TakeTextOf(smsId, "sms_id", []);
    assert s + [] == s;
  }

  lemma DecodeOptionalsEncode(o: Optionals)
    ensures DecodeOptionals(OptionalAttrs(o)) == Some(o)
  {
    var r3 := DateAttr("date_end", o.dateEnd);
    var r2 := DateAttr("date_beg", o.dateBeg) + r3;
    var r1 := TextAttr("url", o.url) + r2;
    assert OptionalAttrs(o) == TextAttr("id", o.id) + r1;
    TakeTextOf(o.id, "id", r1);
    TakeTextOf(o.url, "url", r2);
    TakeDateOf(o.dateBeg, "date_beg", r3);
    TakeDateOf(o.dateEnd, "date_end", []);
    assert r3 + [] == r3;
  }

  lemma DecodeSendEncode(c: Command)
    requires c.SendMessage?
    ensures DecodeSend(Element("msg", SendAttrs(c), c.text, [])) == Some(c)
  {
    var o := Optionals(c.id, c.url, c.dateBeg, c.dateEnd);
    assert SendAttrs(c)[3..] == OptionalAttrs(o);
    DecodeOptionalsEncode(o);
  }

  lemma DecodeCommandEncode(c: Command)
    ensures DecodeCommand(EncodeCommand(c)) == Some(c)
  {
    match c
    case SendMessage(_, _, _, _, _, _, _, _) => DecodeSendEncode(c);
    case QueryStatus(id, smsId) => DecodeIdsEncode(id, smsId);
    case DeleteQueued(id, smsId) => DecodeIdsEncode(id, smsId);
    case QueryBalance =>
  }

  /** Every request is read back from its own tree. */
  lemma RoundTrip(r: Request)
    ensures Decode(Encode(r)) == Some(r)
  {
    assert Encode(r).children == [EncodeCommand(r.command)];
    DecodeCommandEncode(r.command);
  }

  lemma DecodeOptionalsExact(tail: seq<Attr>, o: Optionals)
    requires DecodeOptionals(tail) == Some(o)
    ensures OptionalAttrs(o) == tail
  {
    var t0 := TakeText(tail, "id");
    var t1 := TakeText(t0.1, "url");
    var t2 := TakeDate(t1.1, "date_beg");
    TakeTextSplit(tail, "id");
    TakeTextSplit(t0.1, "url");
    TakeDateSplit(t1.1, "date_beg");
    TakeDateSplit(t2.1, "date_end");
  }

  lemma DecodeSendExact(msg: Element, c: Command)
    requires DecodeSend(msg) == Some(c)
    ensures c.SendMessage? && Element("msg", SendAttrs(c), c.text, []) == msg
  {
    var a := msg.attrs;
    var o := DecodeOptionals(a[3..]).value;
    DecodeOptionalsExact(a[3..], o);
    assert a == [a[0], a[1], a[2]] + a[3..];
  }

  lemma DecodeIdsExact(msg: Element, id: Option<string>, smsId: Option<string>)
    requires DecodeIds(msg) == Some((id, smsId))
    ensures IdsMsg(id, smsId) == msg
  {
    TakeTextSplit(msg.attrs, "id");
    TakeTextSplit(TakeText(msg.attrs, "id").1, "sms_id");
  }

  lemma DecodeCommandExact(op: Element, c: Command)
    requires DecodeCommand(op) == Some(c)
    ensures EncodeCommand(c) == op
  {
    if op.name == "message" {
      DecodeSendExact(op.children[0], c);
      assert op.children == [op.children[0]];
    } else if op.name == "status" || op.name == "delete" {
      DecodeIdsExact(op.children[0], c.id, c.smsId);
      assert op.children == [op.children[0]];
    }
  }

  /** A tree that decodes is exactly the encoding of what it decodes to. */
  lemma DecodeExact(e: Element, r: Request)
    requires Decode(e) == Some(r)
    ensures Encode(r) == e
  {
    DecodeCommandExact(e.children[0], r.command);
    assert e.children == [e.children[0]];
  }
}
