/**
 * What every request the client builds looks like, and what an accepted
 * message guarantees about its request.
 */
module Properties {
  import opened Results
  import opened Php
  import opened Xml
  import opened Protocol
  import opened Gateway

  function Opt(present: bool, name: string): seq<string> {
    if present then [name] else []
  }

  /**
   * Every request is a `package` carrying `key` when the key is truthy, else
   * `login` and `password`, with exactly one child named after the operation:
   * empty for `balance`, holding one `msg` otherwise.
   */
  lemma PackageShape(login: Value, password: Value, key: Value, op: Operation,
                     sender: Value, msgType: Value, data: Data)
    ensures var tree := Encode(Request(AuthOf(login, password, key), CommandOf(op, sender, msgType, data)));
            && tree.name == "package"
            && Names(tree.attrs) == (if Truthy(key) then ["key"] else ["login", "password"])
            && |tree.children| == 1 && tree.children[0].name == op.Tag()
            && (op == BalanceOp ==> tree.children[0] == Element("balance", [], "", []))
            && (op != BalanceOp ==> |tree.children[0].children| == 1 && tree.children[0].children[0].name == "msg")
  {
    NamesAt(EncodeAuth(AuthOf(login, password, key)).attrs);
  }

  /** A status or delete `msg` carries exactly those of `id` and `sms_id` that are set. */
  lemma IdsShape(login: Value, password: Value, key: Value, op: Operation,
                 sender: Value, msgType: Value, data: Data)
    requires op == StatusOp || op == DeleteOp
    ensures var msg := Encode(Request(AuthOf(login, password, key), CommandOf(op, sender, msgType, data))).children[0].children[0];
            && Names(msg.attrs) == Opt(IsSet(data, "id"), "id") + Opt(IsSet(data, "sms_id"), "sms_id")
            && (IsSet(data, "id") ==> msg.attrs[0] == Attr("id", Text(ToStr(data["id"]))))
            && (IsSet(data, "sms_id") ==> msg.attrs[|msg.attrs| - 1] == Attr("sms_id", Text(ToStr(data["sms_id"]))))
  {
    var c := CommandOf(op, sender, msgType, data);
    var a := TextAttr("id", c.id);
    var b := TextAttr("sms_id", c.smsId);
    NamesAt(a);
    NamesAt(b);
    NamesAppend(a, b);
  }

  /**
   * A message `msg` holds the text and always carries `recipient`, `sender`
   * and `type`; it carries `id`, `date_beg` and `date_end` only when they are
   * non-empty, and `url` only when it is non-empty and the type is Push.
   */
  lemma MessageShape(login: Value, password: Value, key: Value, sender: Value, msgType: Value, data: Data)
    ensures var msg := Encode(Request(AuthOf(login, password, key), CommandOf(MessageOp, sender, msgType, data))).children[0].children[0];
            && msg.text == ToStr(Get(data, "text"))
            && Names(msg.attrs) == ["recipient", "sender", "type"]
                                   + Opt(Filled(data, "id"), "id")
                                   + Opt(Filled(data, "url") && IsPush(msgType), "url")
                                   + Opt(Filled(data, "date_beg"), "date_beg")
                                   + Opt(Filled(data, "date_end"), "date_end")
            && msg.attrs[0] == Attr("recipient", Text(ToStr(Get(data, "recipient"))))
            && msg.attrs[1] == Attr("sender", Text(ToStr(sender)))
            && msg.attrs[2] == Attr("type", Text(ToStr(msgType)))
  {
    var c := CommandOf(MessageOp, sender, msgType, data);
    var msg := Encode(Request(AuthOf(login, password, key), c)).children[0].children[0];
    assert msg == Element("msg", SendAttrs(c), c.text, []);
    var fixed := [Attr("recipient", Text(c.recipient)), Attr("sender", Text(c.sender)), Attr("type", Text(c.msgType))];
    var i := TextAttr("id", c.id);
    var u := TextAttr("url", c.url);
    var b := DateAttr("date_beg", c.dateBeg);
    var e := DateAttr("date_end", c.dateEnd);
    AppendOptionals(fixed, Optionals(c.id, c.url, c.dateBeg, c.dateEnd));
    assert msg.attrs == fixed + i + u + b + e;
    NamesAt(fixed);
    assert Names(fixed) == ["recipient", "sender", "type"];
    NamesAt(i);
    assert Names(i) == Opt(Filled(data, "id"), "id");
    NamesAt(u);
    assert Names(u) == Opt(Filled(data, "url") && IsPush(msgType), "url");
    NamesAt(b);
    assert Names(b) == Opt(Filled(data, "date_beg"), "date_beg");
    NamesAt(e);
    assert Names(e) == Opt(Filled(data, "date_end"), "date_end");
    NamesAppend(fixed, i);
    NamesAppend(fixed + i, u);
    NamesAppend(fixed + i + u, b);
    NamesAppend(fixed + i + u + b, e);
  }

  lemma TruthyStringNonEmpty(v: Value)
    requires Truthy(v)
    ensures ToStr(v) != ""
  {
  }

  /**
   * The request of an accepted message: a non-empty sender of at most 11
   * bytes (so at most 11 characters), non-empty text and recipient, a `type`
   * attribute that reads back as the requested number, an `id` the caller
   * set kept and a generated one used only when none is set (either sent
   * only when truthy), a `url`
   * exactly for Push, and a send window in order.
   */
  lemma AcceptedMessage(stored: Value, data: Data, generatedId: string)
    requires CheckMessage(stored, data).None?
    ensures var c := CommandOf(MessageOp, ResolveSender(stored, data), ResolveType(data), FillId(data, generatedId));
            && c.sender != "" && |c.sender| <= Utf8Length(c.sender) <= MaxSenderLength
            && c.text == ToStr(data["text"]) && c.text != ""
            && c.recipient == ToStr(data["recipient"]) && c.recipient != ""
            && (ResolveType(data).Int? ==> ParseInt(c.msgType) == Some(ResolveType(data).i))
            && (IsSet(data, "id") ==> c.id == FilledText(data, "id"))
            && (!IsSet(data, "id") ==> c.id == if Truthy(Str(generatedId)) then Some(generatedId) else None)
            && (c.url.Some? <==> IsPush(ResolveType(data)))
            && (c.dateBeg.Some? && c.dateEnd.Some? ==> Compare(c.dateBeg.value, c.dateEnd.value) < 0)
  {
    var sender := ResolveSender(stored, data);
    var d := FillId(data, generatedId);
    TruthyStringNonEmpty(sender);
    TruthyStringNonEmpty(data["text"]);
    TruthyStringNonEmpty(data["recipient"]);
    Utf8LengthBounds(ToStr(sender));
    if ResolveType(data).Int? {
      ParseIntDecimal(ResolveType(data).i);
    }
    assert Filled(d, "url") == Filled(data, "url") && Get(d, "url") == Get(data, "url");
    assert Filled(d, "date_beg") == Filled(data, "date_beg") && Filled(d, "date_end") == Filled(data, "date_end");
  }

  /** Equal send-window ends are refused: `date_beg >= date_end` holds of equal values. */
  lemma EqualWindowRejected(stored: Value, data: Data)
    requires Filled(data, "date_beg") && Filled(data, "date_end")
    requires data["date_beg"] == data["date_end"]
    ensures CheckMessage(stored, data).Some?
    ensures SenderOk(ResolveSender(stored, data)) && Filled(data, "text") && Filled(data, "recipient")
            && (IsPush(ResolveType(data)) ==> Filled(data, "url"))
            ==> CheckMessage(stored, data) == Some(InvalidWindow)
  {
    CompareReflexive(data["date_beg"]);
  }

  /** The Push test is PHP's loose `==`: any integer numeric string denoting 2 is Push. */
  lemma PushSpellings()
    ensures IsPush(Int(2)) && IsPush(Str("2")) && IsPush(Str("+2")) && IsPush(Str("02"))
    ensures !IsPush(Int(0)) && !IsPush(Str("two")) && !IsPush(Str("-2"))
  {
    assert "+2"[1..] == "2" && "-2"[1..] == "2" && "02"[..1] == "0";
  }

  /**
   * The credentials a valid client sends: the key when it is truthy; when it
   * is null, a login and a password that were both given.
   */
  lemma ValidClientAuth(client: AlphaSms)
    requires client.Valid()
    ensures Truthy(client.key) ==> client.Auth() == ByKey(ToStr(client.key))
    ensures client.key == Null ==> client.login != Null && client.password != Null
                                   && client.Auth() == ByLogin(ToStr(client.login), ToStr(client.password))
  {
  }

  /**
   * A key that is set but falsy ("" or "0") passes the constructor, yet the
   * request then carries the login and password instead, empty when absent.
   */
  lemma FalsyKeyFallsBackToLogin()
    ensures CheckConfig(Null, Null, Str("")) == None
    ensures AuthOf(Null, Null, Str("")) == ByLogin("", "")
    ensures CheckConfig(Null, Null, Str("0")) == None
    ensures AuthOf(Null, Null, Str("0")) == ByLogin("", "")
  {
  }
}
