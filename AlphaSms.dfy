/**
 * The AlphaSMS gateway client: credential check at construction, input
 * validation of the four operations, and the request tree each operation
 * hands to the transport.
 */
module Gateway {
  import opened Results
  import opened Php
  import opened Xml
  import opened Protocol

  /** Message types. */
  const SmsType := 0
  const FlashType := 1
  const PushType := 2
  const VoiceType := 3

  /** Longest sender name accepted, in bytes. */
  const MaxSenderLength := 11

  /** The configuration errors the client raises. */
  datatype Error =
    | InvalidConfiguration
    | InvalidLoginOrPassword
    | InvalidSender
    | InvalidText
    | InvalidRecipient
    | InvalidUrl
    | InvalidWindow
    | MissingId
  {
    function Description(): string {
      match this
      case InvalidConfiguration => "Invalid configuration"
      case InvalidLoginOrPassword => "Invalid login or password"
      case InvalidSender => "Invalid 'sender'."
      case InvalidText => "Invalid 'text'."
      case InvalidRecipient => "Invalid 'recipient'."
      case InvalidUrl => "Invalid 'url'."
      case InvalidWindow => "The 'date_end' parameter must exceed 'date_beg'."
      case MissingId => "Must be specified one of the parameters 'id' or 'sms_id'."
    }
  }

  /** The operation a request performs. */
  datatype Operation = MessageOp | StatusOp | DeleteOp | BalanceOp {
    function Tag(): string {
      match this
      case MessageOp => "message"
      case StatusOp => "status"
      case DeleteOp => "delete"
      case BalanceOp => "balance"
    }
  }

  // ---------------------------------------------------------------------
  // Credentials

  /**
   * The constructor's credential check: a key alone suffices; without a key
   * both login and password are needed.
   */
  function CheckConfig(login: Value, password: Value, key: Value): (r: Option<Error>)
    ensures r.None? <==> key != Null || (login != Null && password != Null)
    ensures r == Some(InvalidConfiguration) <==> login == Null && password == Null && key == Null
    ensures r.Some? ==> r.value == InvalidConfiguration || r.value == InvalidLoginOrPassword
  {
    if login == Null && password == Null && key == Null then Some(InvalidConfiguration)
    else if key == Null && (login == Null || password == Null) then Some(InvalidLoginOrPassword)
    else None
  }

  /** The credentials a request carries: the key when it is truthy, else login and password. */
  function AuthOf(login: Value, password: Value, key: Value): Auth {
    if Truthy(key) then ByKey(ToStr(key)) else ByLogin(ToStr(login), ToStr(password))
  }

  // ---------------------------------------------------------------------
  // Validation of `message`

  /** The sender a message uses: the per-call one when set, else the stored one. */
  function ResolveSender(stored: Value, data: Data): Value {
    if IsSet(data, "sender") then data["sender"] else stored
  }

  /** The message type: SMS when `type` is absent or falsy, else the given value. */
  function ResolveType(data: Data): Value {
    if !IsSet(data, "type") || !Truthy(data["type"]) then Int(SmsType) else data["type"]
  }

  predicate IsPush(msgType: Value) {
    LooseEqualsInt(msgType, PushType)
  }

  predicate SenderOk(sender: Value) {
    Truthy(sender) && StrLen(sender) <= MaxSenderLength
  }

  /** When both ends of the send window are given, the start is strictly before the end. */
  predicate WindowOk(data: Data) {
    Filled(data, "date_beg") && Filled(data, "date_end") ==> Compare(data["date_beg"], data["date_end"]) < 0
  }

  /** Everything a message must satisfy before a request is built. */
  predicate MessageAccepted(stored: Value, data: Data) {
    && SenderOk(ResolveSender(stored, data))
    && Filled(data, "text")
    && Filled(data, "recipient")
    && (IsPush(ResolveType(data)) ==> Filled(data, "url"))
    && WindowOk(data)
  }

  /**
   * The checks of `message`, in the order the client makes them; the result
   * is the first one that fails.
   */
  function CheckMessage(stored: Value, data: Data): (r: Option<Error>)
    ensures r.None? <==> MessageAccepted(stored, data)
    ensures r == Some(InvalidSender) <==> !SenderOk(ResolveSender(stored, data))
    ensures r == Some(InvalidText) <==> SenderOk(ResolveSender(stored, data)) && !Filled(data, "text")
    ensures r == Some(InvalidRecipient) <==>
              SenderOk(ResolveSender(stored, data)) && Filled(data, "text") && !Filled(data, "recipient")
    ensures r == Some(InvalidUrl) <==>
              SenderOk(ResolveSender(stored, data)) && Filled(data, "text") && Filled(data, "recipient")
              && IsPush(ResolveType(data)) && !Filled(data, "url")
    ensures r == Some(InvalidWindow) <==>
              SenderOk(ResolveSender(stored, data)) && Filled(data, "text") && Filled(data, "recipient")
              && (IsPush(ResolveType(data)) ==> Filled(data, "url")) && !WindowOk(data)
    ensures r.Some? ==> r.value !in {InvalidConfiguration, InvalidLoginOrPassword, MissingId}
  {
    var sender := ResolveSender(stored, data);
    var msgType := ResolveType(data);
    if !Truthy(sender) then Some(InvalidSender)
    else if StrLen(sender) > MaxSenderLength then Some(InvalidSender)
    else if !IsSet(data, "text") || !Truthy(data["text"]) then Some(InvalidText)
    else if !IsSet(data, "recipient") || !Truthy(data["recipient"]) then Some(InvalidRecipient)
    else if (IsPush(msgType) && !IsSet(data, "url")) || (IsPush(msgType) && !Truthy(Get(data, "url"))) then
      Some(InvalidUrl)
    else if (IsSet(data, "date_beg") && Truthy(data["date_beg"]))
         && (IsSet(data, "date_end") && Truthy(data["date_end"]))
         && Compare(data["date_beg"], data["date_end"]) >= 0 then
      Some(InvalidWindow)
    else None
  }

  /**
   * The data a message request is built from: a generated id is put in only
   * when the caller gave none. The recipient test next to it can no longer
   * be true once the recipient check has passed.
   */
  function FillId(data: Data, generatedId: string): (d: Data)
    ensures Filled(data, "recipient") ==>
              d == if IsSet(data, "id") then data else data["id" := Str(generatedId)]
    ensures IsSet(d, "id")
    ensures forall k :: k in data && k != "id" ==> k in d && d[k] == data[k]
    ensures forall k :: k in d ==> k in data || k == "id"
  {
    if !IsSet(data, "id") || !Truthy(Get(data, "recipient")) then data["id" := Str(generatedId)] else data
  }

  /** `isset($data[$key])` gives the attribute, whatever its truthiness. */
  function SetText(data: Data, key: string): Option<string> {
    if IsSet(data, key) then Some(ToStr(data[key])) else None
  }

  /** `isset($data[$key]) && $data[$key]` gives the attribute. */
  function FilledText(data: Data, key: string): Option<string> {
    if Filled(data, key) then Some(ToStr(data[key])) else None
  }

  function FilledDate(data: Data, key: string): Option<Value> {
    if Filled(data, key) then Some(data[key]) else None
  }

  /** The url attribute: given only for a Push message with a non-empty url. */
  function PushUrl(data: Data, msgType: Value): Option<string> {
    if Filled(data, "url") && IsPush(msgType) then Some(ToStr(data["url"])) else None
  }

  /** What the request of `op` asks for, given the client's sender and type and the call's data. */
  function CommandOf(op: Operation, sender: Value, msgType: Value, data: Data): Command {
    match op
    case MessageOp =>
      SendMessage(ToStr(Get(data, "text")), ToStr(Get(data, "recipient")), ToStr(sender), ToStr(msgType),
                  FilledText(data, "id"), PushUrl(data, msgType), FilledDate(data, "date_beg"), FilledDate(data, "date_end"))
    case StatusOp => QueryStatus(SetText(data, "id"), SetText(data, "sms_id"))
    case DeleteOp => DeleteQueued(SetText(data, "id"), SetText(data, "sms_id"))
    case BalanceOp => QueryBalance
  }

  // ---------------------------------------------------------------------
  // The client

  class AlphaSms {
    const login: Value
    const password: Value
    const key: Value
    /** Default sender; a sender given to `message` replaces it. */
    var sender: Value
    /** The operation of the latest request built. */
    var operation: Option<Operation>
    var typeMessage: Value

    /** The credentials passed the constructor's check. */
    predicate Valid() {
      CheckConfig(login, password, key).None?
    }

    /** The request's credentials. */
    function Auth(): Auth {
      AuthOf(login, password, key)
    }

    constructor (login: Value, password: Value, apiKey: Value, sender: Value)
      requires CheckConfig(login, password, apiKey).None?
      ensures Valid()
      ensures this.login == login && this.password == password && this.key == apiKey
      ensures this.sender == sender && operation == None && typeMessage == Int(SmsType)
    {
      this.login := login;
      this.password := password;
      this.key := apiKey;
      this.sender := sender;
      this.operation := None;
      this.typeMessage := Int(SmsType);
    }

    /** Construction: the client exists only when its credentials pass the check. */
    static method Create(login: Value, password: Value, apiKey: Value, sender: Value)
      returns (r: Result<AlphaSms, Error>)
      ensures r.Failure? <==> CheckConfig(login, password, apiKey).Some?
      ensures r.Failure? ==> r.error == CheckConfig(login, password, apiKey).value
      ensures r.Success? ==> fresh(r.value) && r.value.Valid()
      ensures r.Success? ==> r.value.login == login && r.value.password == password && r.value.key == apiKey
      ensures r.Success? ==> r.value.sender == sender && r.value.operation == None
                             && r.value.typeMessage == Int(SmsType)
    {
      if login == Null && password == Null && apiKey == Null {
        return Failure(InvalidConfiguration);
      } else if apiKey == Null && (login == Null || password == Null) {
        return Failure(InvalidLoginOrPassword);
      }
      var client := new AlphaSms(login, password, apiKey, sender);
      return Success(client);
    }

    /**
     * Sends a message. The per-call sender is stored before anything is
     * checked, and the type is stored before the url and window checks, so
     * both survive a failed call; the operation is set only once every check
     * has passed.
     */
    method Message(data: Data, generatedId: string) returns (r: Result<Element, Error>)
      requires Valid()
      modifies this`sender, this`typeMessage, this`operation
      ensures sender == ResolveSender(old(sender), data)
      ensures r.Failure? <==> CheckMessage(old(sender), data).Some?
      ensures r.Failure? ==> r.error == CheckMessage(old(sender), data).value
      ensures typeMessage == (if CheckMessage(old(sender), data) in {Some(InvalidSender), Some(InvalidText), Some(InvalidRecipient)}
                              then old(typeMessage) else ResolveType(data))
      ensures operation == (if r.Success? then Some(MessageOp) else old(operation))
      ensures r.Success? ==>
                r.value == Encode(Request(Auth(), CommandOf(MessageOp, sender, typeMessage, FillId(data, generatedId))))
    {
      ghost var stored := sender;
      if IsSet(data, "sender") {
        sender := data["sender"];
      }
      assert sender == ResolveSender(stored, data);
      if !Truthy(sender) {
        assert CheckMessage(stored, data) == Some(InvalidSender);
        return Failure(InvalidSender);
      } else {
        if StrLen(sender) > MaxSenderLength {
          assert CheckMessage(stored, data) == Some(InvalidSender);
          return Failure(InvalidSender);
        }
      }
      if !IsSet(data, "text") || !Truthy(data["text"]) {
        assert CheckMessage(stored, data) == Some(InvalidText);
        return Failure(InvalidText);
      }
      if !IsSet(data, "recipient") || !Truthy(data["recipient"]) {
        assert CheckMessage(stored, data) == Some(InvalidRecipient);
        return Failure(InvalidRecipient);
      }
      var request := data;
      if !IsSet(data, "id") || !Truthy(data["recipient"]) {
        request := request["id" := Str(generatedId)];
      }
      assert request == FillId(data, generatedId);
      if !IsSet(data, "type") || !Truthy(data["type"]) {
        typeMessage := Int(SmsType);
      } else {
        typeMessage := data["type"];
      }
      assert typeMessage == ResolveType(data);
      if (LooseEqualsInt(typeMessage, PushType) && !IsSet(data, "url"))
         || (LooseEqualsInt(typeMessage, PushType) && !Truthy(Get(data, "url"))) {
        assert CheckMessage(stored, data) == Some(InvalidUrl);
        return Failure(InvalidUrl);
      }
      if (IsSet(data, "date_beg") && Truthy(data["date_beg"])) && (IsSet(data, "date_end") && Truthy(data["date_end"])) {
        if Compare(data["date_beg"], data["date_end"]) >= 0 {
          assert CheckMessage(stored, data) == Some(InvalidWindow);
          return Failure(InvalidWindow);
        }
      }
      assert CheckMessage(stored, data) == None;
      operation := Some(MessageOp);
      var tree := GetRequestString(request);
      return Success(tree);
    }

    /** Queries the status of a message named by `id` or `sms_id`. */
    method Status(data: Data) returns (r: Result<Element, Error>)
      requires Valid()
      modifies this`operation
      ensures r.Failure? <==> !IsSet(data, "id") && !IsSet(data, "sms_id")
      ensures r.Failure? ==> r.error == MissingId && operation == old(operation)
      ensures r.Success? ==> operation == Some(StatusOp)
      ensures r.Success? ==> r.value == Encode(Request(Auth(), QueryStatus(SetText(data, "id"), SetText(data, "sms_id"))))
    {
      if !IsSet(data, "id") && !IsSet(data, "sms_id") {
        return Failure(MissingId);
      }
      operation := Some(StatusOp);
      var tree := GetRequestString(data);
      return Success(tree);
    }

    /** Removes a queued message named by `id` or `sms_id`. */
    method Delete(data: Data) returns (r: Result<Element, Error>)
      requires Valid()
      modifies this`operation
      ensures r.Failure? <==> !IsSet(data, "id") && !IsSet(data, "sms_id")
      ensures r.Failure? ==> r.error == MissingId && operation == old(operation)
      ensures r.Success? ==> operation == Some(DeleteOp)
      ensures r.Success? ==> r.value == Encode(Request(Auth(), DeleteQueued(SetText(data, "id"), SetText(data, "sms_id"))))
    {
      if !IsSet(data, "id") && !IsSet(data, "sms_id") {
        return Failure(MissingId);
      }
      operation := Some(DeleteOp);
      var tree := GetRequestString(data);
      return Success(tree);
    }

    /** Queries the account balance; there is nothing to validate. */
    method Balance() returns (tree: Element)
      requires Valid()
      modifies this`operation
      ensures operation == Some(BalanceOp)
      ensures tree == Encode(Request(Auth(), QueryBalance))
    {
      operation := Some(BalanceOp);
      tree := GetRequestString(map[]);
    }

    /**
     * Builds the request of the current operation: the credentials element
     * with one operation child, filled in from the client's sender and type
     * and the call's data.
     */
    method GetRequestString(data: Data) returns (tree: Element)
      requires Valid()
      requires operation.Some?
      ensures tree == Encode(Request(Auth(), CommandOf(operation.value, sender, typeMessage, data)))
      ensures Decode(tree) == Some(Request(Auth(), CommandOf(operation.value, sender, typeMessage, data)))
    {
      var requestObject := InitRequestBody();
      var op := NewElement(operation.value.Tag(), "");
      if operation.value == StatusOp || operation.value == DeleteOp {
        var msg := IdsElement(data);
        op := AddChild(op, msg);
      } else if operation.value == MessageOp {
        var msg := MessageElement(data);
        var c := CommandOf(MessageOp, sender, typeMessage, data);
        AppendOptionals([Attr("recipient", Text(c.recipient)), Attr("sender", Text(c.sender)),
                         Attr("type", Text(c.msgType))],
                        Optionals(c.id, c.url, c.dateBeg, c.dateEnd));
        assert msg.attrs == SendAttrs(c);
        op := AddChild(op, msg);
      }
      assert op == EncodeCommand(CommandOf(operation.value, sender, typeMessage, data));
      tree := AddChild(requestObject, op);
      RoundTrip(Request(Auth(), CommandOf(operation.value, sender, typeMessage, data)));
    }

    /** The `msg` of a status or delete request: the identifiers that are set. */
    method IdsElement(data: Data) returns (msg: Element)
      ensures msg == IdsMsg(SetText(data, "id"), SetText(data, "sms_id"))
    {
      msg := NewElement("msg", "");
      if IsSet(data, "id") {
        msg := AddAttribute(msg, "id", Text(ToStr(data["id"])));
      }
      if IsSet(data, "sms_id") {
        msg := AddAttribute(msg, "sms_id", Text(ToStr(data["sms_id"])));
      }
    }

    /** The `msg` of a message request, with the text as its content. */
    method MessageElement(data: Data) returns (msg: Element)
      ensures msg.name == "msg" && msg.text == ToStr(Get(data, "text")) && msg.children == []
      ensures msg.attrs == [Attr("recipient", Text(ToStr(Get(data, "recipient")))),
                            Attr("sender", Text(ToStr(sender))), Attr("type", Text(ToStr(typeMessage)))]
                           + TextAttr("id", FilledText(data, "id")) + TextAttr("url", PushUrl(data, typeMessage))
                           + DateAttr("date_beg", FilledDate(data, "date_beg"))
                           + DateAttr("date_end", FilledDate(data, "date_end"))
    {
      msg := NewElement("msg", ToStr(Get(data, "text")));
      msg := AddAttribute(msg, "recipient", Text(ToStr(Get(data, "recipient"))));
      msg := AddAttribute(msg, "sender", Text(ToStr(sender)));
      msg := AddAttribute(msg, "type", Text(ToStr(typeMessage)));
      ghost var fixed := msg.attrs;
      assert fixed == [Attr("recipient", Text(ToStr(Get(data, "recipient")))),
                       Attr("sender", Text(ToStr(sender))), Attr("type", Text(ToStr(typeMessage)))];
      if IsSet(data, "id") && Truthy(data["id"]) {
        msg := AddAttribute(msg, "id", Text(ToStr(data["id"])));
      }
      assert msg.attrs == fixed + TextAttr("id", FilledText(data, "id"));
      ghost var i := msg.attrs;
      if IsSet(data, "url") && Truthy(data["url"]) && LooseEqualsInt(typeMessage, PushType) {
        msg := AddAttribute(msg, "url", Text(ToStr(data["url"])));
      }
      assert msg.attrs == i + TextAttr("url", PushUrl(data, typeMessage));
      ghost var u := msg.attrs;
      if IsSet(data, "date_beg") && Truthy(data["date_beg"]) {
        msg := AddAttribute(msg, "date_beg", IsoDate(data["date_beg"]));
      }
      assert msg.attrs == u + DateAttr("date_beg", FilledDate(data, "date_beg"));
      ghost var b := msg.attrs;
      if IsSet(data, "date_end") && Truthy(data["date_end"]) {
        msg := AddAttribute(msg, "date_end", IsoDate(data["date_end"]));
      }
      assert msg.attrs == b + DateAttr("date_end", FilledDate(data, "date_end"));
    }

    /** The `package` root carrying the credentials: the key if it is truthy, else login and password. */
    method InitRequestBody() returns (requestObject: Element)
      requires Valid()
      ensures requestObject == EncodeAuth(Auth())
      ensures DecodeAuth(requestObject.attrs) == Some(Auth())
      ensures Names(requestObject.attrs) == if Truthy(key) then ["key"] else ["login", "password"]
    {
      requestObject := NewElement("package", "");
      if Truthy(key) {
        requestObject := AddAttribute(requestObject, "key", Text(ToStr(key)));
        assert requestObject.attrs[1..] == [];
        assert Names(requestObject.attrs) == ["key"] + Names([]);
      } else {
        requestObject := AddAttribute(requestObject, "login", Text(ToStr(login)));
        requestObject := AddAttribute(requestObject, "password", Text(ToStr(password)));
        var second := [Attr("password", Text(ToStr(password)))];
        assert requestObject.attrs[1..] == second && second[1..] == [];
        assert Names(second) == ["password"] + Names([]);
        assert Names(requestObject.attrs) == ["login"] + Names(second);
      }
    }
  }
}
