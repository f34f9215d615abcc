/**
 * Calls on one client, showing what a caller can rely on from the
 * contracts alone: the example requests, and how a sender given to one
 * `message` call carries over into the next.
 */
module Scenarios {
  import opened Results
  import opened Php
  import opened Xml
  import opened Protocol
  import opened Gateway

  function HiData(): Data {
    map["text" := Str("Hi"), "recipient" := Str("380501234567")]
  }

  lemma ShopSenderOk()
    ensures SenderOk(Str("Shop"))
  {
  }

  /** The example data passes every check of `message` once a valid sender is known. */
  lemma HiAccepted(stored: Value)
    requires SenderOk(stored)
    ensures ResolveSender(stored, HiData()) == stored
    ensures ResolveType(HiData()) == Int(SmsType)
    ensures CheckMessage(stored, HiData()).None?
  {
  }

  /** The example data with a per-call sender passes every check of `message`. */
  lemma ShopAccepted(stored: Value)
    ensures ResolveSender(stored, HiData()["sender" := Str("Shop")]) == Str("Shop")
    ensures CheckMessage(stored, HiData()["sender" := Str("Shop")]).None?
  {
  }

  function ExampleData(): Data {
    HiData()["sender" := Str("Shop")]["type" := Int(SmsType)]
  }

  function ExampleTree(generatedId: string): Element {
    Element("package", [Attr("key", Text("K"))], "", [
      Element("message", [], "", [
        Element("msg", [Attr("recipient", Text("380501234567")), Attr("sender", Text("Shop")),
                        Attr("type", Text("0")), Attr("id", Text(generatedId))], "Hi", [])])])
  }

  lemma ExampleAccepted(stored: Value)
    ensures ResolveSender(stored, ExampleData()) == Str("Shop")
    ensures ResolveType(ExampleData()) == Int(SmsType)
    ensures CheckMessage(stored, ExampleData()).None?
  {
  }

  lemma ExampleEncoding(generatedId: string)
    requires Truthy(Str(generatedId))
    ensures Encode(Request(ByKey("K"), CommandOf(MessageOp, Str("Shop"), Int(SmsType), FillId(ExampleData(), generatedId))))
            == ExampleTree(generatedId)
  {
    var d := FillId(ExampleData(), generatedId);
    assert d == ExampleData()["id" := Str(generatedId)];
    assert ToStr(Int(0)) == "0";
    var c := CommandOf(MessageOp, Str("Shop"), Int(SmsType), d);
    assert c == SendMessage("Hi", "380501234567", "Shop", "0", Some(generatedId), None, None, None);
    assert SendAttrs(c) == [Attr("recipient", Text("380501234567")), Attr("sender", Text("Shop")),
                            Attr("type", Text("0")), Attr("id", Text(generatedId))];
  }

  /** A message through a key-configured client; the generated id goes in as `id`. */
  method SendExample(generatedId: string) returns (r: Result<Element, Error>)
    requires Truthy(Str(generatedId))
    ensures r == Success(ExampleTree(generatedId))
  {
    var created := AlphaSms.Create(Null, Null, Str("K"), Null);
    var client := created.value;
    ExampleAccepted(Null);
    r := client.Message(ExampleData(), generatedId);
    ExampleEncoding(generatedId);
  }

  /** A balance query through a key-configured client. */
  method BalanceExample() returns (tree: Element)
    ensures tree == Element("package", [Attr("key", Text("K"))], "", [Element("balance", [], "", [])])
  {
    var created := AlphaSms.Create(Null, Null, Str("K"), Null);
    var client := created.value;
    tree := client.Balance();
  }

  /** A sender given to one call is used by the next call, which gives none. */
  method SenderCarriesOver(generatedId: string) returns (first: Result<Element, Error>, second: Result<Element, Error>)
    ensures first.Success? && second.Success?
    ensures SenderOf(second.value) == Some("Shop")
  {
    var created := AlphaSms.Create(Str("380505550505"), Str("password"), Null, Null);
    var client := created.value;
    ShopAccepted(Null);
    first := client.Message(HiData()["sender" := Str("Shop")], generatedId);
    ShopSenderOk();
    HiAccepted(Str("Shop"));
    assert first.Success?;
    second := client.Message(HiData(), generatedId);
    assert second.Success?;
    RoundTrip(Request(client.Auth(), CommandOf(MessageOp, client.sender, client.typeMessage, FillId(HiData(), generatedId))));
  }

  /** An empty per-call sender replaces the configured one, so the next call fails too. */
  method FailedSenderSticks(generatedId: string) returns (first: Result<Element, Error>, second: Result<Element, Error>)
    ensures first == Failure(InvalidSender) && second == Failure(InvalidSender)
  {
    var created := AlphaSms.Create(Null, Null, Str("K"), Str("Shop"));
    var client := created.value;
    first := client.Message(HiData()["sender" := Str("")], generatedId);
    second := client.Message(HiData(), generatedId);
  }
}
