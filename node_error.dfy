/** The parse errors of claris-impl/src/node/error.rs and their display messages. */
module NodeErrors {
  import opened Wrappers

  datatype NodeError =
    | Required(node: string, field: string)
    | InvalidColor(src: string)
    | InvalidLayer
    | InvalidLayerCount
    | InvalidLayerDefine
    | UnknownLayer(name: string)
    | InvalidVertex
    | InvalidPoint

  const RequiredHead: string := "'"
  const RequiredMiddle: string := "' is required '"
  const RequiredTail: string := "' option"
  const ColorHead: string := "invalid color format '"
  const UnknownHead: string := "unknown layer type '"
  const Quote: string := "'"

  /** The `Display` text of an error. */
  function Message(e: NodeError): string {
    match e
    case Required(x, y) => RequiredHead + x + RequiredMiddle + y + RequiredTail
    case InvalidColor(x) => ColorHead + x + Quote
    case InvalidLayer => "invalid layers"
    case InvalidLayerCount => "invalid layers count"
    case InvalidLayerDefine => "invalid layer define"
    case UnknownLayer(x) => UnknownHead + x + Quote
    case InvalidVertex => "invalid vertex"
    case InvalidPoint => "invalid point"
  }

  /**
   * Reads an error back from its message. The one-argument and fixed variants
   * come back exactly; a `Required` message is recognised by its shape only
   * (its two names may themselves contain the separator text), so it decodes
   * to `None`.
   */
  function Decode(msg: string): Option<NodeError> {
    if msg == "invalid layers" then Some(InvalidLayer)
    else if msg == "invalid layers count" then Some(InvalidLayerCount)
    else if msg == "invalid layer define" then Some(InvalidLayerDefine)
    else if msg == "invalid vertex" then Some(InvalidVertex)
    else if msg == "invalid point" then Some(InvalidPoint)
    else if |msg| > |ColorHead| && ColorHead <= msg && msg[|msg| - 1] == '\'' then
      Some(InvalidColor(msg[|ColorHead|..|msg| - 1]))
    else if |msg| > |UnknownHead| && UnknownHead <= msg && msg[|msg| - 1] == '\'' then
      Some(UnknownLayer(msg[|UnknownHead|..|msg| - 1]))
    else None
  }

  /** A `Required` message starts with a quote; no other message does. */
  predicate LooksRequired(msg: string) {
    |msg| > 0 && msg[0] == '\''
  }

  lemma RequiredMessage(x: string, y: string)
    ensures Message(Required(x, y)) == "'" + x + "' is required '" + y + "' option"
    ensures LooksRequired(Message(Required(x, y)))
  {
  }

  /** Every message other than `Required`'s decodes back to the error that produced it. */
  lemma DecodeMessage(e: NodeError)
    requires !e.Required?
    ensures Decode(Message(e)) == Some(e)
    ensures !LooksRequired(Message(e))
  {
    var m := Message(e);
    match e
    case InvalidColor(x) =>
      assert m[..|ColorHead|] == ColorHead;
      assert m[|m| - 1] == '\'';
      assert m != "invalid layers" by { assert m[8] == 'c'; }
      assert m != "invalid layers count" by { assert m[8] == 'c'; }
      assert m != "invalid layer define" by { assert m[8] == 'c'; }
      assert m != "invalid vertex" by { assert m[8] == 'c'; }
      assert m != "invalid point" by { assert m[8] == 'c'; }
      assert m[|ColorHead|..|m| - 1] == x;
    case UnknownLayer(x) =>
      assert m[..|UnknownHead|] == UnknownHead;
      assert m[|m| - 1] == '\'';
      assert m[0] == 'u';
      assert !(ColorHead <= m) by { assert m[0] != ColorHead[0]; }
      assert m[|UnknownHead|..|m| - 1] == x;
    case _ =>
  }

  /** The five fixed messages are pairwise distinct. */
  lemma FixedMessagesDistinct()
    ensures Message(InvalidLayer) != Message(InvalidLayerCount)
    ensures Message(InvalidLayer) != Message(InvalidLayerDefine)
    ensures Message(InvalidLayerCount) != Message(InvalidLayerDefine)
    ensures Message(InvalidVertex) != Message(InvalidPoint)
  {
  }

  /** Two different errors of the decodable kinds never share a message. */
  lemma MessageInjective(e1: NodeError, e2: NodeError)
    requires !e1.Required? && !e2.Required?
    requires Message(e1) == Message(e2)
    ensures e1 == e2
  {
    DecodeMessage(e1);
    DecodeMessage(e2);
  }
}
