/**
 Converting a complete chat response to a Responses response. Adjacent texts of one id and phase become the parts of one
 message; reasoning contents join the item of their id wherever it is, or the open one if they have no id.
 */
module ResponsesConverters {
  import opened Basics
  import opened ResponsesTypes
  import CT = ChatTypes

  /**
   The conversion under way. The open message is not listed yet, and has no id if its content had none; `reasoning` and
   `byId` give positions in the output.
   */
  datatype Assembly = Assembly(output: seq<OutputItem>, message: Option<OutputItem>, reasoning: Option<nat>, byId: map<string, nat>)
  {
    predicate Valid() {
      && (message.Some? ==> message.value.MessageItem?)
      && (reasoning.Some? ==> reasoning.value < |output| && output[reasoning.value].ReasoningItem?)
      && (forall id <- byId.Keys :: byId[id] < |output| && output[byId[id]].ReasoningItem?)
    }
  }

  const NOTHING := Assembly([], None, None, map[])

  function Identified(m: OutputItem, responseId: string, out: nat): OutputItem {
    if m.id == "" then m.(id := SyntheticId("msg", responseId, out)) else m
  }

  function FlushMessage(responseId: string, a: Assembly): (r: Assembly)
    requires a.Valid()
    ensures r.Valid() && r.message.None?
  {
    if a.message.None? then a
    else a.(output := a.output + [Identified(a.message.value, responseId, |a.output|)], message := None)
  }

  function NewReasoning(a: Assembly, id: string): (r: Assembly)
    requires a.Valid()
    ensures r.Valid() && r.reasoning.Some?
  {
    var out := |a.output|;
    a.(output := a.output + [ReasoningItem(id, true, [], "")], reasoning := Some(out), byId := a.byId[id := out])
  }

  /** Makes the item that carries the reasoning of the given id the open one. */
  function ReasoningFor(responseId: string, a: Assembly, id: string): (r: Assembly)
    requires a.Valid()
    ensures r.Valid() && r.reasoning.Some? && r.message == a.message
  {
    if id == "" && a.reasoning.Some? then a else
    var key := if id == "" then SyntheticId("rs", responseId, |a.output|) else id;
    if key in a.byId then a.(reasoning := Some(a.byId[key])) else NewReasoning(a, key)
  }

  function AddSummary(a: Assembly, text: string): (r: Assembly)
    requires a.Valid() && a.reasoning.Some?
    ensures r.Valid()
  {
    var k := a.reasoning.value;
    a.(output := a.output[k := a.output[k].(summary := a.output[k].summary + [text])])
  }

  function SetEncrypted(a: Assembly, data: string): (r: Assembly)
    requires a.Valid() && a.reasoning.Some?
    ensures r.Valid()
  {
    var k := a.reasoning.value;
    a.(output := a.output[k := a.output[k].(encrypted := data)])
  }

  function AddText(responseId: string, a: Assembly, id: string, finalAnswer: bool, text: string): (r: Assembly)
    requires a.Valid()
    ensures r.Valid()
  {
    var a := a.(reasoning := None);
    var a := if a.message.Some? && (a.message.value.id != id || a.message.value.finalAnswer != finalAnswer)
             then FlushMessage(responseId, a) else a;
    var m := if a.message.Some? then a.message.value else MessageItem(id, true, finalAnswer, []);
    a.(message := Some(m.(parts := m.parts + [text])))
  }

  function AddCall(responseId: string, a: Assembly, id: string, callId: string, name: string, arguments: string): (r: Assembly)
    requires a.Valid()
    ensures r.Valid()
  {
    var a := FlushMessage(responseId, a).(reasoning := None);
    var itemId := if id == "" then SyntheticId("fc", responseId, |a.output|) else id;
    a.(output := a.output + [CallItem(itemId, true, callId, name, arguments)])
  }

  function Add(responseId: string, a: Assembly, c: CT.Content): (r: Assembly)
    requires a.Valid()
    ensures r.Valid()
  {
    match c.body
    case Text(text) =>
      if c.phase.Reasoning? then AddSummary(ReasoningFor(responseId, FlushMessage(responseId, a), c.id), text)
      else AddText(responseId, a, c.id, IsFinalAnswer(c.phase), text)
    case Opaque(data) =>
      if c.phase.Reasoning? then SetEncrypted(ReasoningFor(responseId, FlushMessage(responseId, a), c.id), data) else a
    case ToolUse(callId, name, inputs) => AddCall(responseId, a, c.id, callId, name, CT.TextualInput(inputs))
    case _ => a
  }

  function Assembled(responseId: string, cs: seq<CT.Content>): (r: Assembly)
    ensures r.Valid()
  {
    if cs == [] then NOTHING else Add(responseId, Assembled(responseId, cs[..|cs| - 1]), cs[|cs| - 1])
  }

  function Converted(responseId: string, cs: seq<CT.Content>): seq<OutputItem> {
    FlushMessage(responseId, Assembled(responseId, cs)).output
  }

  function ConvertedResponse(r: CT.Response): Response {
    var messageId := if r.message.Some? then r.message.value.id else "";
    var id := if messageId == "" then r.id else messageId;
    Response(id, r.model, StatusOf(r.status), if r.message.Some? then Converted(id, r.message.value.contents) else [], r.usage)
  }

  // ----- The conversion as it runs, on shared items -----

  class ItemAssembler {
    const responseId: string
    var output: seq<ItemCell>
    var openMessage: Option<ItemCell>
    var openReasoning: Option<ItemCell>
    var reasoningById: map<string, ItemCell>
    ghost var reasoningAt: nat
    ghost var positions: map<string, nat>
    ghost var repr: set<ItemCell>

    ghost function Open(): set<ItemCell>
      reads `openMessage
    {
      if openMessage.Some? then {openMessage.value} else {}
    }

    ghost function Listed(): seq<OutputItem>
      reads `output, output
    {
      var cells := output;
      seq(|cells|, k requires 0 <= k < |cells| reads cells => cells[k].item)
    }

    ghost function Value(): Assembly
      reads this, output, Open()
    {
      Assembly(Listed(), if openMessage.Some? then Some(openMessage.value.item) else None,
               if openReasoning.Some? then Some(reasoningAt) else None, positions)
    }

    /** The items are distinct objects, and those to be joined are listed. */
    ghost predicate Linked()
      reads this
    {
      && (forall c <- output :: c in repr) && (forall i, j | 0 <= i < j < |output| :: output[i] != output[j])
      && (openMessage.Some? ==> openMessage.value in repr && openMessage.value !in output)
      && (openReasoning.Some? ==> reasoningAt < |output| && output[reasoningAt] == openReasoning.value)
      && positions.Keys == reasoningById.Keys
      && (forall id <- positions.Keys :: positions[id] < |output| && output[positions[id]] == reasoningById[id])
    }

    ghost predicate Valid()
      reads this, output, Open()
    {
      Linked() && Value().Valid()
    }

    twostate predicate Grown()
      reads this
    {
      old(repr) <= repr && fresh(repr - old(repr))
    }

    constructor (responseId: string)
      ensures Valid() && Value() == NOTHING && this.responseId == responseId && repr == {}
    {
      this.responseId := responseId;
      output, openMessage, openReasoning, reasoningById, positions, repr := [], None, None, map[], map[], {};
    }

    method FlushOpenMessage()
      requires Valid()
      modifies this, repr
      ensures Valid() && Value() == FlushMessage(responseId, old(Value())) && Grown() && openMessage.None?
    {
      if openMessage.Some? {
        var cell := openMessage.value;
        if cell.item.id == "" {
          cell.item := Identified(cell.item, responseId, |output|);
        }
        output := output + [cell];
        openMessage := None;
        assert Listed() == FlushMessage(responseId, old(Value())).output;
      }
    }

    method OpenReasoningItem(id: string)
      requires Valid() && openMessage.None?
      modifies this
      ensures Valid() && Value() == ReasoningFor(responseId, old(Value()), id) && Grown() && openMessage.None? && openReasoning.Some?
    {
      hide ItemAssembler.Valid, ItemAssembler.Value, ItemAssembler.Linked, ItemAssembler.Listed, Assembly.Valid, SyntheticId;
      Views();
      if id == "" && openReasoning.Some? {
        return;
      }
      var key := if id == "" then SyntheticId("rs", responseId, |output|) else id;
      if key in reasoningById {
        JoinReasoning(key);
      } else {
        ListItem(ReasoningItem(key, true, [], ""));
        Views();
        Register(key);
      }
    }

    lemma Views()
      requires Valid()
      ensures Value().Valid() && |Value().output| == |output| && Value().byId.Keys == reasoningById.Keys
      ensures openReasoning.Some? ==> openReasoning.value in repr
      ensures Value().reasoning.Some? == openReasoning.Some? && Value().message.Some? == openMessage.Some?
    {
    }

    method JoinReasoning(key: string)
      requires Valid() && key in reasoningById
      modifies `openReasoning, `reasoningAt
      ensures Valid() && Value() == old(Value()).(reasoning := Some(old(Value()).byId[key])) && openReasoning.Some?
    {
      openReasoning := Some(reasoningById[key]);
      reasoningAt := positions[key];
      assert Listed() == old(Listed());
    }

    /** The item listed last becomes the one of this id, and the open one. */
    method Register(key: string)
      requires Valid() && output != [] && Value().output[|output| - 1].ReasoningItem?
      modifies `reasoningById, `positions, `reasoningAt, `openReasoning
      ensures Valid() && openReasoning.Some?
      ensures var a, k := old(Value()), |old(Value()).output| - 1;
              Value() == a.(reasoning := Some(k), byId := a.byId[key := k])
    {
      var cell := output[|output| - 1];
      reasoningById := reasoningById[key := cell];
      openReasoning := Some(cell);
      reasoningAt := |output| - 1;
      positions := positions[key := |output| - 1];
      assert Listed() == old(Listed());
      assert Linked() by {
        hide ItemAssembler.Listed, Assembly.Valid;
      }
      hide ItemAssembler.Linked, ItemAssembler.Listed, Assembly.Valid;
      ReasoningRegistered(old(Value()), key);
    }

    lemma ReasoningRegistered(a: Assembly, key: string)
      requires a.Valid() && a.output != [] && a.output[|a.output| - 1].ReasoningItem?
      ensures var k := |a.output| - 1; a.(reasoning := Some(k), byId := a.byId[key := k]).Valid()
    {
    }

    method AppendSummary(text: string)
      requires Valid() && openReasoning.Some?
      modifies openReasoning.value
      ensures Valid() && Value() == AddSummary(old(Value()), text)
    {
      var cell := openReasoning.value;
      assert Listed()[reasoningAt] == cell.item;
      cell.item := cell.item.(summary := cell.item.summary + [text]);
      assert Listed() == AddSummary(old(Value()), text).output;
    }

    method SetEncryptedContent(data: string)
      requires Valid() && openReasoning.Some?
      modifies openReasoning.value
      ensures Valid() && Value() == SetEncrypted(old(Value()), data)
    {
      var cell := openReasoning.value;
      assert Listed()[reasoningAt] == cell.item;
      cell.item := cell.item.(encrypted := data);
      assert Listed() == SetEncrypted(old(Value()), data).output;
    }

    method AppendText(id: string, finalAnswer: bool, text: string)
      requires Valid()
      modifies this, repr
      ensures Valid() && Value() == AddText(responseId, old(Value()), id, finalAnswer, text) && Grown()
    {
      ForgetReasoning();
      if openMessage.Some? && (openMessage.value.item.id != id || openMessage.value.item.finalAnswer != finalAnswer) {
        FlushOpenMessage();
      }
      if openMessage.None? {
        OpenMessage(MessageItem(id, true, finalAnswer, []));
      }
      ExtendMessage(text);
    }

    method ForgetReasoning()
      requires Valid()
      modifies `openReasoning
      ensures Valid() && Value() == old(Value()).(reasoning := None)
    {
      openReasoning := None;
      assert Listed() == old(Listed());
    }

    method OpenMessage(item: OutputItem)
      requires Valid() && openMessage.None? && item.MessageItem?
      modifies `openMessage, `repr
      ensures Valid() && Value() == old(Value()).(message := Some(item)) && Grown()
    {
      var cell := new ItemCell(item);
      openMessage, repr := Some(cell), repr + {cell};
      assert Listed() == old(Listed());
    }

    method ExtendMessage(text: string)
      requires Valid() && openMessage.Some?
      modifies openMessage.value
      ensures var m := old(Value()).message.value;
              Valid() && Value() == old(Value()).(message := Some(m.(parts := m.parts + [text])))
    {
      var cell := openMessage.value;
      cell.item := cell.item.(parts := cell.item.parts + [text]);
      assert Listed() == old(Listed());
    }

    method AppendCall(id: string, callId: string, name: string, arguments: string)
      requires Valid()
      modifies this, repr
      ensures Valid() && Value() == AddCall(responseId, old(Value()), id, callId, name, arguments) && Grown()
    {
      FlushOpenMessage();
      ForgetReasoning();
      var itemId := if id == "" then SyntheticId("fc", responseId, |output|) else id;
      ListItem(CallItem(itemId, true, callId, name, arguments));
    }

    method ListItem(item: OutputItem)
      requires Valid() && openMessage.None?
      modifies `output, `repr
      ensures Valid() && Value() == old(Value()).(output := old(Value()).output + [item]) && Grown() && |output| == |old(output)| + 1
    {
      var cell := new ItemCell(item);
      output, repr := output + [cell], repr + {cell};
      assert Listed() == old(Listed()) + [item];
    }

    method AppendContent(c: CT.Content)
      requires Valid()
      modifies this, repr
      ensures Valid() && Value() == Add(responseId, old(Value()), c) && Grown()
    {
      hide ItemAssembler.Valid, ItemAssembler.Value, Assembly.Valid;
      hide FlushMessage, ReasoningFor, AddSummary, SetEncrypted, AddText, AddCall;
      match c.body {
        case Text(text) =>
          if c.phase.Reasoning? {
            FlushOpenMessage();
            OpenReasoningItem(c.id);
            Views();
            AppendSummary(text);
          } else {
            AppendText(c.id, IsFinalAnswer(c.phase), text);
          }
        case Opaque(data) =>
          if c.phase.Reasoning? {
            FlushOpenMessage();
            OpenReasoningItem(c.id);
            Views();
            SetEncryptedContent(data);
          }
        case ToolUse(callId, name, inputs) =>
          AppendCall(c.id, callId, name, CT.TextualInput(inputs));
        case _ =>
      }
    }

    method Items() returns (items: seq<OutputItem>)
      requires Valid()
      ensures items == Value().output
    {
      items := [];
      for k := 0 to |output|
        invariant items == Listed()[..k]
      {
        items := items + [output[k].item];
      }
    }
  }

  method ConvertContents(responseId: string, cs: seq<CT.Content>) returns (items: seq<OutputItem>)
    ensures items == Converted(responseId, cs)
  {
    var a := new ItemAssembler(responseId);
    for k := 0 to |cs|
      invariant a.Valid() && a.responseId == responseId && fresh(a) && fresh(a.repr)
      invariant a.Value() == Assembled(responseId, cs[..k])
    {
      assert cs[..k + 1][..k] == cs[..k];
      a.AppendContent(cs[k]);
    }
    assert cs[..|cs|] == cs;
    a.FlushOpenMessage();
    items := a.Items();
  }
}
