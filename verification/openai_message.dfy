/** The openai message, content and text builders (newer API revision).

    A content builder is a small state machine. Parts (text, images, files)
    are merged into one user message for as long as that message is "open";
    any other item (a reasoning item, a tool call) is appended on its own and
    closes the open message, so the next part starts a new message. */
module OpenAIMessage {
  import opened GoBase
  import opened Xai
  import opened Responses
  import OpenAIData

  /** One call recorded by a content builder: a part that goes into a message, or
      an item that stands alone. */
  datatype Entry = PartEntry(part: InputContent) | ItemEntry(item: InputItem)

  /** The calls one item stands for: a message its parts, any other item itself. */
  function Entries(item: InputItem): seq<Entry> {
    if item.Message? then seq(|item.content|, i requires 0 <= i < |item.content| => PartEntry(item.content[i]))
    else [ItemEntry(item)]
  }

  /** The items, read back as the sequence of calls that produced them. */
  function Flatten(items: seq<InputItem>): seq<Entry>
    decreases |items|
  {
    if items == [] then [] else Flatten(items[..|items| - 1]) + Entries(items[|items| - 1])
  }

  lemma FlattenSnoc(items: seq<InputItem>, item: InputItem)
    ensures Flatten(items + [item]) == Flatten(items) + Entries(item)
  {
    assert (items + [item])[..|items|] == items;
  }

  /** The same message with its role switched to assistant; other items as they are. */
  function AsAssistant(item: InputItem): InputItem {
    if item.Message? then item.(role := RoleAssistant) else item
  }

  /** Switching roles leaves every call where it was: roles do not show in the
      flattened sequence, so no part is lost, added or reordered. */
  lemma {:induction false} FlattenIgnoresRoles(items: seq<InputItem>, out: seq<InputItem>)
    requires |out| == |items|
    requires forall i :: 0 <= i < |items| ==> out[i] == AsAssistant(items[i])
    ensures Flatten(out) == Flatten(items)
    decreases |items|
  {
    if items != [] {
      var n := |items| - 1;
      FlattenIgnoresRoles(items[..n], out[..n]);
      assert Entries(out[n]) == Entries(items[n]);
    }
  }

  /** The items once part `v` is added: appended to the last item when a message
      is open, otherwise as a new user message holding only `v`. */
  function WithPart(items: seq<InputItem>, open: bool, v: InputContent): seq<InputItem>
    requires open ==> |items| > 0 && items[|items| - 1].Message?
  {
    if !open then items + [Message([v], RoleUser)]
    else
      var n := |items| - 1;
      items[n := items[n].(content := items[n].content + [v])]
  }

  /** Adding a part, whether merged or in a new message, adds exactly that one
      call to the flattened sequence and changes nothing before it. */
  lemma {:induction false} WithPartAddsOneCall(items: seq<InputItem>, open: bool, v: InputContent)
    requires open ==> |items| > 0 && items[|items| - 1].Message?
    ensures Flatten(WithPart(items, open, v)) == Flatten(items) + [PartEntry(v)]
  {
    if !open {
      FlattenSnoc(items, Message([v], RoleUser));
      assert Entries(Message([v], RoleUser)) == [PartEntry(v)];
    } else {
      MergeAddsOneCall(items[..|items| - 1], items[|items| - 1], v);
      assert items == items[..|items| - 1] + [items[|items| - 1]];
    }
  }

  lemma {:induction false} MergeAddsOneCall(front: seq<InputItem>, last: InputItem, v: InputContent)
    requires last.Message?
    ensures var grown := last.(content := last.content + [v]);
      Flatten(front + [grown]) == Flatten(front + [last]) + [PartEntry(v)]
  {
    var grown := last.(content := last.content + [v]);
    FlattenSnoc(front, last);
    FlattenSnoc(front, grown);
    EntriesOfGrown(last, v);
  }

  lemma EntriesOfGrown(last: InputItem, v: InputContent)
    requires last.Message?
    ensures Entries(last.(content := last.content + [v])) == Entries(last) + [PartEntry(v)]
  {
  }

  class ContentBuilder {
    var content: seq<InputItem>
    /** `msg != nil`: the last item is a message that still takes parts. */
    var open: bool
    /** Every call accepted so far, in call order. */
    ghost var calls: seq<Entry>

    ghost predicate Valid()
      reads this
    {
      && Flatten(content) == calls
      && (open ==> |content| > 0 && content[|content| - 1].Message?)
      && forall i :: 0 <= i < |content| && content[i].Message? ==>
           content[i].role == RoleUser && |content[i].content| > 0
    }

    /** `Provider.Contents`. */
    constructor ()
      ensures Valid() && content == [] && !open && calls == []
    {
      content, open, calls := [], false, [];
    }

    /** `addMsg`: a part goes into the open message, or opens a new user message
        holding exactly that part. */
    method AddMsg(v: InputContent)
      requires Valid()
      modifies this
      ensures Valid() && open && calls == old(calls) + [PartEntry(v)]
      ensures content == WithPart(old(content), old(open), v)
    {
      WithPartAddsOneCall(content, open, v);
      content := WithPart(content, open, v);
      open := true;
      calls := calls + [PartEntry(v)];
    }

    /** `addNonMsg`: appends one item on its own and closes the open message. */
    method AddNonMsg(v: InputItem)
      requires Valid() && !v.Message?
      modifies this
      ensures Valid() && !open
      ensures content == old(content) + [v]
      ensures calls == old(calls) + [ItemEntry(v)]
    {
      FlattenSnoc(content, v);
      content := content + [v];
      open := false;
      calls := calls + [ItemEntry(v)];
    }

    method Text(text: Str)
      requires Valid()
      modifies this
      ensures Valid() && open && calls == old(calls) + [PartEntry(InputText(text))]
      ensures content == WithPart(old(content), old(open), InputText(text))
    {
      AddMsg(InputText(text));
    }

    /** `Image` of prebuilt image data is not implemented for this backend. */
    method Image(image: OpenAIData.InputData) returns (r: Outcome)
      ensures r == Fail(Unsupported("Image"))
    {
      r := Fail(Unsupported("Image"));
    }

    /** `ImageURL`: an input image by URL; the MIME type is not passed on. */
    method ImageURL(mime: Str, url: Str)
      requires Valid()
      modifies this
      ensures Valid() && open && calls == old(calls) + [PartEntry(InputImage(Some(url), None))]
      ensures content == WithPart(old(content), old(open), InputImage(Some(url), None))
    {
      AddMsg(InputImage(Some(url), None));
    }

    /** `ImageFile`: an input image by file ID; the MIME type is not passed on. */
    method ImageFile(mime: Str, fileID: Str)
      requires Valid()
      modifies this
      ensures Valid() && open && calls == old(calls) + [PartEntry(InputImage(None, Some(fileID)))]
      ensures content == WithPart(old(content), old(open), InputImage(None, Some(fileID)))
    {
      AddMsg(InputImage(None, Some(fileID)));
    }

    /** `Doc` of prebuilt document data is not implemented for this backend. */
    method Doc(doc: OpenAIData.InputData) returns (r: Outcome)
      ensures r == Fail(Unsupported("Doc"))
    {
      r := Fail(Unsupported("Doc"));
    }

    method DocURL(mime: Str, url: Str)
      requires Valid()
      modifies this
      ensures Valid() && open && calls == old(calls) + [PartEntry(InputFile(Some(url), None, None))]
      ensures content == WithPart(old(content), old(open), InputFile(Some(url), None, None))
    {
      AddMsg(InputFile(Some(url), None, None));
    }

    method DocFile(mime: Str, fileID: Str)
      requires Valid()
      modifies this
      ensures Valid() && open && calls == old(calls) + [PartEntry(InputFile(None, Some(fileID), None))]
      ensures content == WithPart(old(content), old(open), InputFile(None, Some(fileID), None))
    {
      AddMsg(InputFile(None, Some(fileID), None));
    }

    /** `Thinking`: one reasoning item whose ID is the signature and whose single
        content entry is the thinking text. */
    method Thinking(signature: Str, thinking: Str)
      requires Valid()
      modifies this
      ensures Valid() && !open
      ensures content == old(content) + [Reasoning(signature, [ReasoningText(thinking)])]
      ensures calls == old(calls) + [ItemEntry(Reasoning(signature, [ReasoningText(thinking)]))]
    {
      AddNonMsg(Reasoning(signature, [ReasoningText(thinking)]));
    }

    method RedactedThinking(data: Str) returns (r: Outcome)
      ensures r == Fail(Unsupported("RedactedThinking"))
    {
      r := Fail(Unsupported("RedactedThinking"));
    }
  }

  class MsgBuilder {
    var msgs: seq<InputItem>

    /** Slot 0 is reserved for the system prompt. */
    ghost predicate Valid()
      reads this
    {
      |msgs| >= 1
    }

    /** `Provider.Messages`: one reserved, empty slot. */
    constructor ()
      ensures Valid() && msgs == [NoItem]
    {
      msgs := [NoItem];
    }

    /** `User`: the content builder's items, unchanged and in order. */
    method User(content: ContentBuilder)
      requires Valid()
      modifies this
      ensures Valid() && msgs == old(msgs) + content.content
    {
      msgs := msgs + content.content;
    }

    /** `Assistant`: the content builder's items in order, with the role of every
        message item set to assistant and every other item untouched. */
    method Assistant(content: ContentBuilder)
      requires Valid()
      modifies this
      ensures Valid()
      ensures |msgs| == |old(msgs)| + |content.content| && msgs[..|old(msgs)|] == old(msgs)
      ensures forall i :: 0 <= i < |content.content| ==> msgs[|old(msgs)| + i] == AsAssistant(content.content[i])
    {
      var items := content.content;
      var i := 0;
      while i < |items|
        invariant 0 <= i <= |items| && |items| == |content.content|
        invariant forall k :: 0 <= k < i ==> items[k] == AsAssistant(content.content[k])
        invariant forall k :: i <= k < |items| ==> items[k] == content.content[k]
      {
        if items[i].Message? {
          items := items[i := items[i].(role := RoleAssistant)];
        }
        i := i + 1;
      }
      msgs := msgs + items;
    }

    /** `buildMessages`: a system message is written into the reserved slot of
        this builder's own list, which is then returned whole; otherwise the
        slot is dropped and exactly the appended items are returned. */
    method BuildMessages(sys: InputItem) returns (r: seq<InputItem>)
      requires Valid()
      modifies this
      ensures Valid()
      ensures sys.Message? ==> msgs == old(msgs)[0 := sys] && r == msgs
      ensures !sys.Message? ==> msgs == old(msgs) && r == old(msgs)[1..]
    {
      if sys.Message? {
        msgs := msgs[0 := sys];
        r := msgs;
      } else {
        r := msgs[1..];
      }
    }
  }

  class TextBuilder {
    var content: seq<InputContent>

    /** `Provider.Texts`. */
    constructor ()
      ensures content == []
    {
      content := [];
    }

    /** `Text`: one input-text entry per call, in call order. */
    method Text(text: Str)
      modifies this
      ensures content == old(content) + [InputText(text)]
    {
      content := content + [InputText(text)];
    }
  }

  /** `Provider.Tools` is not implemented. */
  method Tools() returns (r: Outcome)
    ensures r == Fail(Unsupported("Tools"))
  {
    r := Fail(Unsupported("Tools"));
  }
}
