/** The openai message and text builders of the older API revision. In this
    revision content builders do not exist yet, so adding a user or assistant
    turn records nothing, and only the reserved system slot can be filled. */
module OpenAIContent {
  import opened GoBase
  import opened Responses

  class MsgBuilder {
    var msgs: seq<InputItem>

    /** Slot 0 is reserved for the system prompt. */
    ghost predicate Valid()
      reads this
    {
      |msgs| >= 1
    }

    /** `Provider.Messages`: one reserved, empty slot. */
    constructor ()
      ensures Valid() && msgs == [NoItem]
    {
      msgs := [NoItem];
    }

    /** `User` ignores the content it is given (no content builder exists in
        this revision, so it is any value) and leaves the message list as it is. */
    method User<Content>(content: Content)
      ensures unchanged(this)
    {
    }

    /** `Assistant` likewise ignores its content. */
    method Assistant<Content>(content: Content)
      ensures unchanged(this)
    {
    }

    /** `buildMessages`: a system message goes into the reserved slot, otherwise
        the slot is dropped. */
    method BuildMessages(sys: InputItem) returns (r: seq<InputItem>)
      requires Valid()
      modifies this
      ensures Valid()
      ensures sys.Message? ==> msgs == old(msgs)[0 := sys] && r == msgs
      ensures !sys.Message? ==> msgs == old(msgs) && r == old(msgs)[1..]
    {
      if sys.Message? {
        msgs := msgs[0 := sys];
        r := msgs;
      } else {
        r := msgs[1..];
      }
    }
  }

  /** Since `User` and `Assistant` record nothing, a message builder only ever
      holds its reserved slot: whatever turns were added, the built list is the
      system message alone, or empty. */
  method BuildFresh<Content>(user: Content, assistant: Content, sys: InputItem) returns (r: seq<InputItem>)
    ensures sys.Message? ==> r == [sys]
    ensures !sys.Message? ==> r == []
  {
    var m := new MsgBuilder();
    m.User(user);
    m.Assistant(assistant);
    r := m.BuildMessages(sys);
  }

  /** `Provider.Contents` is not implemented in this revision. */
  method Contents() returns (r: Outcome)
    ensures r == Fail(Unsupported("Contents"))
  {
    r := Fail(Unsupported("Contents"));
  }

  /** `Provider.Parts` is not implemented in this revision. */
  method Parts() returns (r: Outcome)
    ensures r == Fail(Unsupported("Parts"))
  {
    r := Fail(Unsupported("Parts"));
  }

  class TextBuilder {
    var content: seq<InputContent>

    /** `Provider.Texts`. */
    constructor ()
      ensures content == []
    {
      content := [];
    }

    /** `Text`: one input-text entry per call, in call order. */
    method Text(text: Str)
      modifies this
      ensures content == old(content) + [InputText(text)]
    {
      content := content + [InputText(text)];
    }
  }

  /** `Provider.Tools` is not implemented in this revision. */
  method Tools() returns (r: Outcome)
    ensures r == Fail(Unsupported("Tools"))
  {
    r := Fail(Unsupported("Tools"));
  }
}
