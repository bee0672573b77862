/**
 * Which listed message the client reads the assistant's reply from, and
 * how it turns that message's content into one string.
 */
module Extractor {
  import opened Types
  import opened Lines

  /** A message the reply is read from: the assistant's, with content that
      is a non-empty list. An assistant message with empty or non-list
      content is passed over. */
  predicate Eligible(m: Message) {
    m.role == "assistant" && m.content.Blocks? && |m.content.blocks| > 0
  }

  predicate IsTextBlock(b: ContentBlock) {
    b.kind == "text"
  }

  /** The text values of the "text" blocks, in their order; defined from
      the last block, the way the extractor appends them one by one. */
  function TextValues(blocks: seq<ContentBlock>): seq<string>
    decreases |blocks|
  {
    if |blocks| == 0 then []
    else
      var last := blocks[|blocks| - 1];
      TextValues(blocks[..|blocks| - 1]) + (if IsTextBlock(last) then [last.text] else [])
  }

  /** The reply read from one message: its text values joined by newlines. */
  function ResponseText(m: Message): string
    requires m.content.Blocks?
  {
    JoinLines(TextValues(m.content.blocks))
  }

  /** The scan over the listed messages, newest first: the reply of the first
      eligible message, or None when there is none. */
  function LatestAssistantText(messages: seq<Message>): Option<string>
    decreases |messages|
  {
    if |messages| == 0 then None
    else if Eligible(messages[0]) then Some(ResponseText(messages[0]))
    else LatestAssistantText(messages[1..])
  }

  /** TextValues keeps each block's contribution in place: it distributes over concatenation. */
  lemma {:induction false} TextValuesAppend(a: seq<ContentBlock>, b: seq<ContentBlock>)
    ensures TextValues(a + b) == TextValues(a) + TextValues(b)
    decreases |b|
  {
    if |b| == 0 {
      assert a + b == a;
    } else {
      var c := a + b;
      assert c[..|c| - 1] == a + b[..|b| - 1];
      assert c[|c| - 1] == b[|b| - 1];
      TextValuesAppend(a, b[..|b| - 1]);
    }
  }

  /** A single block contributes its text exactly when it is a text block. */
  lemma TextValuesSingle(b: ContentBlock)
    ensures TextValues([b]) == if IsTextBlock(b) then [b.text] else []
  {
    assert [b][..0] == [];
  }

  /** There are no text values exactly when no block is a text block. */
  lemma {:induction false} TextValuesEmpty(blocks: seq<ContentBlock>)
    ensures TextValues(blocks) == [] <==> forall i :: 0 <= i < |blocks| ==> !IsTextBlock(blocks[i])
    decreases |blocks|
  {
    if |blocks| > 0 {
      var init := blocks[..|blocks| - 1];
      TextValuesEmpty(init);
      assert forall i :: 0 <= i < |init| ==> init[i] == blocks[i];
    }
  }

  /** The scan returns the reply of message i when i is the first eligible message. */
  lemma {:induction false} FirstEligibleIsChosen(messages: seq<Message>, i: nat)
    requires i < |messages| && Eligible(messages[i])
    requires forall j :: 0 <= j < i ==> !Eligible(messages[j])
    ensures LatestAssistantText(messages) == Some(ResponseText(messages[i]))
    decreases i
  {
    if i > 0 {
      FirstEligibleIsChosen(messages[1..], i - 1);
    }
  }

  /** The scan returns None exactly when no listed message is eligible. */
  lemma {:induction false} NoneIffNoEligible(messages: seq<Message>)
    ensures LatestAssistantText(messages) == None <==> forall j :: 0 <= j < |messages| ==> !Eligible(messages[j])
    decreases |messages|
  {
    if |messages| > 0 {
      NoneIffNoEligible(messages[1..]);
      assert forall j :: 1 <= j < |messages| ==> messages[j] == messages[1..][j - 1];
    }
  }

  /** A chosen message whose content holds no text block yields "", not None. */
  lemma NoTextBlocksGiveEmptyReply(messages: seq<Message>, i: nat)
    requires i < |messages| && Eligible(messages[i])
    requires forall j :: 0 <= j < i ==> !Eligible(messages[j])
    requires forall k :: 0 <= k < |messages[i].content.blocks| ==> !IsTextBlock(messages[i].content.blocks[k])
    ensures LatestAssistantText(messages) == Some("")
  {
    FirstEligibleIsChosen(messages, i);
    TextValuesEmpty(messages[i].content.blocks);
  }

  /** When the chosen message's text values hold no newline, they can be
      recovered from the reply by splitting it at newlines. */
  lemma ReplySplitsIntoTextValues(m: Message)
    requires m.content.Blocks?
    requires |TextValues(m.content.blocks)| >= 1
    requires forall k :: 0 <= k < |TextValues(m.content.blocks)| ==> NoNewline(TextValues(m.content.blocks)[k])
    ensures SplitLines(ResponseText(m)) == TextValues(m.content.blocks)
  {
    SplitJoin(TextValues(m.content.blocks));
  }
}
