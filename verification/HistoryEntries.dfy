/**
 * What a transcript entry says can be read back from the history messages it is mapped
 * to (`mapEntryToHistory` in server/src/session-transcript.ts).
 */
module HistoryEntries {
  import opened Options
  import opened History

  /** What a reader of the history is to learn from one entry. */
  datatype Seen =
    | Nothing
    | UserSaid(text: string, entryId: Option<string>)
    | AgentSaid(blocks: seq<Block>)
    | ToolAnswered(name: string, text: string, isError: bool, callId: Option<string>, images: seq<string>,
                   imagesEntry: Option<string>)
    | UserRan(tool: string, command: string, output: string, failed: bool)

  predicate Empty(b: Block) {
    match b
    case ThinkingBlock(text) => text == ""
    case TextBlock(text) => text == ""
    case CallBlock(_, _, _) => false
    case OtherBlock => true
  }

  /** The blocks that show, in order; a call without a name is of an unknown tool. */
  function Visible(blocks: seq<Block>): seq<Block> {
    if |blocks| == 0 then []
    else
      var b := blocks[|blocks| - 1];
      Visible(blocks[..|blocks| - 1])
      + if Empty(b) then [] else if b.CallBlock? && b.name == "" then [b.(name := "unknown")] else [b]
  }

  function SeenIn(e: Entry): Seen {
    if !e.MessageEntry? then Nothing
    else
      match e.message
      case UserMessage(text) => if text == "" then Nothing else UserSaid(text, e.id)
      case AssistantBlocks(blocks) => if Visible(blocks) == [] then Nothing else AgentSaid(Visible(blocks))
      case AssistantText(text) => if text == "" then Nothing else AgentSaid([TextBlock(text)])
      case ResultMessage(name, text, isError, callId, images) =>
        ToolAnswered(if name == "" then "unknown" else name, text, isError, callId, images,
                     if images == [] then None else e.id)
      case BashMessage(command, output, exitCode) =>
        UserRan("bash", command, output, output != "" && exitCode.Some? && exitCode.value != 0)
      case OtherMessage => Nothing
  }

  function BlockOf(m: HistoryMessage): Block {
    match m.role
    case Thinking => ThinkingBlock(m.content)
    case Assistant => TextBlock(m.content)
    case ToolCall => CallBlock(m.toolName, m.content, m.toolCallId)
    case _ => OtherBlock
  }

  /** Reading an entry's history messages back. */
  function ReadBack(ms: seq<HistoryMessage>): Seen {
    if ms == [] then Nothing
    else if ms[0].role.User? then UserSaid(ms[0].content, ms[0].entryId)
    else if ms[0].role.ToolResult? then
      ToolAnswered(ms[0].toolName, ms[0].content, ms[0].isError, ms[0].toolCallId, ms[0].images, ms[0].entryId)
    else if ms[0].forceCommand then
      var answered := |ms| > 1 && ms[1].role.ToolResult? && ms[1].toolName == ms[0].toolName;
      UserRan(ms[0].toolName, ms[0].content, if answered then ms[1].content else "", answered && ms[1].isError)
    else AgentSaid(seq(|ms|, i requires 0 <= i < |ms| => BlockOf(ms[i])))
  }

  /** The messages show these blocks, one each and in order, and are no one else's. */
  predicate Show(ms: seq<HistoryMessage>, blocks: seq<Block>) {
    && |ms| == |blocks|
    && (forall k :: 0 <= k < |ms| ==> BlockOf(ms[k]) == blocks[k])
    && (forall m <- ms :: !m.role.User? && !m.role.ToolResult? && !m.forceCommand && !m.isError && m.images == [])
  }

  lemma {:induction false} MapBlocksLast(blocks: seq<Block>, b: Block, timestamp: int)
    ensures MapBlocks(blocks + [b], timestamp) == MapBlocks(blocks, timestamp) + MapBlock(b, timestamp)
  {
    var more := blocks + [b];
    if |blocks| == 0 {
      assert more == [b] && more[1..] == [];
      assert MapBlock(b, timestamp) + [] == [] + MapBlock(b, timestamp);
    } else {
      assert more[1..] == blocks[1..] + [b];
      MapBlocksLast(blocks[1..], b, timestamp);
    }
  }

  lemma {:induction false} BlocksShow(blocks: seq<Block>, timestamp: int)
    ensures Show(MapBlocks(blocks, timestamp), Visible(blocks))
  {
    if |blocks| > 0 {
      var init, b := blocks[..|blocks| - 1], blocks[|blocks| - 1];
      BlocksShow(init, timestamp);
      assert blocks == init + [b];
      MapBlocksLast(init, b, timestamp);
    }
  }

  lemma {:induction false} BlocksDated(blocks: seq<Block>, timestamp: int)
    ensures forall m <- MapBlocks(blocks, timestamp) :: m.timestamp == timestamp
  {
    if |blocks| > 0 {
      BlocksDated(blocks[1..], timestamp);
    }
  }

  /**
   * Who said what, in which order, with which ids, images and failures: all of it
   * can be read back from the messages an entry maps to, dated as the entry is.
   */
  lemma EntryReadsBack(e: Entry)
    ensures ReadBack(MapEntry(e)) == SeenIn(e)
    ensures e.MessageEntry? ==> forall m <- MapEntry(e) :: m.timestamp == e.timestamp
  {
    if e.MessageEntry? && e.message.AssistantBlocks? {
      var ms, blocks := MapEntry(e), Visible(e.message.blocks);
      BlocksShow(e.message.blocks, e.timestamp);
      BlocksDated(e.message.blocks, e.timestamp);
      if ms != [] {
        assert ReadBack(ms).blocks == blocks;
      }
    }
  }
}
