/**
 * History messages, and the ones each transcript entry maps to (`mapEntryToHistory` in
 * server/src/session-transcript.ts).
 */
module History {
  import opened Options

  datatype Role = User | Assistant | Thinking | ToolCall | ToolResult

  datatype HistoryMessage = HistoryMessage(
    role: Role,
    content: string,
    timestamp: int,
    toolName: string,
    toolCallId: Option<string>,
    entryId: Option<string>,
    isError: bool,
    forceCommand: bool,
    images: seq<string>)

  datatype Block =
    | ThinkingBlock(text: string)
    | TextBlock(text: string)
    | CallBlock(name: string, arguments: string, id: Option<string>)
    | OtherBlock

  datatype Message =
    | UserMessage(text: string)
    | AssistantBlocks(blocks: seq<Block>)
    | AssistantText(text: string)
    | ResultMessage(name: string, text: string, isError: bool, toolCallId: Option<string>, images: seq<string>)
    | BashMessage(command: string, output: string, exitCode: Option<int>)
    | OtherMessage

  /** A line of the transcript: the header, a model change, a message, or anything else. */
  datatype Entry =
    | SessionEntry(header: string)
    | ModelChange(model: Option<string>)
    | MessageEntry(id: Option<string>, timestamp: int, message: Message)
    | OtherEntry

  function Plain(role: Role, content: string, timestamp: int): HistoryMessage {
    HistoryMessage(role, content, timestamp, "", None, None, false, false, [])
  }

  function NameOr(name: string): string {
    if name == "" then "unknown" else name
  }

  function MapBlock(b: Block, timestamp: int): seq<HistoryMessage> {
    match b
    case ThinkingBlock(text) => if text == "" then [] else [Plain(Thinking, text, timestamp)]
    case TextBlock(text) => if text == "" then [] else [Plain(Assistant, text, timestamp)]
    case CallBlock(name, arguments, id) =>
      [Plain(ToolCall, arguments, timestamp).(toolName := NameOr(name), toolCallId := id)]
    case OtherBlock => []
  }

  function MapBlocks(blocks: seq<Block>, timestamp: int): seq<HistoryMessage> {
    if |blocks| == 0 then [] else MapBlock(blocks[0], timestamp) + MapBlocks(blocks[1..], timestamp)
  }

  /** The history messages an entry produces, none to many. */
  function MapEntry(e: Entry): seq<HistoryMessage> {
    if !e.MessageEntry? then []
    else
      match e.message
      case UserMessage(text) => if text == "" then [] else [Plain(User, text, e.timestamp).(entryId := e.id)]
      case AssistantBlocks(blocks) => MapBlocks(blocks, e.timestamp)
      case AssistantText(text) => if text == "" then [] else [Plain(Assistant, text, e.timestamp)]
      case ResultMessage(name, text, isError, toolCallId, images) =>
        [HistoryMessage(ToolResult, text, e.timestamp, NameOr(name), toolCallId, if images == [] then None else e.id,
                        isError, false, images)]
      case BashMessage(command, output, exitCode) =>
        [Plain(ToolCall, command, e.timestamp).(toolName := "bash", forceCommand := true)]
        + (if output == "" then []
           else [Plain(ToolResult, output, e.timestamp).(toolName := "bash",
                                                         isError := exitCode.Some? && exitCode.value != 0)])
      case OtherMessage => []
  }
}
