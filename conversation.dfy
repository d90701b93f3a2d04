/**
 * The chat transcript of app/tabs/chatbot.tsx: who sent each message, the option buttons a
 * bot message may carry, and the two ways the transcript leaves the screen, as the assistant's
 * conversation and as the plain-text history attached to an escalated ticket.
 */
module Conversation {
  import opened Strings
  import opened Assistant

  datatype Sender = User | Bot | Analyst | System

  /** `MessageMeta`: the buttons under an issue-selection or a choice-prompt message. */
  datatype Meta = NoMeta | IssueOptions(options: seq<string>) | PromptChoice(promptId: string, options: seq<string>)

  /**
   * A chat message. The source draws ids from the clock and a random suffix; the model draws
   * them from a counter, so `id` stands for any fresh identifier.
   */
  datatype Message = Message(id: nat, sender: Sender, text: string, meta: Meta)

  /** The role the assistant sees for each sender: analysts and the bot both read as the assistant. */
  function RoleOf(s: Sender): Role {
    match s
    case User => UserRole
    case System => SystemRole
    case _ => AssistantRole
  }

  /** `conversation.map((m) => ({ role, content: m.text }))`. */
  function ToChatMessages(msgs: seq<Message>): (r: seq<ChatMessage>)
    ensures |r| == |msgs|
    ensures forall i :: 0 <= i < |msgs| ==> r[i] == ChatMessage(RoleOf(msgs[i].sender), msgs[i].text)
  {
    seq(|msgs|, i requires 0 <= i < |msgs| => ChatMessage(RoleOf(msgs[i].sender), msgs[i].text))
  }

  /** The name a sender is printed with in the ticket history (`m.sender`). */
  function SenderName(s: Sender): string {
    match s
    case User => "user"
    case Bot => "bot"
    case Analyst => "analyst"
    case System => "system"
  }

  function HistoryLines(msgs: seq<Message>): (r: seq<string>)
    ensures |r| == |msgs|
    ensures forall i :: 0 <= i < |msgs| ==> r[i] == SenderName(msgs[i].sender) + ": " + msgs[i].text
  {
    seq(|msgs|, i requires 0 <= i < |msgs| => SenderName(msgs[i].sender) + ": " + msgs[i].text)
  }

  const HISTORY_LIMIT: nat := 8000

  /** `messages.map((m) => m.sender + ': ' + m.text).join('\n').slice(0, 8000)`. */
  function History(msgs: seq<Message>): string {
    Take(Join(HistoryLines(msgs), "\n"), HISTORY_LIMIT)
  }

  /** The history never exceeds 8000 characters and is a prefix of the full transcript. */
  lemma HistoryBound(msgs: seq<Message>)
    ensures |History(msgs)| <= HISTORY_LIMIT
    ensures StartsWith(Join(HistoryLines(msgs), "\n"), History(msgs))
  {
  }

  /** When the transcript fits, every message appears in the history as `sender: text`. */
  lemma HistoryMentionsEveryMessage(msgs: seq<Message>, k: nat)
    requires k < |msgs|
    requires |Join(HistoryLines(msgs), "\n")| <= HISTORY_LIMIT
    ensures Contains(History(msgs), SenderName(msgs[k].sender) + ": " + msgs[k].text)
  {
    JoinContainsPart(HistoryLines(msgs), "\n", k);
  }
}
