/**
 * The message list of the assistant chat and the values the send pipeline
 * puts into it.
 */
module Chat {
  import opened Wrappers

  /** An ISO-8601 instant as produced by `new Date().toISOString()`; its value is never inspected. */
  type Time = string

  datatype Sender = User | Bot

  /** `{ sender, text, time }`; the placeholder and the apology carry no time. */
  datatype Message = Message(sender: Sender, text: string, time: Option<Time>)

  /** What the `ask` request produced: the `answer` field of a parsed body, or a thrown error. */
  datatype AskOutcome = Answer(answer: string) | Thrown

  /** A `saveMessage(sender, text)` request that was issued. */
  datatype SaveRequest = SaveRequest(sender: Sender, text: string)

  const PlaceholderText: string := "Typing..."
  const ApologyText: string := "Sorry, something went wrong."

  /** The bot bubble shown while an answer is awaited. */
  const Placeholder: Message := Message(Bot, PlaceholderText, None)

  /** The bubble that replaces the placeholder once the `ask` request settles. */
  function Resolution(outcome: AskOutcome, now: Time): Message
  {
    match outcome
    case Answer(text) => Message(Bot, text, Some(now))
    case Thrown => Message(Bot, ApologyText, None)
  }

  /**
   * `[...prev.slice(0, -1), m]`: the last element is replaced by `m`, every
   * earlier element is kept in place; on an empty list the result is `[m]`.
   */
  function ReplaceTail(prev: seq<Message>, m: Message): (r: seq<Message>)
    ensures |prev| > 0 ==> |r| == |prev|
    ensures |prev| == 0 ==> r == [m]
    ensures r != [] && r[|r| - 1] == m
    ensures forall i :: 0 <= i < |r| - 1 ==> r[i] == prev[i]
  {
    (if |prev| == 0 then [] else prev[..|prev| - 1]) + [m]
  }

  /**
   * One whole exchange: from `history`, the user message and the placeholder
   * are appended and the placeholder is then replaced. The list grows by
   * exactly two, `history` is kept as the prefix, and the resolution follows
   * the user message, whatever the outcome.
   */
  lemma ExchangeAppendsTwo(history: seq<Message>, user: Message, outcome: AskOutcome, now: Time)
    ensures ReplaceTail(history + [user, Placeholder], Resolution(outcome, now))
            == history + [user, Resolution(outcome, now)]
    ensures |ReplaceTail(history + [user, Placeholder], Resolution(outcome, now))| == |history| + 2
  {
  }
}
