/** The outbound side of the relay: the configuration read from the
    environment and the JSON body of one POST to the Slack webhook. */
module Slack {
  import opened Wrappers

  /** The environment variables as read, `None` when unset. */
  datatype Config = Config(slackWebhookUrl: Option<string>, useSlackBlocks: Option<string>)

  /** `!url` is false only for a set, non-empty URL. */
  predicate UrlConfigured(c: Config) {
    c.slackWebhookUrl.Some? && c.slackWebhookUrl.value != ""
  }

  /** Block mode needs the variable to be exactly the string "true". */
  predicate BlocksEnabled(c: Config) {
    c.useSlackBlocks == Some("true")
  }

  const MissingUrlMessage := "Missing SLACK_WEBHOOK_URL in .env"

  /** A Slack text object `{type, text}`. */
  datatype TextObject = TextObject(kind: string, text: string)

  /** A Slack layout block `{type, text}`. */
  datatype Block = Block(kind: string, text: TextObject)

  /** The JSON body of one POST: `{text}` or `{text, blocks}`. */
  datatype SlackPayload =
    | Plain(text: string)
    | Rich(text: string, blocks: seq<Block>)

  /** `blocks ? { text, blocks } : { text }`: any array, even an empty
      one, is truthy, so every given block list is sent. */
  function BuildPayload(text: string, blocks: Option<seq<Block>>): (p: SlackPayload)
    ensures p.text == text
    ensures p.Rich? <==> blocks.Some?
    ensures p.Rich? ==> p.blocks == blocks.value
  {
    match blocks
    case Some(bs) => Rich(text, bs)
    case None => Plain(text)
  }
}
