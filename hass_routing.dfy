/** The guard of `on_message` in `hass.py`: which Discord messages are
    passed on to Home Assistant Assist. Passing a message on means sending
    its text to Assist and posting the answer in the same channel; both are
    calls out of the model. */
module HassRouting {
  import opened Outcomes
  import opened Text

  /** A message's author: the user id and whether the account is a bot. */
  datatype Author = Author(id: int, isBot: bool)

  /** A message: its author, the id of its channel and its text. */
  datatype Message = Message(author: Author, channelId: int, content: string)

  /** What `on_message` does with a message. */
  datatype Route =
    | Ignored             // written by this bot or by another bot account
    | OtherChannel        // not in the configured channel: no reply
    | Answer(query: string) // the text goes to Assist, the answer is posted
    | BadChannelSetting   // `int(CHANNEL_ID)` raises `ValueError`

  /** The author is the logged-in bot user (discord.py compares users by
      id; before login `bot.user` is `None` and matches nobody) or any bot
      account. */
  predicate FromBot(botUser: Option<int>, author: Author) {
    (botUser.Some? && author.id == botUser.value) || author.isBot
  }

  /** `on_message(message)`, with the `HASS_CHANNEL_ID` value
      `channelSetting`. */
  function RouteMessage(botUser: Option<int>, channelSetting: string, m: Message): (r: Route)
    ensures FromBot(botUser, m.author) ==> r == Ignored
    ensures r.Answer? <==> !FromBot(botUser, m.author) && ParseInt(channelSetting) == Some(m.channelId)
    ensures r.Answer? ==> r.query == m.content
    ensures r == BadChannelSetting <==> !FromBot(botUser, m.author) && ParseInt(channelSetting).None?
    ensures r == OtherChannel ==> ParseInt(channelSetting).Some? && ParseInt(channelSetting).value != m.channelId
  {
    if FromBot(botUser, m.author) then Ignored
    else
      match ParseInt(channelSetting)
      case None => BadChannelSetting
      case Some(channel) => if m.channelId == channel then Answer(m.content) else OtherChannel
  }

  /** With the channel configured as the decimal text of `channel`, exactly
      the messages of other authors in that channel are answered, with
      their text unchanged. The id has at most `MaxStrDigits` digits, as
      every id `str` can print does. */
  lemma ConfiguredChannelAnswered(botUser: Option<int>, channel: int, m: Message)
    requires PrintableInt(channel)
    ensures var r := RouteMessage(botUser, IntString(channel), m);
            && (r.Answer? <==> !FromBot(botUser, m.author) && m.channelId == channel)
            && (r.Answer? ==> r.query == m.content)
            && r != BadChannelSetting
  {
    ParseIntString(channel);
  }

  /** Two messages that differ only in their text are routed alike. */
  lemma RouteIgnoresText(botUser: Option<int>, channelSetting: string, m: Message, text: string)
    ensures RouteMessage(botUser, channelSetting, m).Answer? ==
            RouteMessage(botUser, channelSetting, m.(content := text)).Answer?
  {
  }
}
