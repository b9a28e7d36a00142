/** The chat message a fired job sends (`onEvent`). */
module Notify {
  import opened Config
  import opened Reader

  /** A webhook message: where it goes, the display name and the text. */
  datatype Message = Message(webhook: string, username: string, content: string)

  const USERNAME_PREFIX := "Calendar bot "
  const CONTENT_PREFIX := "Event: "

  /** `onEvent`: the message for event `e` of calendar `cal`. */
  function OnEvent(e: Event, cal: Calendar): (m: Message)
  {
    Message(cal.webhook, USERNAME_PREFIX + cal.name, CONTENT_PREFIX + e.summary)
  }

  /** The calendar's name and the event's summary can be read back from the
      message: they follow the fixed prefixes. */
  lemma OnEventFields(e: Event, cal: Calendar)
    ensures OnEvent(e, cal).webhook == cal.webhook
    ensures OnEvent(e, cal).username[..|USERNAME_PREFIX|] == USERNAME_PREFIX
    ensures OnEvent(e, cal).username[|USERNAME_PREFIX|..] == cal.name
    ensures OnEvent(e, cal).content[..|CONTENT_PREFIX|] == CONTENT_PREFIX
    ensures OnEvent(e, cal).content[|CONTENT_PREFIX|..] == e.summary
  {
  }

  /** Two jobs send the same message only when they are for the same
      calendar and events with the same summary. */
  lemma OnEventInjective(e1: Event, c1: Calendar, e2: Event, c2: Calendar)
    requires OnEvent(e1, c1) == OnEvent(e2, c2)
    ensures c1 == c2 && e1.summary == e2.summary
  {
    OnEventFields(e1, c1);
    OnEventFields(e2, c2);
  }
}
