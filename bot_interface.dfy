/**
 * What every bot receives as conversation history (backend/src/services/bots/BotInterface.js):
 * an array of objects whose fields the bots read by name. A field the object lacks is `None`.
 */
module BotInterface {
  import opened Common

  datatype Entry = Entry(sender: Option<string>, role: Option<string>, content: Option<string>)

  /** JavaScript `msg.sender === 'user'`. */
  predicate SentByUser(e: Entry)
  {
    e.sender == Some("user")
  }

  /** JavaScript `msg.role === 'user'`. */
  predicate RoleIsUser(e: Entry)
  {
    e.role == Some("user")
  }
}
