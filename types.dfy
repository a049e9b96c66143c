/** The shapes shared by the client: who sent a message and what a chat message holds. */
module Types {
  import opened Js

  datatype MessageSender = User | Aegis

  /** A chat message of the conversation. An AEGIS message carries the response object
      exactly as it was received (a JSON value), a user message carries its text. */
  datatype ChatMessage = ChatMessage(
    id: string,
    sender: MessageSender,
    text: Option<string>,
    aegisResponse: Option<Json>)
}
