/** The values that travel between the chat page, the history list and the
    chat relay. */
module ChatTypes {
  import opened Base

  datatype Role = User | Assistant

  datatype Message = Message(role: Role, content: string)

  /** One entry of the saved-chats record, keyed by its id. `createdAt` is the
      creation instant in milliseconds; it is absent for entries written
      without one. */
  datatype SavedChat = SavedChat(id: string, title: string, messages: seq<Message>, createdAt: Option<int>)
}
