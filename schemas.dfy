/**
 * Data shapes shared by the map page and its panels: places (as the
 * analytics and saved-places logic sees them) and chat messages.
 */
module Schemas {

  /** An optional value, standing for a field that may be `undefined`. */
  datatype Option<+T> = None | Some(value: T)

  /**
   * A point of interest. Only the two fields the modelled logic reads are
   * kept: its name (the identity used by the saved-places toggle) and its
   * optional category (the key of the analytics tally).
   */
  datatype Place = Place(name: string, category: Option<string>)

  /** Who wrote a chat message. */
  datatype Role = User | Model

  /** One entry of the chat transcript. */
  datatype ChatMessage = ChatMessage(role: Role, content: string)
}
