/** The value types of the app: the anonymised peer profile and one chat message.
    Their `UUID` ids and the message's `Date` timestamp are foreign values and are left out. */
module Models {

  datatype Option<T> = None | Some(value: T)

  /** What a discovered peer chooses to show: no name, no photo. */
  datatype PeerProfile = PeerProfile(
    pseudonym: string,
    year: string,
    major: string,
    avatarIcon: string,
    helpTags: seq<string>,
    bio: string)

  /** One bubble of the chat log; `isMe` tells the user's own messages from the peer's. */
  datatype ChatMessage = ChatMessage(text: string, isMe: bool)

  /** The one profile that tapping a found spark opens. */
  const NeonWalker := PeerProfile(
    "NeonWalker",
    "Junior",
    "Digital Arts",
    "person.crop.circle.badge.moon",
    ["Safe Walk", "SwiftUI Help", "Coffee Chat"],
    "Designing for the future. Love sci-fi and chai.")

  /** The canned text of every simulated reply. */
  const ReplyText := "Hey! I'm nearby. I'd love to chat!"

  /** The message the user sends with `text`. */
  function Mine(text: string): (m: ChatMessage)
  {
    ChatMessage(text, true)
  }

  /** The simulated reply of the peer. */
  function Reply(): (m: ChatMessage)
  {
    ChatMessage(ReplyText, false)
  }
}
