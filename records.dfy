/** Rows of the hosted store's tables as the chat page sees them, and the
    string constants the page compares them with. */
module Records {

  /** The conventional optional value: JavaScript's `null` becomes None. */
  datatype Option<+T> = None | Some(value: T)

  /** A row of the `users` table as returned by `select("*")`. The same row
      serves as the signed-in session and as an entry of the admin user list. */
  datatype UserRow = UserRow(
    id: string,
    email: string,
    password: string,
    username: string,
    avatarUrl: string,
    status: string,
    badges: string)

  /** A row of the `channels` table. */
  datatype Channel = Channel(id: string, name: string)

  /** A row of the `messages` table, as fetched or as delivered by the change feed. */
  datatype Message = Message(id: string, text: string, sender: string, channelId: string)

  /** The record the sign-up form inserts into `users`. */
  datatype SignupRecord = SignupRecord(
    email: string,
    password: string,
    username: string,
    avatarUrl: string,
    badges: string)

  /** The record the message form inserts into `messages` (the store assigns the id). */
  datatype NewMessage = NewMessage(text: string, sender: string, channelId: string)

  const Active: string := "Active"
  const Banned: string := "Banned"

  /** Avatar stored when the sign-up form leaves the URL empty. */
  const DefaultAvatar: string := "/default-avatar.png"

  /** `JSON.stringify(["New User"])`: the badge list of a fresh account. */
  const NewUserBadges: string := "[\"New User\"]"

  /** The channel selected when the page mounts. */
  const DefaultChannel: string := "general"
}
