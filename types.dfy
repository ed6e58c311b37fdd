/** The records shared by all screens of the application (types.ts). */
module Types {
  import opened Wrappers

  /** The generation status of one emoji slot. */
  datatype Status = Idle | Generating | Success | Error

  /** One requested emoji. `imageUrl` is optional, as in the record it models. */
  datatype EmojiItem = EmojiItem(
    id: string,
    text: string,
    description: string,
    imageUrl: Option<string>,
    status: Status)

  /** A saved collection of generated emojis; `createdAt` is a millisecond timestamp. */
  datatype EmojiSet = EmojiSet(
    id: string,
    createdAt: int,
    concept: string,
    referenceImages: seq<string>,
    items: seq<EmojiItem>)

  /** The three screens of the application. */
  datatype AppView = Gallery | Setup | Workspace

  /** What the setup screen hands to the workspace. */
  datatype SetupData = SetupData(count: int, concept: string, referenceImages: seq<string>)
}
