/** The conversation states and the inbound events of the bot. */
module Dialog {

  /**
   * The states a conversation can be in. The onboarding conversation uses
   * `AwaitApiKey`, the deploy conversation the five `Deploy*` states; `End`
   * is `ConversationHandler.END`, no conversation in progress.
   */
  datatype State =
    | AwaitApiKey
    | DeployName
    | DeploySymbol
    | DeployDesc
    | DeployImage
    | DeployConfirm
    | End

  /** The bot's slash commands; `Other` is any other command (`/help`, `/portfolio`, `/fees`, ...). */
  datatype Cmd = Start | SetKey | Deploy | Simulate | Cancel | Other(name: string)

  /** A slash command or a plain text message. */
  datatype Event = Command(cmd: Cmd) | Message(text: string)
}
