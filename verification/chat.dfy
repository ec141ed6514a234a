/**
 * The chat log, seen abstractly: the order of the messages the bot appends,
 * not their markup.
 */
module Chat {

  datatype Message =
    | Welcome                     // the greeting added when the bot starts
    | BotText(text: string)       // a canned bot reply
    | UserText(text: string)      // a message shown on the user's side
    | FilesLoaded(count: nat)     // "<count> Framer-compatible file(s) loaded for analysis!"
    | CodeGenerated(code: string) // the generated code with its copy button
    | GenerationFailed            // the one generic error message
}
