# Welcome/bye card bot: a Dafny model

The bot listens for members joining and leaving a Discord server. For each
event it composes an HTML card (avatar, "<kind>, <nick>" heading and a
sub-message), screenshots it with a headless browser into
`images/<memberId>.png`, posts the image in an embed to the welcome channel
if that channel is found, and then deletes the file.

The model covers the deterministic part of `index-v14.js`:

- `Naming` — the avatar CDN address, and the screenshot's file name and path.
- `CardText` and `Card` — `generateHTML` as a template with three slots that are
  filled verbatim, plus four readers that take a card apart again: a
  front-to-back reader `ParseCard` of all three slots, `ImageSource` and
  `HeadingOf` for the image source and the heading alone, and a back-to-front
  reader `SubMessageOf`. The
  lemmas are stated over any well-formed template and then applied to the
  bot's template, whose fixed text is carried but not reasoned about.
- `Notify` — the embed fields chosen in `sendMessage` (no timestamp).
- `Lifecycle` — the filesystem as a map from paths to entries (`Dir`, or
  `Png` abstracted as the card document it was rendered from) and the
  channel history as a list of deliveries. `Capture`, `Send` and `Run` are
  pure step functions. Class `Bot` holds the same state in fields, and its
  methods (`CaptureScreenshot`, `SendMessage`, the two handlers) are proved
  equal to those step functions.
- `Text` — generic string scanners the lemmas rely on.

The code does not escape, validate or clean up, and the model follows it:

- Nothing is escaped. A `"` in the avatar address cuts the image source short (`Card.ComposeAvatarVerbatim`), and a `<` in the kind or the nick cuts the heading short (`Card.ComposeHeading`).
- The kind is not validated. Any kind other than "Bye" gets the welcome sub-message, and any kind other than "Welcome" gets the red departure embed (`Lifecycle.KindTestsAgree`).
- Cleanup is not guaranteed. When the channel is missing, the screenshot stays on disk (`Lifecycle.RunWithoutChannel`, `Lifecycle.MissingChannelScenario`).
- Screenshot paths are not unique per run. They are keyed by the member id alone (`Naming.ArtifactPathKey`, `Lifecycle.LeftoverReclaimed`).
- A member with no custom avatar has a null hash, and the address then contains the text `null` (`Naming.HashText`).

## Model

| member | source | states |
|---|---|---|
| Naming.AvatarUrl | index-v14.js:128 | the address starts with the CDN avatars prefix and ends with `.png?size=512` |
| Naming.AvatarUrlRoundTrip | index-v14.js:128 | for a user id without '/', the address reads back as exactly that user id and avatar hash |
| Naming.AvatarUrlInjective | index-v14.js:128 | different users or different hashes never get the same avatar address |
| Naming.ParseAvatarUrl | index-v14.js:128 | any address the reader accepts is the CDN prefix, a user id without '/', "/", the hash and `.png?size=512`, with the id and hash it returns |
| Naming.ArtifactName | index-v14.js:101 | the screenshot's file name is the member id followed by `.png` |
| Naming.ArtifactPath | index-v14.js:96-101 | the screenshot's path lies directly inside `images/`, and what follows `images/` is the file name |
| Naming.ArtifactPathBaseName | index-v14.js:101 | the attachment file name `<id>.png` is the last component of the path the screenshot is written to |
| Naming.ArtifactPathKey | index-v14.js:96-101 | screenshot paths lie inside `images/`, and two members share a path exactly when they share an id |
| Card.CardTemplateWellFormed | index-v14.js:72-74 | the fixed text after each slot starts with the character that ends that slot |
| Card.SubMessage | index-v14.js:74 | the farewell text exactly when the kind is "Bye", the welcome text for every other string |
| Card.SubMessagePlain | index-v14.js:74 | neither sub-message contains '<' or '>' |
| Card.ParseFillRoundTrip | index-v14.js:72-74 | for any well-formed template, slots free of their end character read back exactly as filled in |
| Card.ParseCardSound | index-v14.js:72-74 | any document the reader accepts is the template with the values it read filled in |
| Card.ComposeRoundTrip | index-v14.js:21-79 | when the avatar address has no '"' and neither the kind nor the nick has a '<', the bot's card reads back as the avatar address, exactly `kind + ", " + nick` and the kind's sub-message |
| Card.FillImageSource | index-v14.js:72 | the source slot follows the prefix verbatim; the image source read back is the slot cut at its first '"', which is the whole slot exactly when the slot has no '"' |
| Card.ComposeAvatarVerbatim | index-v14.js:72 | the avatar address follows the fixed prefix unescaped; the image source is the address up to its first '"' |
| Card.FillHeading | index-v14.js:73 | for any well-formed template, when the source slot has no '"', the heading read back is the heading slot cut at its first '<', which is the whole slot exactly when it has no '<' |
| Card.ComposeHeading | index-v14.js:73 | for any kind and nick, when the avatar address has no '"', the heading read back is `kind + ", " + nick` cut at its first '<' |
| Card.FillSubMessage | index-v14.js:74 | whatever the other slots hold, a markup-free sub-message is read back from the end of the document |
| Card.ComposeSubMessage | index-v14.js:74 | for every kind, nick and avatar address, the text after the last '>' before the closing `</div>` of the bot's card is the sub-message the kind selects |
| Notify.Greeting | index-v14.js:115 | the join greeting exactly when the kind is "Welcome", the departure copy for every other kind |
| Notify.BuildNotification | index-v14.js:113-120 | green join title exactly for "Welcome", red departure title otherwise; the attachment is named `<id>.png` and the image reference is `attachment://` plus that name |
| Notify.DescriptionNamesUser | index-v14.js:115 | the description is the greeting, then ", ", then the user name and "!" |
| Lifecycle.KindText | index-v14.js:127-139 | the join handler passes exactly "Welcome" and the leave handler exactly "Bye" |
| Lifecycle.EnsureFolder | index-v14.js:97-99 | afterwards the folder exists; an existing entry is left as it is; no other path is touched |
| Lifecycle.EnsureFolderIdempotent | index-v14.js:97-99 | ensuring the folder twice is the same as ensuring it once |
| Lifecycle.Capture | index-v14.js:96-107 | a path is returned exactly when the screenshot can be written, and it is the member's `images/<id>.png`; the images folder exists afterwards; after a write that path holds the card composed from the inputs; a failed write leaves exactly the files with the folder ensured; no other path is touched |
| Lifecycle.Send | index-v14.js:110-125 | with the channel found and a screenshot at the path, the run is sent, exactly one delivery (this notification, that screenshot) is appended and only that path is removed; with no channel, or nothing readable at the path, the world is unchanged |
| Lifecycle.Run | index-v14.js:127-139 | a run fails at the capture exactly when the screenshot cannot be written; otherwise it is sent exactly when the channel is found and ends with the channel missing otherwise; the attachment is never unreadable |
| Lifecycle.CaptureWritable | index-v14.js:97-104 | the write succeeds exactly when no file stands at `images` and no directory at the screenshot's path |
| Lifecycle.RunDelivers | index-v14.js:111-124 | with the channel found, exactly one delivery is appended (this event's notification, this member's card), the screenshot is deleted and the folder remains |
| Lifecycle.RunWithoutChannel | index-v14.js:111-112 | with the channel missing, nothing is posted and the screenshot stays on disk with the card in it |
| Lifecycle.RunCaptureFails | index-v14.js:97-104 | when the screenshot cannot be written, nothing is posted and the member's path is unchanged |
| Lifecycle.RunFrame | index-v14.js:96-124 | a run touches only `images` and the member's screenshot path, and it appends at most one delivery |
| Lifecycle.LeftoverReclaimed | index-v14.js:101 | a screenshot left behind by a run without a channel is overwritten and deleted by the member's next run that finds the channel |
| Lifecycle.KindTestsAgree | index-v14.js:74 | the card's "Bye" test and the embed's "Welcome" test agree (welcome copy with green) exactly for the kinds "Welcome" and "Bye" |
| Lifecycle.HandlersAgree | index-v14.js:127-139 | a join posts green with the welcome card, a leave posts red with the farewell card; the image reference names the last component of the attached path |
| Lifecycle.RunKeepsImagesConsistent | index-v14.js:97-104 | if every file under `images/` has `images` as a directory before a run, that still holds after it |
| Lifecycle.JoinNotification | index-v14.js:113-120 | the embed for member "123" named "Ann" joining: title "New user joined the server", "Welcome to the server, Ann!", image `attachment://123.png`, green, attachment `123.png` |
| Lifecycle.JoinScenario | index-v14.js:127-131 | member "123" named "Ann" joining with the channel found: one green "New user joined the server" post, "Welcome to the server, Ann!", attachment `123.png`, file gone |
| Lifecycle.MissingChannelScenario | index-v14.js:134-138 | member "123" named "Ann", without an avatar, leaving with no channel: nothing posted, `images/123.png` remains |
| Lifecycle.Bot.EnsureImagesFolder | index-v14.js:96-99 | the new filesystem is `EnsureFolder` of the old one, and the posted messages are unchanged; the images invariant is kept |
| Lifecycle.Bot.CaptureScreenshot | index-v14.js:85-108 | the new filesystem and the returned path are those given by `Capture`; the images invariant is kept |
| Lifecycle.Bot.SendMessage | index-v14.js:110-125 | the new state and the outcome are those given by `Send`; the images invariant is kept |
| Lifecycle.Bot.OnGuildMemberAdd | index-v14.js:127-132 | the new state and the outcome are those of a `Run` with the event kind `Join`; the images invariant is kept |
| Lifecycle.Bot.OnGuildMemberRemove | index-v14.js:134-139 | the new state and the outcome are those of a `Run` with the event kind `Leave`; the images invariant is kept |

## Left out

- Browser launch, `setContent`, the 2-second settle delay, `setViewport` and the screenshot's raster content. These belong to an external rendering engine. The image is the card document it was rendered from, and only the 1100x500 viewport is recorded, as constants.
- The Discord client: construction, intents, login, event subscription and the network send. The channel lookup is an `Option<Channel>` parameter, and a send is one `Delivery` appended to the outbox.
- Failures of the browser or the network. Only failures the filesystem state decides are modelled: the folder path is a file, the screenshot path is a directory, or the attachment is missing.
- Rejections of the async handlers. Nothing in `index-v14.js` catches them: the handlers at lines 127-139 have no try/catch, so a failed step leaves an unhandled rejection. When the screenshot throws, `browser.close()` at line 106 is skipped and the browser stays open. The model records how the run ended as an `Outcome` and does not model the browser's lifetime.
- The embed timestamp. It reads the wall clock.
- `__dirname` and the normalisation done by `path.join`. Paths are relative strings (`images/<id>.png`), and the lemmas that split them assume ids contain no '/'. Platform ids are decimal.
- Concurrency between overlapping handler runs, including two runs for one member racing on one file. Runs are sequential here.
- The style sheet, fonts and background image. They are carried in the fixed text of the template, and nothing is proved about them.
