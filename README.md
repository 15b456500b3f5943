# AdamsProjectBot conversation core, in Dafny

This project models the logic of the AdamsProjectBot chat bots and proves properties of it.

- **Telegram bot (index.js).** A per-chat conversation engine with five stores keyed by chat id. The stores drive two guided flows and their housekeeping.
  - `userStates`: the stage of the website flow.
  - `siteSessions`: the five-question website Q&A.
  - `userSessions`: the six-step flyer flow with its edit menu.
  - `waitingForContactMessage`: the one-shot "contact the admin" flag.
  - `sessionTimeout`: the last-activity time that the ten-minute expiry sweeper reads.

  The engine is the class `ChatEngine.Engine`. Every `bot.on("message")` listener is a method, and `HandleMessage` runs them in registration order. The button listeners make up `HandleCallback`. The sweeper is `Tick(now)`, with the clock as a parameter. Everything the bot sends goes to an outbox as an abstract notice.

  Two pure parts come from the same file:
  - the template catalogues and their normalisation (`Catalog`);
  - the extension lookup of `sendFileAuto`, with Node's `path.extname`/`path.basename` rules (`FileTypes`, `FileTypeLaws`).
- **Second Telegram bot (bot.js).** The `/create <template>` capture and validation, the `/mywebsites` and `/transactions` listings, and the `/wallet`, `/dailybonus` and `/admin` replies (`BotCommands.CommandBot`).
- **Database layer (firebase.js).** The wallet and website records, over a map from database path to stored JSON value (`WalletStore.Database`).
- **WhatsApp bot (adamsbot/WhatsAppBot/WhatsAppBot/WhatsAppBot/index.js).** The `messages.upsert` handler, with its in-memory premium set and its `.menu`, `.addprem`, `.removeprem` and `.status` commands (`PremiumBot.Bot`).

`Text` holds the JavaScript string operations these rely on. `Wrappers` holds `Option` and `Result`.

The model follows what the code does, also where that is not what its comments or its flow suggest:

- **The sweeper does not clear the contact flag.** Its comment reads "Clear all sessions for this user" (index.js:768). But its `waitingForContactMessage.delete(chatId)` receives the string key of a `for..in` loop, while the Set holds numbers, so the flag survives (index.js:772).
- **/start does not clear the contact flag either.** Its comment reads "Clear any previous sessions for this user" (index.js:198), but it uses `delete` on the Set (index.js:202), which removes a property, not a member. `/cancel`, under "Clear all user flows" (index.js:90), does clear it (index.js:94).
- **A template pick is also recorded as the style answer.** The template listener (index.js:364) and the Q&A listener (index.js:402) both see every message. So the message that picks a valid template is recorded again as the answer to question 1 (`style`), and the title question is skipped (`ChatEngine.PickSkipsTitle`, `ChatEngine.PickThenThreeAnswers`).
- **A refused template reply still answers the Q&A.** While a website session is open and the chat is back at the template menu, a reply that is not a catalogue name is refused, and then stored as the answer to the current question, which moves the Q&A on (`ChatEngine.RouteStoresAnswer`).
- **Finishing the Q&A keeps the stage.** It deletes the website session but keeps `userStates`, so the next message opens a fresh session at question 0 (`ChatEngine.FiveAnswersSummarise`). "skip" is not special in the website Q&A; it is stored as the text "skip".
- **Every message stamps the activity time.** The template listener sets `sessionTimeout[chatId]` before it checks the stage (index.js:368), so any chat that writes anything, even one that never started a flow, gets the expiry notice ten minutes later (`ChatEngine.Arrival`, `ChatEngine.Engine.Tick`).
- **Starting one flow does not clear another.** Starting the flyer flow leaves any website session as it was.

## Model

| member | source | states |
|---|---|---|
| Text.Trim | index.js:371 | `trim` drops exactly the maximal runs of JavaScript whitespace at both ends: the result is the slice of the input that starts after the leading run, everything after it is whitespace, it is empty iff the input is all whitespace, and otherwise it starts and ends with a non-space |
| Text.TrimIdempotent | index.js:596 | trimming an already trimmed text changes nothing |
| Text.LowerChar | index.js:242 | `toLowerCase` maps exactly the letters A–Z, each 32 code points down, and no result is a capital |
| Text.Lower | index.js:242 | the model's `toLowerCase`, restricted to ASCII: the length is kept and each character is mapped on its own by `LowerChar`, so only A–Z change |
| Text.LowerIdempotent | index.js:371 | lower-casing twice is lower-casing once, and a text without capitals is unchanged |
| Text.PrefixesExclusive | adamsbot/WhatsAppBot/WhatsAppBot/WhatsAppBot/index.js:29-69 | two prefixes that differ at a position inside both cannot both start the same text |
| Text.Digits | bot.js:123 | the decimal rendering of a natural number is a non-empty run of digit characters, one digit exactly below 10 |
| Text.DecimalString | bot.js:123 | `toString` of an integer is non-empty and starts with '-' exactly for negative numbers |
| Text.DigitsInjective | bot.js:123 | two natural numbers with the same digits are equal |
| Text.DecimalStringInjective | bot.js:123 | two integers render to the same string iff they are equal, so comparing ids as strings compares the numbers |
| Catalog.IncludesIsMembership | index.js:372 | `list.includes(x)` holds iff `x` is an element of the list |
| Catalog.PremiumAreTemplates | index.js:169-191 | every premium template is one the website flow accepts |
| Catalog.CatalogNamesArePlain | index.js:169-184 | every catalogue name is non-empty lower-case letters, digits and '-' |
| Catalog.TrimPadded | index.js:371 | a word with no whitespace at its ends, padded by whitespace, trims back to the word |
| Catalog.NormalizePadded | index.js:371 | a plain name typed in any case, with any whitespace around it, normalises to that name |
| Catalog.AcceptsAnyCaseAndPadding | index.js:371-372 | the template step accepts every catalogue name whatever its case and padding |
| FileTypes.GetFindsFirst | index.js:49-50 | a table lookup finds a value iff some entry has the key, and the value is that of the first such entry |
| FileTypes.StripTrailingSlashes | index.js:51 | trailing slashes are removed and only those: the result is a prefix, ends in no slash, and everything cut was a slash |
| FileTypes.LastIndexOf | index.js:48 | the position returned holds the character and none after it does; none is returned iff the character does not occur |
| FileTypes.BaseName | index.js:51 | `path.basename` contains no slash |
| FileTypes.ExtName | index.js:48 | `path.extname(...).slice(1)` contains no dot and no slash |
| FileTypes.LookupsMatch | index.js:19-45 | over tables that match entry by entry, both lookups succeed together, the kind is the one the MIME type calls for, and no listed type is the fallback type |
| FileTypes.MatchFrom | index.js:19-45 | tables whose entries match position by position match as tables |
| FileTypes.ApplicationIsDocument | index.js:20-22 | an "application/..." type is sent as a document |
| FileTypes.DocumentEntriesMatch | index.js:20-22 | the pdf, docx and doc entries of the two tables agree |
| FileTypes.ImageEntriesMatch | index.js:23-26 | the png, jpg, jpeg and gif entries of the two tables agree |
| FileTypes.MediaEntriesMatch | index.js:27-30 | the mp3, wav, mp4 and mov entries of the two tables agree |
| FileTypes.TablesAgree | index.js:19-45 | `mimeTypes` and `telegramTypes` know the same extensions; the upload kind always follows the content type's major type; the content type is the fallback iff the extension is unknown |
| FileTypes.FileDelivery | index.js:47-51 | `sendFileAuto` sends under the base name, with an upload kind that follows the content type, and with the fallback type and a document upload exactly for unlisted extensions |
| FileTypes.LastIndexOfAfter | index.js:51 | the last occurrence of a character that ends `x` and is absent from `y` in `x + y` is the end of `x` |
| FileTypes.BaseNameOfFile | index.js:51 | the base name of "dir/name" is `name` |
| FileTypes.ExtNameFromBase | index.js:48 | the extension is what follows the last dot of the base name when that dot does not open it |
| FileTypes.FileNameShape | index.js:48 | "stem.e" has no slash and its last dot is right after the stem |
| FileTypes.ExtNameOfFile | index.js:48 | the extension of "dir/stem.e" is `e` |
| FileTypes.LowerKeepsPathChars | index.js:48 | lower-casing introduces no dot and no slash |
| FileTypes.SameFoldedExtension | index.js:48-50 | paths whose extensions agree after lower-casing get the same content type and upload kind |
| FileTypeLaws.SentByExtension | index.js:48-50 | a path's content type is its lower-cased extension's, and an unlisted extension gives the fallback type and a document |
| FileTypeLaws.DeliveryIgnoresCase | index.js:48 | "dir/x.JPG" and "dir/x.jpg" are sent alike |
| FileTypeLaws.UnknownExtensionIsDocument | index.js:49-50 | a file whose extension neither table lists is sent as an "application/octet-stream" document |
| FileTypeLaws.TestFileIsDocument | index.js:103-106 | `/sendtest`'s ./test.txt is sent as an "application/octet-stream" document |
| ChatEngine.QuestionKey | index.js:389-399 | no question asks for the template |
| ChatEngine.QuestionIndex | index.js:389-399 | every answer key is asked by exactly the question `QuestionKey` maps back to it |
| ChatEngine.Forget | index.js:766-773 | the four object stores lose the chats and the contact set and joined flags stay; well-formedness is kept |
| ChatEngine.Cancelled | index.js:87-101 | after cancelling, no store holds the chat, the contact set included; joined flags stay; well-formedness is kept |
| ChatEngine.CancelIdempotent | index.js:310-320 | cancelling a second time changes no store |
| ChatEngine.Expired | index.js:767 | defines the due chats: those with a timestamp more than 600000 ms before now (`ExpiryIsStrict`, `SweepLeavesNothingDue` are proved about it) |
| ChatEngine.SweepLeavesNothingDue | index.js:764-779 | after a sweep no chat is due at the same time, so a second tick sends nothing |
| ChatEngine.ExpiryIsStrict | index.js:767 | a chat idle for exactly ten minutes (or less) is not due |
| ChatEngine.ExpiryNotices | index.js:775 | one expiry notice per swept chat, in sweep order |
| ChatEngine.SkipOrText | index.js:621-625 | defines the optional flyer fields' value: none iff the text lower-cases to "skip", otherwise the text (used by `FlyerCases`) |
| ChatEngine.EditChoice | index.js:645-653 | the edit menu selects a step exactly for the texts "1" to "6", and that step is the number written |
| ChatEngine.PickChat | index.js:766 | `for..in` visits a key of the timestamp store |
| ChatEngine.JoinedEffect | index.js:240-253 | the joined listener as a value: only the joined flags can change, and well-formedness is kept |
| ChatEngine.ContactEffect | index.js:328-349 | the contact listener as a value: only the contact set can change, and afterwards the chat is never waiting |
| ChatEngine.ChoiceEffect | index.js:364-382 | the template listener as a value: every message stamps the chat's time; the flyer sessions and the flags never change |
| ChatEngine.AnswerEffect | index.js:402-443 | the Q&A listener as a value: only the website sessions change, and well-formedness is kept |
| ChatEngine.FlyerEffect | index.js:594-657 | the flyer listener as a value: only the flyer sessions change |
| ChatEngine.FlyerStaysLocal | index.js:594-657 | the flyer listener changes no chat but its own |
| ChatEngine.FlyerCases | index.js:594-657 | step by step: no session, an empty text or a command does nothing; steps 1–5 store and ask the next question; 6 renders and keeps or drops the session; 7 does nothing; 8 jumps to a step or re-prompts |
| ChatEngine.FlyerStoresTrimmed | index.js:596-612 | what steps 1–4 store is the trimmed text, so it has no whitespace at either end |
| ChatEngine.FlyerReadsOwnStore | index.js:594-657 | the flyer listener reads only the flyer sessions: stores agreeing on them give the same replies and session changes |
| ChatEngine.Route | index.js:364-657 | the three flow listeners in order, stopping after a throw of the first: the time is stamped and the flags are untouched |
| ChatEngine.RouteIgnoresFlags | index.js:364-657 | the flow listeners read neither the contact set nor the joined flags |
| ChatEngine.Arrival | index.js:240-657 | all five listeners in order: the time is stamped, the contact flag is consumed, and the joined flag is set iff the text is a joined reply |
| ChatEngine.ArrivalFlowStores | index.js:240-349 | the joined and contact listeners leave the stages and sessions to the flow listeners alone |
| ChatEngine.RouteCases | index.js:364-657 | a valid pick with no session ends at step 2 with the pick also the style; a miss keeps the stage and opens a step-0 session; no text stops after the throw; commands never reach the flyer flow |
| ChatEngine.PickSkipsTitle | index.js:364-412 | a pick with no session opens the Q&A at question 2 with the template and the pick's own text as the style, and replies "selected" then question 2 |
| ChatEngine.RouteStoresAnswer | index.js:364-443 | with a session open, any message that does not throw is stored as the current answer and moves the Q&A on; a non-catalogue reply while at the template menu is first refused, then still stored |
| ChatEngine.RouteOpensSession | index.js:402-408 | a chat with a stage and no session, that does not pick, gets a session at question 0 and question 0, after a refusal when it was choosing |
| ChatEngine.RouteEndsWithFlyer | index.js:594-657 | the flyer listener runs last on the flyer session as the message found it, and its replies end the message's replies |
| ChatEngine.AnswerInQna | index.js:402-443 | in the Q&A stage, outside the flyer flow, one answer gets exactly the next question, or the plan after the fifth, and the session moves on or is dropped |
| ChatEngine.PickInTemplateStage | index.js:364-412 | a pick by a chat outside both sessions gets exactly "selected" and question 2 |
| ChatEngine.QnaReplies | index.js:412-443 | the Q&A owes one reply per remaining answer: the next questions in order, then a plan, all to the chat |
| ChatEngine.QnaReplay | index.js:402-443 | the remaining answers of a Q&A get exactly `QnaReplies`; the session is then gone and the stage stays |
| ChatEngine.FiveAnswersSummarise | index.js:402-443 | five answers from question 0 get questions 1–4 and then the plan holding exactly those five answers under title, style, features, colors and mode |
| ChatEngine.PickThenThreeAnswers | index.js:364-443 | a pick and three answers give a plan with the template, the pick's text as the style and the three answers, and no title |
| ChatEngine.Engine.constructor | index.js:108-115 | a fresh process has empty stores, an empty outbox and the recorded joined flags |
| ChatEngine.Engine.Cancel | index.js:87-101 | `/cancel` empties every store for the chat and sends one notice |
| ChatEngine.Engine.Start | index.js:194-203 | `/start` clears the four object stores for the chat but keeps the contact flag |
| ChatEngine.Engine.SendTest | index.js:103-106 | `/sendtest` sends ./test.txt as `sendFileAuto` chooses and changes no store |
| ChatEngine.Engine.StartCreateFlow | index.js:352-362 | the chat is set to choose a template, an existing website session is kept, and the menu is sent |
| ChatEngine.Engine.StartFlyerFlow | index.js:585-591 | a new flyer session at step 1 replaces any earlier one |
| ChatEngine.Engine.OnJoinedText | index.js:240-253 | "joined" or "✅ joined", in any case, sets the joined flag; any other message changes nothing |
| ChatEngine.Engine.OnContactMessage | index.js:328-349 | a waiting chat's message goes to the admin trimmed, under the sender's id (`msg.from.id`), then the chat is told "sent" or "failed" as the forward went, and the flag is consumed; a chat that is not waiting gets nothing and no store changes |
| ChatEngine.Engine.OnTemplateChoice | index.js:364-382 | the activity time is always stamped; while choosing, a catalogue name moves the chat to the Q&A and opens a session at step 1 only if none exists; a miss re-prompts and stays; no text throws |
| ChatEngine.Engine.OnWebsiteAnswer | index.js:402-443 | any chat with a stage answers: no session opens one at question 0; otherwise the raw text is stored under the current key and the step moves on by one, or after the fifth answer the plan is sent and the session dropped while the stage stays |
| ChatEngine.Engine.OnFlyerMessage | index.js:594-657 | no session, an empty text or a command changes nothing; steps 1–4 store and advance; 5–6 store "skip" as no value; a failed render at 6 drops the session; 7 ignores text; 8 jumps to steps 1–6 or re-prompts |
| ChatEngine.Engine.RouteText | index.js:364-657 | the three flow listeners in order, with exactly the stores and replies of `Route`: a valid pick with no session ends at step 2 with the pick also stored as the style; a miss keeps the stage and opens a step-0 session; no text stops after the throw; commands never reach the flyer flow |
| ChatEngine.Engine.HandleMessage | index.js:240-657 | one message has exactly the stores and replies of `Arrival`: it touches only its chat, stamps its time, always consumes the contact flag, and sets the joined flag iff it is a joined reply |
| ChatEngine.Engine.OnMainCallback | index.js:256-325 | "admin..." buttons are refused to others; "create" needs the joined flag; "flyer", "contact" and "cancel" change state; other buttons only reply |
| ChatEngine.Engine.OnAdminCallback | index.js:524-554 | only the admin's four panel buttons get a report; no store changes |
| ChatEngine.Engine.OnFlyerCallback | index.js:660-680 | with a session, "regenerate_flyer" sets step 8 from any step and "done_flyer" deletes it; otherwise nothing |
| ChatEngine.Engine.HandleCallback | index.js:256-680 | a button touches only its chat; "create" without the joined flag changes nothing; "cancel" empties every store for the chat |
| ChatEngine.Engine.Tick | index.js:764-779 | exactly the chats idle more than ten minutes leave the four object stores, each gets one notice and none twice, and the contact set is untouched |
| WalletStore.WalletPathInjective | firebase.js:25 | different users have different wallet paths |
| WalletStore.PathsDistinct | firebase.js:16-25 | no wallet path is a website path |
| WalletStore.Wallet | firebase.js:24-27 | defines `getWallet`: the stored value when it is truthy, else 0; it is never a falsy value other than 0 (`WalletReadAfterWrite` is proved about it) |
| WalletStore.Balance | firebase.js:34 | in a well-typed store the balance is the stored number, or 0 when none is stored |
| WalletStore.Websites | firebase.js:19-22 | defines `getUserWebsites`: the stored value when it is truthy, else `{}`; the result is always truthy (`Pushed` is proved about the sites it reads) |
| WalletStore.Sites | firebase.js:19-22 | a user's sites have distinct keys, and there are none when nothing is stored |
| WalletStore.Deduct | firebase.js:40-46 | defines the deduction: it fails with "Insufficient funds" iff the balance would drop below zero, otherwise the new balance is the old minus the amount, which may be exactly 0 (`AddThenDeduct` is proved about it) |
| WalletStore.WalletReadAfterWrite | firebase.js:24-31 | a written balance reads back exactly, and no other user's wallet reads differently |
| WalletStore.WalletWriteKeepsWebsites | firebase.js:29-31 | a wallet write leaves every website record as it was |
| WalletStore.WalletWriteWellTyped | firebase.js:29-31 | a wallet write keeps the store well-typed |
| WalletStore.AddThenDeduct | firebase.js:33-46 | adding an amount and deducting it again succeeds iff the starting balance was not negative, and restores it |
| WalletStore.Pushed | firebase.js:15-17 | a push appends one entry after the existing ones and changes no other user's sites and no wallet |
| WalletStore.Database.constructor | firebase.js:13 | the client starts over the given well-typed store |
| WalletStore.Database.GetWallet | firebase.js:24-27 | reads the wallet, with 0 for a missing or falsy value |
| WalletStore.Database.GetUserWebsites | firebase.js:19-22 | reads the sites, with `{}` for a missing or falsy value |
| WalletStore.Database.SetWallet | firebase.js:29-31 | overwrites `wallets/uid` and nothing else |
| WalletStore.Database.AddToWallet | firebase.js:33-38 | stores and returns the balance plus the amount, whatever its sign |
| WalletStore.Database.DeductFromWallet | firebase.js:40-46 | fails, writing nothing, iff the balance would go below zero; otherwise stores and returns the new balance |
| WalletStore.Database.SaveWebsiteData | firebase.js:15-17 | appends the data under a new key, keeping every existing entry |
| BotCommands.RunLength | bot.js:47 | `.` matches exactly the characters up to the next line terminator |
| BotCommands.FindCreate | bot.js:47 | the position found is the leftmost where "/create " is followed by a matchable character, and none is found iff there is no such position |
| BotCommands.CreateCapture | bot.js:47 | `/\/create (.+)/` fails iff no position matches; a capture is non-empty and spans no line terminator |
| BotCommands.CaptureOfCommand | bot.js:47-49 | the capture of a one-line "/create name" is `name` |
| BotCommands.CreateAcceptsAnyCaseAndPadding | bot.js:49-52 | an allowed name in any case, with any whitespace around it, normalises to itself and is accepted |
| BotCommands.Render | bot.js:91 | defines the template literal's rendering: a string as itself, a number as its decimal digits (`DecimalStringInjective` makes distinct numbers render apart) |
| BotCommands.Field | bot.js:90-91 | `site.template` finds a value iff the object has that key, and returns the stored value |
| BotCommands.FieldText | bot.js:91 | a missing field renders as "undefined" |
| BotCommands.AdminIsOneUser | bot.js:122-123 | the `/admin` check passes for exactly one user id, 7782756234 |
| BotCommands.CommandBot.constructor | bot.js:1 | no sessions, nothing sent |
| BotCommands.CommandBot.Start | bot.js:20-44 | the welcome goes out only if registration did not throw |
| BotCommands.CommandBot.Create | bot.js:47-67 | no match does nothing; a name outside the six allowed ones is refused and the sessions are untouched; an allowed one replaces the chat's session with `{step: 'title', template}` |
| BotCommands.CommandBot.ShowWallet | bot.js:70-76 | `/wallet` replies with the balance read under the chat id's decimal string |
| BotCommands.CommandBot.MyWebsites | bot.js:79-95 | an empty record gives "no websites"; otherwise one line per stored site, in key order, with its template and url |
| BotCommands.CommandBot.DailyBonus | bot.js:97-105 | any exception from the bonus call becomes the "already claimed" reply |
| BotCommands.CommandBot.Transactions | bot.js:107-120 | a throwing history call sends nothing; an empty history gives "No wallet history found"; otherwise one line per entry in order |
| BotCommands.CommandBot.Admin | bot.js:122-125 | "Not authorized" unless the sender is user 7782756234 |
| PremiumBot.OrElse | adamsbot/WhatsAppBot/WhatsAppBot/WhatsAppBot/index.js:26-27 | defines the JavaScript `or` of an optional string: a present non-empty string is kept, otherwise the fallback (`Body` is proved from it) |
| PremiumBot.Body | adamsbot/WhatsAppBot/WhatsAppBot/WhatsAppBot/index.js:27 | the body is the conversation text when there is one, and comes from elsewhere only when that is empty or absent |
| PremiumBot.Mentioned | adamsbot/WhatsAppBot/WhatsAppBot/WhatsAppBot/index.js:51-52 | a mention exists iff the first mentioned JID is present and non-empty |
| PremiumBot.UserPart | adamsbot/WhatsAppBot/WhatsAppBot/WhatsAppBot/index.js:33 | `split('@')[0]` is the longest prefix without '@' |
| PremiumBot.CommandOf | adamsbot/WhatsAppBot/WhatsAppBot/WhatsAppBot/index.js:29-69 | each command is recognised iff the body starts with its prefix, so at most one of the independent tests fires |
| PremiumBot.NextPremium | adamsbot/WhatsAppBot/WhatsAppBot/WhatsAppBot/index.js:21-70 | ignored messages keep the set; `.addprem` adds and `.removeprem` removes the mentioned JID; nothing else changes it |
| PremiumBot.Replies | adamsbot/WhatsAppBot/WhatsAppBot/WhatsAppBot/index.js:21-70 | a handled command gets exactly one reply, sent to the chat it came from; anything else gets none |
| PremiumBot.UpsertIdempotent | adamsbot/WhatsAppBot/WhatsAppBot/WhatsAppBot/index.js:54 | handling the same upsert twice leaves the set as handling it once |
| PremiumBot.OnlyPremiumCommandsChange | adamsbot/WhatsAppBot/WhatsAppBot/WhatsAppBot/index.js:50-69 | only `.addprem` or `.removeprem` with a mention changes the set; `.status` never does |
| PremiumBot.AnyoneCanGrant | adamsbot/WhatsAppBot/WhatsAppBot/WhatsAppBot/index.js:50-64 | who sent a premium command does not matter |
| PremiumBot.StatusAfterGrant | adamsbot/WhatsAppBot/WhatsAppBot/WhatsAppBot/index.js:50-69 | after `.addprem` names a JID, its `.status` reports premium; after `.removeprem`, not premium |
| PremiumBot.Bot.constructor | adamsbot/WhatsAppBot/WhatsAppBot/WhatsAppBot/index.js:8 | the premium set starts empty |
| PremiumBot.Bot.HandleUpsert | adamsbot/WhatsAppBot/WhatsAppBot/WhatsAppBot/index.js:21-70 | the listener's independent `if`s change the set as `NextPremium` says and send the `Replies` |

## Left out

- **Telegram, WhatsApp and Firebase transport.** Sending, answering callback queries, the file download and re-upload listener (index.js:117-149) and the file send of `sendFileAuto` are left out. Replies are abstract notices, without their Markdown or emoji wording.
- **Reply contents computed by I/O.** The `mywebsites` reply and the admin-panel reports of index.js (index.js:445-470, 524-554) are built from database reads; only the fact that a reply goes out is modelled. The static texts (`premium`, `pricing`, `help`, index.js:473-486, 488, 562) are abstract notices like every other reply.
- **Flyer rendering** (`generateFlyer`, `wrapText`, index.js:683-761). It uses canvas pixels, font metrics and image loading. Its success or failure is the parameter `renderOk`.
- **`users.json` persistence** (index.js:157-162, 782-784) and the Firebase test write. The joined flags loaded at start are the constructor's parameter.
- **Timers and the clock.** `setInterval` and `Date.now` become the explicit `Tick(now)` and `now` parameters.
- **Firebase SDK setup** (firebase.js:2-13). **netlify.js** and **admin.js** are not part of this model: they are an HTTP upload and filesystem access.
- **Interleavings and concurrency.** Interleavings of the `await`s, including the non-atomic read-then-write of `addToWallet`/`deductFromWallet`, are not modelled. Each handler runs to completion.
- **Order between command and message listeners.** The order of `onText` handlers against `message` listeners is decided by the Telegram library, so commands are separate operations. Only the order of the `message` listeners among themselves is modelled.
- **Unexported database functions.** bot.js imports `registerUser`, `claimDailyBonus` and `getWalletHistory`, which firebase.js does not export. Their outcome is a parameter (`registered`, `outcome`, `history`), not behaviour.
- **Dates in `/transactions`.** `toLocaleString` is left out: a line keeps the stored time.
- ChatEngine.Engine.Tick: the order in which `for..in` visits keys is left open. The expired chats are removed from the stores after the loop, not inside it, which gives the same final state.
- ChatEngine.Engine.OnContactMessage: the outcome reply is appended right after the forward; in the bot it follows when the forward's promise settles, possibly after later messages' replies.
- ChatEngine.Engine.HandleCallback: states only what holds across the listeners; the effect of each listener is that listener's contract.
- **Non-ASCII case mapping.** Lower-casing maps only A–Z, one character to one character. JavaScript's `toLowerCase` follows full Unicode case mapping:
  - it lower-cases other scripts;
  - it can change the length: U+0130 becomes two code units;
  - it depends on context for the capital sigma.

  Some non-ASCII capitals fold onto ASCII letters, such as U+212A KELVIN SIGN onto 'k'. So the bot accepts text that the model refuses:
  - "DAR\u212AFUSION" picks `darkfusion` at index.js:371-373;
  - "S\u212AIP" counts as "skip" at index.js:619-623;
  - the same holds for the `/create` names at bot.js:49-52.
- **JavaScript numbers are integers here.** There are no fractions, NaN or 2^53 limit, and wallet amounts are integers.
- **Prototype keys.** Lookups in the `mimeTypes`/`telegramTypes` object literals ignore inherited prototype properties such as "constructor".
- **Stored values** (`WellTyped`). Every wallet path is assumed to hold a number; what `+` and `-` would do with a string stored there is not modelled. Every `websites/<uid>` path is assumed to hold an object with distinct keys, as pushes build it; `Sites`, `Pushed` and `Database.SaveWebsiteData` rely on that.
- **Push keys.** They are a parameter, required to differ from the keys already stored, as the SDK's generator guarantees. A user id containing '/' is treated as part of a flat key, not as a nested path.
- **Empty upsert batch.** In the WhatsApp bot it throws on `messages[0].message`. It is modelled as ignoring the batch.
