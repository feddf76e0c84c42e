# BellaliftBot profile store, in Dafny

BellaliftBot is a Telegram "virtual girlfriend" bot. Each chat has a profile:
an ordered record of string keys (`name`, `age_appearance`, `ethnicity`,
`body`, `attitude`, `seed`, `last_prompt`). The profiles live in one table
keyed by the chat id as a decimal string. The commands `/start`, `/perfil`,
`/set`, `/foto`, `/audio` and the "Ver perfil" button read that table, change
it and answer with text, a photo or a voice message.

This project models that core:

- `strings.dfy` (module `Strings`): `sep.join(parts)`, `s.split(sep)` as an
  inverse of the join, and `str(n)` for integers with a parse that reads back what `str(n)` writes.
- `profiles.dfy` (module `Profiles`): a profile as a sequence of fields in
  insertion order. `Set` is `profile[k] = v`: an existing key is overwritten
  where it stands, a new key is appended. `Merge` is `profile.update(newdata)`.
  `DefaultProfile` is the fixed record a new chat gets.
- `views.dfy` (module `Views`): the pure texts the handlers build. These are
  the `key: value` listing, the `/set` argument parse, the photo prompt, the
  audio text and the fixed reply texts.
- `store.dfy` (module `Store`): the class `ProfileStore`. Its one field
  `profiles` is the whole table. Loading the JSON file is reading the field
  and saving it is assigning the field. `GetOrCreate` and `Update` model
  `get_or_create_profile` and `update_profile`. The class invariant `Valid()`
  says every stored profile has unique keys and every default key.
- `handlers.dfy` (module `Handlers`): one method per command handler. Each
  method changes the store and returns the list of replies the handler sends.
  The image service is a function parameter that answers with image bytes or
  a failure. A `KeyError` raised by `update_profile` ends a handler as
  `Raised`.

The default profile's name is "Lucía", as the code writes it (bot.py:36).

## Model

| member | source | states |
|---|---|---|
| Strings.Join | bot.py:86 | `sep.join(parts)`; it has no contract of its own, and `Strings.SplitJoin` proves that splitting inverts it |
| Strings.SplitJoin | bot.py:86 | joining pieces that hold no separator with a one-character separator and splitting the result gives back exactly those pieces |
| Strings.IntToString | bot.py:34 | `str(n)` for an integer; it has no contract of its own, and `Strings.ParseIntToString` proves it decimal and read back by the parse |
| Strings.ParseIntToString | bot.py:34 | `str(chat_id)` is a well-formed decimal and `int` of it is the chat id again |
| Store.ChatKey | bot.py:34 | the table key `str(chat_id)`; it has no contract of its own, and `Store.ChatKeyInjective` proves distinct chats get distinct keys |
| Store.ChatKeyInjective | bot.py:34 | two chats share a table key only if they are the same chat |
| Profiles.Show | bot.py:77 | `f"{v}"`: a string shows as itself, an integer as a decimal that reads back as that integer |
| Profiles.Lookup | bot.py:102 | `profile.get(k)` finds a value exactly when `k` is one of the profile's keys |
| Profiles.LookupAt | bot.py:102 | in a profile without repeated keys, `profile.get(k)` of each field's key is that field's value |
| Profiles.Get | bot.py:93 | `profile[k]` on a present key; it has no contract of its own, and `Profiles.LookupAt` ties it to the field holding `k` |
| Profiles.Set | bot.py:97 | `profile[k] = v` keeps the key order when `k` is present and appends `k` at the end otherwise |
| Profiles.SetLookup | bot.py:97 | after `profile[k] = v`, `k` reads `v` and every other key reads as before |
| Profiles.SetInPlace | bot.py:97 | a present key takes its new value at its old position and the profile keeps its length |
| Profiles.SetKeepsPositions | bot.py:97 | fields under other keys stay where they were with their values |
| Profiles.SetUniqueKeys | bot.py:97 | an assignment never makes a key appear twice |
| Profiles.Merge | bot.py:49 | `profile.update(newdata)` never removes or reorders the keys already present and adds at most one field per entry of `newdata` |
| Profiles.MergeUpdates | bot.py:49 | after `update(newdata)` every key named in `newdata` holds its new value |
| Profiles.MergeKeepsOthers | bot.py:49 | after `update(newdata)` every key not named in `newdata` reads as before, present or absent |
| Profiles.MergeKeyOrder | bot.py:49 | after `update(newdata)` the old keys come first in their old order, then the new keys in `newdata`'s order |
| Profiles.MergeKeepsPositions | bot.py:49 | fields whose key `newdata` does not name keep their position and value |
| Profiles.MergeUniqueKeys | bot.py:49 | an update never makes a key appear twice |
| Profiles.MergeWellFormed | bot.py:47-50 | an update keeps a profile well formed: unique keys and every default key still present |
| Profiles.DefaultProfile | bot.py:35-43 | the default record has unique keys and holds every key the handlers index |
| Views.Listing | bot.py:77 | the listing text; it has no contract of its own, and the three lemmas below state its lines |
| Views.ListingLines | bot.py:77 | the listing splits at newlines into exactly one `key: value` line per field, in field order |
| Views.ListingShowsValues | bot.py:77 | each line of the listing shows its field's key and the value `profile[k]` gives for that key |
| Views.ListingShowsUpdate | bot.py:75-88 | after a one-field `/set`-style update, of a present key or a new one, the key is in the profile and its listing line shows the new value |
| Views.ListingAfterUpdate | bot.py:124 | after a one-field update of a present key the listing has as many lines as before and shows the new value on that key's own line |
| Views.ParseSet | bot.py:80-86 | fewer than two arguments is a usage error; otherwise the field is the first argument |
| Views.ParseSetValue | bot.py:85-86 | the stored value splits at spaces back into the arguments after the field |
| Views.SetConfirmation | bot.py:88 | the `/set` confirmation starts with the field and ends with the value |
| Views.Prompt | bot.py:92-96 | the prompt template; it has no contract of its own, and the two lemmas below state what it holds |
| Views.PromptEmbedsDescriptors | bot.py:92-96 | the ethnicity descriptor sits unchanged right after the fixed opening and the body descriptor right before the fixed style text |
| Views.PromptDeterminesDescriptors | bot.py:92-96 | given the ethnicity descriptor's length, the prompt determines both descriptors |
| Views.PhotoPrompt | bot.py:92-96 | the prompt of a profile's `ethnicity` and `body`; it has no contract of its own, and `Views.PromptIgnoresOtherUpdates` states what it depends on |
| Views.PromptIgnoresOtherUpdates | bot.py:92-98 | an update that names neither `ethnicity` nor `body`, such as recording `last_prompt`, leaves the next prompt unchanged |
| Views.PhotoCaption | bot.py:108 | the photo caption starts with the profile's name |
| Views.ImageErrorText | bot.py:104 | the image error reply ends with the service's own error text |
| Views.Greeting | bot.py:112 | the default audio greeting holds the profile's name right after its fixed opening |
| Views.AudioText | bot.py:112-113 | the spoken text always ends with the fixed voice-style suffix, and with no arguments it is the greeting naming the profile |
| Views.AudioTextSpeaksArgs | bot.py:112 | with arguments, the text before the suffix splits at spaces back into exactly those arguments |
| Views.AudioCaption | bot.py:116 | the voice message caption ends with the profile's name |
| Views.StartText | bot.py:70-71 | the `/start` greeting holds the profile's name right after its fixed opening |
| Store.ProfileStore.constructor | bot.py:20-22 | a new store is an empty table |
| Store.ProfileStore.GetOrCreate | bot.py:32-45 | an absent chat gets exactly the default profile under its key, and nothing else changes; a present chat gets its stored profile and the table is unchanged; the invariant is kept |
| Store.ProfileStore.Update | bot.py:47-50 | the update fails with `KeyError` exactly when the chat has no profile, and then nothing is saved; otherwise only that chat's entry changes, to the merged profile, and the invariant is kept |
| Handlers.Start | bot.py:68-73 | creates the profile if needed and greets by the profile's name with the "Ver perfil" button |
| Handlers.Perfil | bot.py:75-78 | creates the profile if needed and replies with its listing |
| Handlers.Callback | bot.py:119-125 | always acknowledges the button; only the `ver_perfil` data shows the listing, the same text `/perfil` sends, and any other data leaves the table unchanged |
| Handlers.SetCommand | bot.py:80-88 | usage reply and no change for fewer than two arguments; `KeyError` and no change for a chat without a profile; otherwise a one-field update of field `args[0]` with the space-joined value and a confirmation echoing both |
| Handlers.PhotoReplies | bot.py:100-108 | the "generating" notice comes first; a photo captioned with the profile's name is sent exactly when the image service succeeds, otherwise its error text |
| Handlers.RecordPrompt | bot.py:91-98 | the prompt is built from the profile as loaded and stored as `last_prompt` through `update_profile`, and the handler's copy of the profile carries it too |
| Handlers.Foto | bot.py:90-108 | `last_prompt` is recorded before the image service is called with the prompt and the profile's seed, so a failing service still leaves it recorded and sends no photo |
| Handlers.Audio | bot.py:110-117 | creates the profile if needed and sends one voice message of the audio text, captioned with the profile's name |

## Left out

- The Telegram side (bot.py:68-137): async handlers, the application builder in `main`, message objects, inline keyboards. Each handler is a method that returns its replies in order.
- JSON persistence (bot.py:17-30): the file, its pretty-printing and the startup check that creates it. The table is the field `profiles`; the startup check is the constructor's empty table.
- `generate_image` (bot.py:53-58): the HTTP request is a function parameter that answers with image bytes or a failure message. The request's size fields and authorisation header are not modelled.
- `text_to_speech` and the temporary MP3 file (bot.py:61-65, bot.py:114-117): a foreign library and file system effects. `/audio` replies with the text that would be spoken.
- Environment configuration and tokens (bot.py:12-17).
- Concurrency: two handlers may load, change and save the file at once and lose an update. The model runs handlers one at a time.
- The `KeyError` of `profile['name']`, `profile['ethnicity']` and `profile['body']`: it cannot arise, because `Valid()` keeps every default key in every stored profile. Only a hand-edited file could break that, and files are not modelled.
- Profile values other than strings and integers: the bot only ever stores those.
- `context.args` being `None`: the command handlers always receive a list.
- The fixed texts hold non-ASCII characters (`Lucía`, `—`, `⏳`); the model keeps them as Unicode characters, not as UTF-8 bytes.
