/** The command handlers (bot.py:68-125), reduced to their effect on the
    store and the messages they send back to the chat. The image service is
    a function parameter; the chat platform is the list of replies. */
module Handlers {
  import opened Profiles
  import opened Views
  import opened Store

  type Bytes = seq<bv8>

  /** A message the bot sends back to the chat that issued the command. */
  datatype Reply =
    | Text(text: string)
    | TextWithButton(text: string, buttonLabel: string, callbackData: string)
    | Photo(image: Bytes, caption: string)
    | Voice(spoken: string, caption: string)
    | Answer
    | EditText(text: string)

  /** What the image service answers: the image bytes, or the failure it
      raised (an HTTP error status, a timeout, ...). */
  datatype ImageResult = Image(bytes: Bytes) | ImageFailure(message: string)

  /** How a handler ended: it sent its replies, or an exception left it
      (the `KeyError` of `update_profile`) before it sent anything. */
  datatype Handled = Replied(replies: seq<Reply>) | Raised(missingKey: string)

  /** `/start`: greets the chat by the profile's name and offers the
      "view profile" button. */
  method Start(store: ProfileStore, chatId: int) returns (replies: seq<Reply>)
    requires store.Valid()
    modifies store
    ensures store.Valid()
    ensures var p := ProfileOrDefault(old(store.profiles), ChatKey(chatId));
      && store.profiles == old(store.profiles)[ChatKey(chatId) := p]
      && replies == [TextWithButton(StartText(Name(p)), ProfileButtonLabel, ProfileCallbackData)]
  {
    var p := store.GetOrCreate(chatId);
    replies := [TextWithButton(StartText(Name(p)), ProfileButtonLabel, ProfileCallbackData)];
  }

  /** `/perfil`: lists the profile, one `key: value` line per field. */
  method Perfil(store: ProfileStore, chatId: int) returns (replies: seq<Reply>)
    requires store.Valid()
    modifies store
    ensures store.Valid()
    ensures var p := ProfileOrDefault(old(store.profiles), ChatKey(chatId));
      && store.profiles == old(store.profiles)[ChatKey(chatId) := p]
      && replies == [Text(Listing(p))]
  {
    var p := store.GetOrCreate(chatId);
    replies := [Text(Listing(p))];
  }

  /** The "view profile" button: always acknowledged; only its own callback
      data shows the listing, as the same text `/perfil` sends. */
  method Callback(store: ProfileStore, chatId: int, data: string) returns (replies: seq<Reply>)
    requires store.Valid()
    modifies store
    ensures store.Valid()
    ensures data != ProfileCallbackData ==> store.profiles == old(store.profiles) && replies == [Answer]
    ensures data == ProfileCallbackData ==>
      var p := ProfileOrDefault(old(store.profiles), ChatKey(chatId));
      && store.profiles == old(store.profiles)[ChatKey(chatId) := p]
      && replies == [Answer, EditText(Listing(p))]
  {
    replies := [Answer];
    if data == ProfileCallbackData {
      var p := store.GetOrCreate(chatId);
      replies := replies + [EditText(Listing(p))];
    }
  }

  /** `/set <campo> <valor...>`: a usage reply and no change for fewer than
      two arguments; otherwise a one-field update and a confirmation echoing
      field and value. A chat without a profile makes the update raise. */
  method SetCommand(store: ProfileStore, chatId: int, args: seq<string>) returns (h: Handled)
    requires store.Valid()
    modifies store
    ensures store.Valid()
    ensures |args| < 2 ==> h == Replied([Text(UsageText)]) && store.profiles == old(store.profiles)
    ensures |args| >= 2 && ChatKey(chatId) !in old(store.profiles) ==>
      h == Raised(ChatKey(chatId)) && store.profiles == old(store.profiles)
    ensures |args| >= 2 && ChatKey(chatId) in old(store.profiles) ==>
      var request := ParseSet(args);
      && h == Replied([Text(SetConfirmation(request.field, request.value))])
      && store.profiles == old(store.profiles)[ChatKey(chatId) :=
           Merge(old(store.profiles)[ChatKey(chatId)], [Field(request.field, Str(request.value))])]
  {
    var request := ParseSet(args);
    match request
    case Usage =>
      h := Replied([Text(UsageText)]);
    case Assign(field, value) =>
      var outcome := store.Update(chatId, [Field(field, Str(value))]);
      if outcome.KeyError? {
        h := Raised(outcome.key);
      } else {
        h := Replied([Text(SetConfirmation(field, value))]);
      }
  }

  /** What `/foto` sends once the image service has answered: the
      "generating" notice, then the photo captioned with the profile's name,
      or the service's error text and no photo at all. */
  function PhotoReplies(result: ImageResult, name: string): (replies: seq<Reply>)
    ensures |replies| == 2 && replies[0] == Text(GeneratingText)
    ensures result.Image? <==> replies[1].Photo?
    ensures result.Image? ==> replies[1] == Photo(result.bytes, PhotoCaption(name))
    ensures result.ImageFailure? ==> replies[1] == Text(ImageErrorText(result.message))
  {
    [Text(GeneratingText)] +
      match result
      case Image(bytes) => [Photo(bytes, PhotoCaption(name))]
      case ImageFailure(message) => [Text(ImageErrorText(message))]
  }

  /** The first half of `/foto`: get or create the profile, build the prompt
      and record it as `last_prompt` through `update_profile`. The image
      service has not been called yet. */
  method RecordPrompt(store: ProfileStore, chatId: int) returns (prompt: string, profile: Profile)
    requires store.Valid()
    modifies store
    ensures store.Valid()
    ensures var p := ProfileOrDefault(old(store.profiles), ChatKey(chatId));
      && prompt == PhotoPrompt(p)
      && store.profiles == old(store.profiles)[ChatKey(chatId) := Merge(p, [Field("last_prompt", Str(prompt))])]
      && profile == Set(p, "last_prompt", Str(prompt))
    ensures Lookup(store.profiles[ChatKey(chatId)], "last_prompt") == Some(Str(prompt))
  {
    ghost var key := ChatKey(chatId);
    ghost var loaded := store.profiles;
    profile := store.GetOrCreate(chatId);
    ghost var stored := profile;
    prompt := PhotoPrompt(profile);
    // the handler's own copy of the profile gets the prompt too
    profile := Set(profile, "last_prompt", Str(prompt));
    var outcome := store.Update(chatId, [Field("last_prompt", Str(prompt))]);
    ghost var merged := Merge(stored, [Field("last_prompt", Str(prompt))]);
    MergeUpdates(stored, [Field("last_prompt", Str(prompt))], "last_prompt");
    if key !in loaded {
      OverwriteTwice(loaded, key, stored, merged);
    }
  }

  /** `/foto`: records the prompt as `last_prompt` before calling the image
      service with the prompt and the profile's seed, then replies. The store
      change does not depend on what the service answers, so a failing
      service still leaves `last_prompt` recorded. */
  method Foto(store: ProfileStore, chatId: int, generate: (string, Option<Value>) -> ImageResult)
    returns (prompt: string, replies: seq<Reply>)
    requires store.Valid()
    modifies store
    ensures store.Valid()
    ensures var p := ProfileOrDefault(old(store.profiles), ChatKey(chatId));
      && prompt == PhotoPrompt(p)
      && store.profiles == old(store.profiles)[ChatKey(chatId) := Merge(p, [Field("last_prompt", Str(prompt))])]
      && replies == PhotoReplies(generate(prompt, Lookup(p, "seed")), Name(p))
    ensures Lookup(store.profiles[ChatKey(chatId)], "last_prompt") == Some(Str(prompt))
  {
    ghost var p0 := ProfileOrDefault(store.profiles, ChatKey(chatId));
    var profile;
    prompt, profile := RecordPrompt(store, chatId);
    SetLookup(p0, "last_prompt", Str(prompt), "seed");
    SetLookup(p0, "last_prompt", Str(prompt), "name");
    var result := generate(prompt, Lookup(profile, "seed"));
    replies := PhotoReplies(result, Name(profile));
  }

  /** `/audio [texto...]`: speaks the arguments, or a greeting naming the
      profile, with the fixed voice-style suffix. */
  method Audio(store: ProfileStore, chatId: int, args: seq<string>) returns (replies: seq<Reply>)
    requires store.Valid()
    modifies store
    ensures store.Valid()
    ensures var p := ProfileOrDefault(old(store.profiles), ChatKey(chatId));
      && store.profiles == old(store.profiles)[ChatKey(chatId) := p]
      && replies == [Voice(AudioText(args, Name(p)), AudioCaption(Name(p)))]
  {
    var p := store.GetOrCreate(chatId);
    replies := [Voice(AudioText(args, Name(p)), AudioCaption(Name(p)))];
  }

  /** A fresh store, any chat: `/start` creates the default profile, and a
      second lookup returns the same profile without changing the store. */
  method FirstContactScenario(chatId: int)
  {
    var store := new ProfileStore();
    var greeting := Start(store, chatId);
    assert store.profiles == map[ChatKey(chatId) := DefaultProfile()];
    var again := store.GetOrCreate(chatId);
    assert again == DefaultProfile() && store.profiles == map[ChatKey(chatId) := DefaultProfile()];
  }

  /** After `/start`, `/set body <word>` confirms and changes only `body`. */
  method SetScenario(chatId: int, word: string)
  {
    var store := new ProfileStore();
    var greeting := Start(store, chatId);
    var h := SetCommand(store, chatId, ["body", word]);
    assert ParseSet(["body", word]) == Assign("body", word);
    assert h == Replied([Text(SetConfirmation("body", word))]);
    var p := store.profiles[ChatKey(chatId)];
    MergeUpdates(DefaultProfile(), [Field("body", Str(word))], "body");
    MergeKeepsOthers(DefaultProfile(), [Field("body", Str(word))], "name");
    assert Lookup(p, "body") == Some(Str(word));
    assert Lookup(p, "name") == Lookup(DefaultProfile(), "name");
  }

  /** `/set` before any other command: the update raises and nothing is
      stored. */
  method SetBeforeStartScenario(chatId: int)
  {
    var store := new ProfileStore();
    var h := SetCommand(store, chatId, ["body", "curvy"]);
    assert h.Raised? && store.profiles == map[];
  }

  /** An image service that times out: `last_prompt` is still recorded, the
      error is reported and no photo is sent. */
  method FailingImageScenario(chatId: int)
  {
    var store := new ProfileStore();
    var greeting := Start(store, chatId);
    var prompt, replies := Foto(store, chatId, (prompt: string, seed: Option<Value>) => ImageFailure("timeout"));
    assert replies[1] == Text(ImageErrorText("timeout")) && !replies[1].Photo?;
    assert Lookup(store.profiles[ChatKey(chatId)], "last_prompt") == Some(Str(prompt));
  }
}
