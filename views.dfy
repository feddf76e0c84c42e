/** The pure text the command handlers build from a profile and the command
    arguments: the profile listing, the `/set` argument parse, the photo
    prompt, the audio text, and the fixed reply texts. */
module Views {
  import opened Strings
  import opened Profiles

  /** `profile['name']` as the handlers format it. */
  function Name(p: Profile): string
    requires "name" in Keys(p)
  {
    Show(Get(p, "name"))
  }

  // ---- profile listing (bot.py:77, bot.py:124) ----

  /** `f"{k}: {v}"` for one field. */
  function Line(f: Field): string
  {
    f.key + ": " + Show(f.value)
  }

  function Lines(p: Profile): seq<string>
  {
    seq(|p|, i requires 0 <= i < |p| => Line(p[i]))
  }

  /** `"\n".join(f"{k}: {v}" for k, v in profile.items())`. */
  function Listing(p: Profile): string
  {
    Join(Lines(p), '\n')
  }

  /** The listing has exactly one `key: value` line per field, in field order,
      provided no key or value itself spans lines. */
  lemma ListingLines(p: Profile)
    requires |p| > 0
    requires forall i :: 0 <= i < |p| ==> '\n' !in Line(p[i])
    ensures |Split(Listing(p), '\n')| == |p|
    ensures forall i :: 0 <= i < |p| ==> Split(Listing(p), '\n')[i] == p[i].key + ": " + Show(p[i].value)
  {
    SplitJoin(Lines(p), '\n');
  }

  /** Each line of the listing shows its field's key and the value that key
      looks up, so the listing agrees with `profile[k]` for every key. */
  lemma ListingShowsValues(p: Profile)
    requires UniqueKeys(p)
    ensures forall i :: 0 <= i < |p| ==>
      p[i].key in Keys(p) && Lines(p)[i] == p[i].key + ": " + Show(Get(p, p[i].key))
  {
    forall i | 0 <= i < |p|
      ensures p[i].key in Keys(p) && Lines(p)[i] == p[i].key + ": " + Show(Get(p, p[i].key))
    {
      LookupAt(p, i);
    }
  }

  /** After a one-field update, present key or new, the key's line in the
      listing shows the new value. */
  lemma ListingShowsUpdate(p: Profile, k: string, v: Value)
    requires UniqueKeys(p)
    ensures var q := Merge(p, [Field(k, v)]);
      && k in Keys(q)
      && forall i :: 0 <= i < |q| && q[i].key == k ==> Lines(q)[i] == k + ": " + Show(v)
  {
    var q := Merge(p, [Field(k, v)]);
    MergeUniqueKeys(p, [Field(k, v)]);
    MergeUpdates(p, [Field(k, v)], k);
    ListingShowsValues(q);
  }

  /** After a one-field update of a field the profile already has, the
      listing shows the new value on that field's line, where it was. */
  lemma ListingAfterUpdate(p: Profile, k: string, v: Value, i: nat)
    requires UniqueKeys(p) && i < |p| && p[i].key == k
    ensures |Lines(Merge(p, [Field(k, v)]))| == |p|
    ensures Lines(Merge(p, [Field(k, v)]))[i] == k + ": " + Show(v)
  {
    assert Merge(p, [Field(k, v)]) == Set(p, k, v);
    SetInPlace(p, k, v, i);
  }

  // ---- `/set <campo> <valor>` (bot.py:80-88) ----

  datatype SetRequest = Usage | Assign(field: string, value: string)

  /** Fewer than two arguments is a usage error; otherwise the first argument
      names the field and the rest, joined by single spaces, is its value. */
  function ParseSet(args: seq<string>): (r: SetRequest)
    ensures r.Usage? <==> |args| < 2
    ensures r.Assign? ==> r.field == args[0]
  {
    if |args| < 2 then Usage else Assign(args[0], Join(args[1..], ' '))
  }

  /** The value `/set` stores splits back into the arguments it was built
      from (command arguments never hold a space). */
  lemma ParseSetValue(args: seq<string>)
    requires |args| >= 2
    requires forall i :: 0 <= i < |args| ==> ' ' !in args[i]
    ensures ParseSet(args).Assign?
    ensures [ParseSet(args).field] + Split(ParseSet(args).value, ' ') == args
  {
    SplitJoin(args[1..], ' ');
    assert [args[0]] + args[1..] == args;
  }

  const UsageText := "Uso: /set <campo> <valor>"

  /** The `/set` confirmation starts with the field and ends with the value. */
  function SetConfirmation(field: string, value: string): (r: string)
    ensures |r| == |field| + |" actualizado a: "| + |value|
    ensures r[..|field|] == field && r[|r| - |value|..] == value
  {
    var r := field + " actualizado a: " + value;
    assert r[..|field|] == field && r[|r| - |value|..] == value;
    r
  }

  // ---- `/foto` prompt (bot.py:92-96) ----

  const PromptOpening := "A realistic selfie of a young spanish woman with mixed "
  const PromptMiddle := " features, "
  const PromptStyle :=
    ", playful (pícara) expression, warm tan skin, shoulder-length dark hair, "
    + "casual urban clothes, soft golden-hour lighting, photorealistic, high detail"

  /** The image prompt: fixed style text around the ethnicity and body
      descriptors. */
  function Prompt(ethnicity: string, body: string): string
  {
    PromptOpening + ethnicity + PromptMiddle + body + PromptStyle
  }

  /** Both descriptors sit in the prompt unchanged: the ethnicity right after
      the fixed opening, the body right before the fixed style text. */
  lemma PromptEmbedsDescriptors(ethnicity: string, body: string)
    ensures var r := Prompt(ethnicity, body);
      && |r| == |PromptOpening| + |ethnicity| + |PromptMiddle| + |body| + |PromptStyle|
      && r[|PromptOpening|..|PromptOpening| + |ethnicity|] == ethnicity
      && r[|r| - |PromptStyle| - |body|..|r| - |PromptStyle|] == body
  {
  }

  /** Given the length of the ethnicity descriptor, the prompt determines
      both descriptors. Without it, it does not: a descriptor may itself hold
      the text between the two. */
  lemma PromptDeterminesDescriptors(e1: string, b1: string, e2: string, b2: string)
    requires Prompt(e1, b1) == Prompt(e2, b2) && |e1| == |e2|
    ensures e1 == e2 && b1 == b2
  {
    PromptEmbedsDescriptors(e1, b1);
    PromptEmbedsDescriptors(e2, b2);
  }

  /** The prompt `foto_cmd` builds from a profile's `ethnicity` and `body`. */
  function PhotoPrompt(p: Profile): string
    requires "ethnicity" in Keys(p) && "body" in Keys(p)
  {
    Prompt(Show(Get(p, "ethnicity")), Show(Get(p, "body")))
  }

  /** The prompt depends on `ethnicity` and `body` alone: an update that names
      neither leaves it as it was. In particular, recording `last_prompt` does
      not change the next prompt. */
  lemma PromptIgnoresOtherUpdates(p: Profile, newdata: Profile)
    requires WellFormed(p)
    requires "ethnicity" !in Keys(newdata) && "body" !in Keys(newdata)
    ensures "ethnicity" in Keys(Merge(p, newdata)) && "body" in Keys(Merge(p, newdata))
    ensures PhotoPrompt(Merge(p, newdata)) == PhotoPrompt(p)
  {
    MergeKeepsOthers(p, newdata, "ethnicity");
    MergeKeepsOthers(p, newdata, "body");
  }

  /** The photo caption starts with the profile's name. */
  function PhotoCaption(name: string): (r: string)
    ensures |r| == |name| + |" — foto"| && r[..|name|] == name
  {
    var r := name + " — foto";
    assert r[..|name|] == name;
    r
  }

  const GeneratingText := "Generando foto... ⏳"

  /** The image error reply ends with the service's own error text. */
  function ImageErrorText(message: string): (r: string)
    ensures |r| == |"Error generando imagen: "| + |message| && r[|r| - |message|..] == message
  {
    var r := "Error generando imagen: " + message;
    assert r[|r| - |message|..] == message;
    r
  }

  // ---- `/audio [texto...]` (bot.py:112-116) ----

  const AudioSuffix := " (voz suave y pícara, acento español)"

  const GreetingOpening := "Hola cariño, soy "
  const GreetingClosing := ". ¿Qué quieres hacer hoy?"

  /** The default audio greeting names the profile right after its fixed
      opening. */
  function Greeting(name: string): (r: string)
    ensures |r| == |GreetingOpening| + |name| + |GreetingClosing|
    ensures r[|GreetingOpening|..|GreetingOpening| + |name|] == name
  {
    var r := GreetingOpening + name + GreetingClosing;
    assert r[|GreetingOpening|..|GreetingOpening| + |name|] == name;
    r
  }

  /** The text handed to speech synthesis: the arguments joined by spaces, or
      the greeting naming the profile when there are none, then the fixed
      voice-style suffix. */
  function AudioText(args: seq<string>, name: string): (r: string)
    ensures |r| >= |AudioSuffix| && r[|r| - |AudioSuffix|..] == AudioSuffix
    ensures |args| == 0 ==> r[..|r| - |AudioSuffix|] == Greeting(name)
  {
    var text := if |args| > 0 then Join(args, ' ') else Greeting(name);
    var r := text + AudioSuffix;
    assert r[..|r| - |AudioSuffix|] == text;
    r
  }

  /** With arguments, what is spoken before the suffix splits back into
      exactly those arguments. */
  lemma AudioTextSpeaksArgs(args: seq<string>, name: string)
    requires |args| > 0
    requires forall i :: 0 <= i < |args| ==> ' ' !in args[i]
    ensures var r := AudioText(args, name); Split(r[..|r| - |AudioSuffix|], ' ') == args
  {
    var r := AudioText(args, name);
    assert r[..|r| - |AudioSuffix|] == Join(args, ' ');
    SplitJoin(args, ' ');
  }

  /** The voice message caption ends with the profile's name. */
  function AudioCaption(name: string): (r: string)
    ensures |r| == |"Audio de "| + |name| && r[|r| - |name|..] == name
  {
    var r := "Audio de " + name;
    assert r[|r| - |name|..] == name;
    r
  }

  // ---- `/start` (bot.py:70-72) ----

  const StartOpening := "Hola — soy tu novia virtual *"
  const StartClosing := "*.\n" + "Usa /foto /audio /video /perfil /set para personalizarme."

  /** The `/start` greeting shows the profile's name, in bold, right after
      its fixed opening. */
  function StartText(name: string): (r: string)
    ensures |r| == |StartOpening| + |name| + |StartClosing|
    ensures r[|StartOpening|..|StartOpening| + |name|] == name
  {
    var r := StartOpening + name + StartClosing;
    assert r[|StartOpening|..|StartOpening| + |name|] == name;
    r
  }

  const ProfileButtonLabel := "Ver perfil"
  const ProfileCallbackData := "ver_perfil"
}
