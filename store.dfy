/** The profile store (bot.py:19-50): one table from chat key to profile.
    Each operation of the bot loads the whole table, changes one entry and
    saves the whole table; here the table is the field `profiles`, loading is
    reading it and saving is assigning it. */
module Store {
  import opened Strings
  import opened Profiles

  /** `str(chat_id)`: the store key of a chat. */
  function ChatKey(chatId: int): string
  {
    IntToString(chatId)
  }

  /** Two chats share a store entry only if they are the same chat. */
  lemma ChatKeyInjective(a: int, b: int)
    requires ChatKey(a) == ChatKey(b)
    ensures a == b
  {
    IntToStringInjective(a, b);
  }

  /** The profile `get_or_create_profile` yields for `key` in table `m`. */
  function ProfileOrDefault(m: map<string, Profile>, key: string): Profile
  {
    if key in m then m[key] else DefaultProfile()
  }

  /** Every profile of a table is well formed. */
  predicate AllWellFormed(m: map<string, Profile>)
  {
    forall key :: key in m ==> WellFormed(m[key])
  }

  /** Storing a well-formed profile keeps the whole table well formed. Like
      the two lemmas below, this is a fact Dafny sees unaided; stated apart, it
      keeps the store methods' proofs small. */
  lemma StoreWellFormed(m: map<string, Profile>, key: string, p: Profile)
    requires AllWellFormed(m) && WellFormed(p)
    ensures AllWellFormed(m[key := p])
  {
  }

  /** Overwriting an entry with its own value changes nothing. */
  lemma OverwriteSame<K, V>(m: map<K, V>, k: K)
    requires k in m
    ensures m[k := m[k]] == m
  {
  }

  /** Overwriting an entry twice is overwriting it once with the last value. */
  lemma OverwriteTwice<K, V>(m: map<K, V>, k: K, a: V, b: V)
    ensures m[k := a][k := b] == m[k := b]
  {
  }

  /** `update_profile` either saved the merged profile or raised `KeyError`
      because the chat had no profile yet. */
  datatype UpdateOutcome = Saved | KeyError(key: string)

  class ProfileStore {
    var profiles: map<string, Profile>

    /** Every stored profile has unique keys and all the default fields. */
    ghost predicate Valid()
      reads this
    {
      AllWellFormed(profiles)
    }

    /** A store file that does not exist yet is created holding `{}`
        (bot.py:20-22). */
    constructor ()
      ensures Valid() && profiles == map[]
    {
      profiles := map[];
    }

    /** `get_or_create_profile`: an absent chat gets the default profile,
        saved at once; a present chat's profile is returned and the store is
        left alone, so a second call returns the same profile. */
    method GetOrCreate(chatId: int) returns (p: Profile)
      requires Valid()
      modifies this
      ensures Valid() && WellFormed(p)
      ensures p == ProfileOrDefault(old(profiles), ChatKey(chatId))
      ensures profiles == old(profiles)[ChatKey(chatId) := p]
      ensures ChatKey(chatId) in old(profiles) ==> profiles == old(profiles)
    {
      var loaded := profiles;
      var key := ChatKey(chatId);
      if key !in loaded {
        StoreWellFormed(loaded, key, DefaultProfile());
        loaded := loaded[key := DefaultProfile()];
        profiles := loaded;
      } else {
        OverwriteSame(loaded, key);
      }
      p := loaded[key];
    }

    /** `update_profile`: merges `newdata` into the chat's profile and saves;
        when the chat has no profile, indexing raises `KeyError` and nothing
        is saved. Other chats are never touched. */
    method Update(chatId: int, newdata: Profile) returns (outcome: UpdateOutcome)
      requires Valid() && UniqueKeys(newdata)
      modifies this
      ensures Valid()
      ensures outcome.KeyError? <==> ChatKey(chatId) !in old(profiles)
      ensures outcome.KeyError? ==> outcome.key == ChatKey(chatId) && profiles == old(profiles)
      ensures outcome.Saved? ==>
        profiles == old(profiles)[ChatKey(chatId) := Merge(old(profiles)[ChatKey(chatId)], newdata)]
    {
      var loaded := profiles;
      var key := ChatKey(chatId);
      if key !in loaded {
        outcome := KeyError(key);
        return;
      }
      MergeWellFormed(loaded[key], newdata);
      StoreWellFormed(loaded, key, Merge(loaded[key], newdata));
      loaded := loaded[key := Merge(loaded[key], newdata)];
      profiles := loaded;
      outcome := Saved;
    }
  }
}
