/** A chat's profile: an ordered record of string keys, as the JSON object the
    bot stores per chat (bot.py:35-43). Field order is insertion order, as in
    a Python dict, and `dict.update` is `Merge`. */
module Profiles {
  import opened Strings

  datatype Option<T> = None | Some(value: T)

  /** What a profile field can hold: the defaults and `/set` store strings,
      the default `seed` is an integer. */
  datatype Value = Str(s: string) | Int(n: int)

  datatype Field = Field(key: string, value: Value)

  type Profile = seq<Field>

  /** `f"{v}"`: a string is itself, an integer its decimal rendering, which
      reads back as the integer. */
  function Show(v: Value): (r: string)
    ensures v.Str? ==> r == v.s
    ensures v.Int? ==> IsDecimal(r) && ParseInt(r) == v.n
  {
    if v.Int? then ParseIntToString(v.n); IntToString(v.n) else v.s
  }

  /** `list(profile.keys())`, in field order. */
  function Keys(p: Profile): (ks: seq<string>)
    ensures |ks| == |p|
    ensures forall i :: 0 <= i < |p| ==> ks[i] == p[i].key
  {
    if |p| == 0 then [] else [p[0].key] + Keys(p[1..])
  }

  /** A dict never holds a key twice. */
  predicate UniqueKeys(p: Profile)
  {
    |p| == 0 || (p[0].key !in Keys(p[1..]) && UniqueKeys(p[1..]))
  }

  /** `profile.get(k)`: the value stored under `k`, or None when `k` is absent. */
  function Lookup(p: Profile, k: string): (r: Option<Value>)
    ensures r.Some? <==> k in Keys(p)
  {
    if |p| == 0 then None
    else if p[0].key == k then Some(p[0].value)
    else Lookup(p[1..], k)
  }

  /** `profile[k]` on a key the profile is known to hold. */
  function Get(p: Profile, k: string): Value
    requires k in Keys(p)
  {
    Lookup(p, k).value
  }

  /** In a profile without repeated keys, each field is what its own key
      looks up. */
  lemma {:induction false} LookupAt(p: Profile, i: nat)
    requires UniqueKeys(p) && i < |p|
    ensures Lookup(p, p[i].key) == Some(p[i].value)
  {
    if i > 0 {
      assert p[0].key != p[i].key by {
        assert Keys(p[1..])[i - 1] == p[i].key;
      }
      LookupAt(p[1..], i - 1);
    }
  }

  /** `profile[k] = v`: an existing key keeps its position and takes the new
      value, a new key is appended at the end. */
  function Set(p: Profile, k: string, v: Value): (r: Profile)
    ensures Keys(r) == if k in Keys(p) then Keys(p) else Keys(p) + [k]
  {
    if |p| == 0 then [Field(k, v)]
    else if p[0].key == k then [Field(k, v)] + p[1..]
    else
      var r := [p[0]] + Set(p[1..], k, v);
      assert r[1..] == Set(p[1..], k, v);
      r
  }

  /** The key just set reads back the new value; every other key reads as
      before. */
  lemma {:induction false} SetLookup(p: Profile, k: string, v: Value, j: string)
    ensures Lookup(Set(p, k, v), j) == if j == k then Some(v) else Lookup(p, j)
  {
    if |p| > 0 && p[0].key != k {
      SetLookup(p[1..], k, v, j);
      assert Set(p, k, v)[1..] == Set(p[1..], k, v);
    }
  }

  /** A key already present takes its new value where it stands. */
  lemma {:induction false} SetInPlace(p: Profile, k: string, v: Value, i: nat)
    requires UniqueKeys(p) && i < |p| && p[i].key == k
    ensures |Set(p, k, v)| == |p| && Set(p, k, v)[i] == Field(k, v)
  {
    if i > 0 {
      assert p[0].key != k by {
        assert Keys(p[1..])[i - 1] == k;
      }
      SetInPlace(p[1..], k, v, i - 1);
    }
  }

  /** Fields under other keys keep their positions. */
  lemma {:induction false} SetKeepsPositions(p: Profile, k: string, v: Value, i: nat)
    requires i < |p| && p[i].key != k
    ensures Set(p, k, v)[i] == p[i]
  {
    if i > 0 && p[0].key != k {
      SetKeepsPositions(p[1..], k, v, i - 1);
    }
  }

  /** Setting a key never makes a key appear twice. */
  lemma {:induction false} SetUniqueKeys(p: Profile, k: string, v: Value)
    requires UniqueKeys(p)
    ensures UniqueKeys(Set(p, k, v))
  {
    if |p| > 0 && p[0].key != k {
      SetUniqueKeys(p[1..], k, v);
      assert Set(p, k, v)[1..] == Set(p[1..], k, v);
    }
  }

  /** `profile.update(newdata)`: the fields of `newdata` are set one after
      the other, in `newdata`'s order. */
  function Merge(p: Profile, newdata: Profile): (r: Profile)
    ensures |p| <= |r| <= |p| + |newdata|
    ensures Keys(r)[..|p|] == Keys(p)
    decreases |newdata|
  {
    if |newdata| == 0 then p
    else Merge(Set(p, newdata[0].key, newdata[0].value), newdata[1..])
  }

  /** The keys of `ks` that `present` does not hold, in `ks`'s order. */
  function NewKeys(ks: seq<string>, present: seq<string>): seq<string>
  {
    if |ks| == 0 then []
    else if ks[0] in present then NewKeys(ks[1..], present)
    else [ks[0]] + NewKeys(ks[1..], present)
  }

  /** After an update, every key named in `newdata` holds its new value. */
  lemma {:induction false} MergeUpdates(p: Profile, newdata: Profile, k: string)
    requires UniqueKeys(newdata)
    requires k in Keys(newdata)
    ensures Lookup(Merge(p, newdata), k) == Lookup(newdata, k)
    decreases |newdata|
  {
    var f := newdata[0];
    SetLookup(p, f.key, f.value, k);
    if f.key == k {
      MergeKeepsOthers(Set(p, f.key, f.value), newdata[1..], k);
    } else {
      MergeUpdates(Set(p, f.key, f.value), newdata[1..], k);
    }
  }

  /** After an update, every key not named in `newdata` is as it was, present
      or absent. */
  lemma {:induction false} MergeKeepsOthers(p: Profile, newdata: Profile, k: string)
    requires k !in Keys(newdata)
    ensures Lookup(Merge(p, newdata), k) == Lookup(p, k)
    decreases |newdata|
  {
    if |newdata| > 0 {
      var f := newdata[0];
      SetLookup(p, f.key, f.value, k);
      MergeKeepsOthers(Set(p, f.key, f.value), newdata[1..], k);
    }
  }

  /** Keys already present keep their positions; the keys `newdata` adds come
      after them, in `newdata`'s order. */
  lemma {:induction false} MergeKeyOrder(p: Profile, newdata: Profile)
    requires UniqueKeys(newdata)
    ensures Keys(Merge(p, newdata)) == Keys(p) + NewKeys(Keys(newdata), Keys(p))
    decreases |newdata|
  {
    if |newdata| > 0 {
      var f := newdata[0];
      var q := Set(p, f.key, f.value);
      MergeKeyOrder(q, newdata[1..]);
      if f.key !in Keys(p) {
        NewKeysSkip(Keys(newdata[1..]), Keys(p), f.key);
      }
    }
  }

  lemma {:induction false} NewKeysSkip(ks: seq<string>, present: seq<string>, k: string)
    requires k !in ks
    ensures NewKeys(ks, present + [k]) == NewKeys(ks, present)
  {
    if |ks| > 0 {
      NewKeysSkip(ks[1..], present, k);
    }
  }

  /** Fields whose key `newdata` does not name stay where they were, with
      their old values. */
  lemma {:induction false} MergeKeepsPositions(p: Profile, newdata: Profile, i: nat)
    requires i < |p| && p[i].key !in Keys(newdata)
    ensures |Merge(p, newdata)| >= |p| && Merge(p, newdata)[i] == p[i]
    decreases |newdata|
  {
    if |newdata| > 0 {
      var f := newdata[0];
      SetKeepsPositions(p, f.key, f.value, i);
      MergeKeepsPositions(Set(p, f.key, f.value), newdata[1..], i);
    }
  }

  /** An update never makes a key appear twice. */
  lemma {:induction false} MergeUniqueKeys(p: Profile, newdata: Profile)
    requires UniqueKeys(p)
    ensures UniqueKeys(Merge(p, newdata))
    decreases |newdata|
  {
    if |newdata| > 0 {
      SetUniqueKeys(p, newdata[0].key, newdata[0].value);
      MergeUniqueKeys(Set(p, newdata[0].key, newdata[0].value), newdata[1..]);
    }
  }

  /** The fixed record a chat gets on first contact (bot.py:35-43). */
  function DefaultProfile(): (r: Profile)
    ensures WellFormed(r)
  {
    [ Field("name", Str("Lucía")),
      Field("age_appearance", Str("22-28")),
      Field("ethnicity", Str("latina-europea")),
      Field("body", Str("atlética, cuerpo brasileño")),
      Field("attitude", Str("pícara")),
      Field("seed", Int(123456)),
      Field("last_prompt", Str("")) ]
  }

  /** Every key of the default record is present. */
  predicate HasDefaultKeys(p: Profile)
  {
    var ks := Keys(p);
    && "name" in ks && "age_appearance" in ks && "ethnicity" in ks && "body" in ks
    && "attitude" in ks && "seed" in ks && "last_prompt" in ks
  }

  /** What every stored profile satisfies: no key twice, and every default
      key present (the handlers index `name`, `ethnicity` and `body`). */
  predicate WellFormed(p: Profile)
  {
    UniqueKeys(p) && HasDefaultKeys(p)
  }

  /** Updates keep a profile well formed: keys are only ever added. */
  lemma MergeWellFormed(p: Profile, newdata: Profile)
    requires WellFormed(p) && UniqueKeys(newdata)
    ensures WellFormed(Merge(p, newdata))
  {
    MergeUniqueKeys(p, newdata);
    MergeKeyOrder(p, newdata);
  }
}
