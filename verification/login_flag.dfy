/** The shared `isLoggedIn` flag: read once from storage at start-up and
    written back by a watcher whenever it changes. */
module LoginFlag {
  import opened Outcomes
  import opened WebStorage

  /** `String(b)` for a boolean. */
  function Encode(b: bool): (s: string)
    ensures s == "true" || s == "false"
    ensures b <==> s == "true"
  {
    if b then "true" else "false"
  }

  /** `localStorage.getItem('isLoggedIn') === 'true'`: a strict comparison,
      so only the exact string `true` decodes to true. */
  function Decode(stored: Option<string>): (b: bool)
    ensures b <==> stored.Some? && stored.value == "true"
  {
    stored == Some("true")
  }

  /** Decoding what the watcher wrote gives back the flag. */
  lemma DecodeEncode(b: bool)
    ensures Decode(Some(Encode(b))) == b
  {
  }

  /** A missing key, `false`, the empty string and other spellings of true all decode to false. */
  lemma DecodeRejectsOtherStrings(stored: Option<string>)
    requires stored != Some("true")
    ensures !Decode(stored)
  {
  }

  /** Encoding is injective: the stored string determines the flag. */
  lemma EncodeInjective(a: bool, b: bool)
    requires Encode(a) == Encode(b)
    ensures a == b
  {
  }

  /** The reactive `state` object together with the storage its watcher writes to. */
  class AppState {
    var isLoggedIn: bool
    const storage: LocalStorage

    /** The stored flag agrees with the in-memory one. */
    ghost predicate Mirrored()
      reads this, storage
    {
      Decode(GetItem(storage.items, IsLoggedInKey)) == isLoggedIn
    }

    /** Module initialisation: the flag starts as the decoded stored string. */
    constructor (storage: LocalStorage)
      ensures this.storage == storage
      ensures isLoggedIn <==> GetItem(storage.items, IsLoggedInKey) == Some("true")
      ensures Mirrored()
    {
      this.storage := storage;
      isLoggedIn := Decode(GetItem(storage.items, IsLoggedInKey));
    }

    /** Assigning `state.isLoggedIn`. The watcher runs only when the value
        actually changes, and then stores `String(newVal)`. */
    method SetLoggedIn(newVal: bool)
      modifies this, storage
      ensures isLoggedIn == newVal
      ensures newVal != old(isLoggedIn) ==> storage.items == old(storage.items)[IsLoggedInKey := Encode(newVal)]
      ensures newVal == old(isLoggedIn) ==> storage.items == old(storage.items)
      ensures old(Mirrored()) ==> Mirrored()
    {
      if newVal != isLoggedIn {
        isLoggedIn := newVal;
        storage.SetItem(IsLoggedInKey, Encode(newVal));
      }
    }
  }
}
