/** Client-side token persistence of services/session.py: the token bundle
    goes to the system keyring when the `keyring` package can be imported,
    and otherwise to the JSON file `~/.jogamos_tokens.json`. Both stores
    are abstract: the keyring is a map from entry names to passwords under
    the service "JogamosApp", the file is absent or holds a JSON object. */
module Session {
  import opened Text

  const KeyringService := "JogamosApp"
  const AccessEntry := "access_token"
  const RefreshEntry := "refresh_token"

  /** `TokenBundle`; both fields default to `None`. */
  datatype TokenBundle = TokenBundle(access: Option<string>, refresh: Option<string>)

  const EmptyBundle := TokenBundle(None, None)

  /** The JSON object held by the fallback file: each name maps to a
      string or to `null` (`None`). */
  type FileRecord = map<string, Option<string>>

  /** What the two stores hold, and whether the keyring can be used. */
  datatype Stores = Stores(keyringAvailable: bool, keyring: map<string, string>, file: Option<FileRecord>)

  /** `value or ""`: the keyring cannot hold `None`. */
  function OrEmpty(value: Option<string>): (s: string)
    ensures value.Some? ==> s == value.value
    ensures value.None? ==> s == ""
  {
    if value.Some? then value.value else ""
  }

  /** `keyring.get_password`: `None` for an entry that is not there. */
  function Password(keyring: map<string, string>, entry: string): (r: Option<string>)
    ensures r.Some? <==> entry in keyring
    ensures r.Some? ==> r.value == keyring[entry]
  {
    if entry in keyring then Some(keyring[entry]) else None
  }

  /** `data.get(name)` on the file's object: a missing name and `null` both
      give `None`. */
  function Field(data: FileRecord, name: string): (r: Option<string>)
    ensures name !in data ==> r.None?
    ensures name in data ==> r == data[name]
  {
    if name in data then data[name] else None
  }

  /** `save_tokens`: two keyring entries, `None` written as "", or the
      whole file rewritten with both fields. */
  function SaveTo(s: Stores, t: TokenBundle): (r: Stores)
    ensures r.keyringAvailable == s.keyringAvailable
    ensures s.keyringAvailable ==>
      r.file == s.file && r.keyring == s.keyring[AccessEntry := OrEmpty(t.access)][RefreshEntry := OrEmpty(t.refresh)]
    ensures !s.keyringAvailable ==>
      r.keyring == s.keyring && r.file == Some(map[AccessEntry := t.access, RefreshEntry := t.refresh])
  {
    if s.keyringAvailable then
      s.(keyring := s.keyring[AccessEntry := OrEmpty(t.access)][RefreshEntry := OrEmpty(t.refresh)])
    else
      s.(file := Some(map[AccessEntry := t.access, RefreshEntry := t.refresh]))
  }

  /** `load_tokens`: the two keyring entries, or the file's two fields, or
      the empty bundle when the file does not exist. */
  function LoadFrom(s: Stores): (t: TokenBundle)
  {
    if s.keyringAvailable then TokenBundle(Password(s.keyring, AccessEntry), Password(s.keyring, RefreshEntry))
    else if s.file.None? then EmptyBundle
    else TokenBundle(Field(s.file.value, AccessEntry), Field(s.file.value, RefreshEntry))
  }

  /** `clear_tokens`: both keyring entries deleted (a missing one is an
      error that is swallowed) and then the file removed whenever it
      exists, also when the keyring is in use. */
  function ClearFrom(s: Stores): (r: Stores)
    ensures r.keyringAvailable == s.keyringAvailable && r.file.None?
    ensures s.keyringAvailable ==> r.keyring == s.keyring - {AccessEntry, RefreshEntry}
    ensures !s.keyringAvailable ==> r.keyring == s.keyring
  {
    var k := if s.keyringAvailable then s.keyring - {AccessEntry, RefreshEntry} else s.keyring;
    Stores(s.keyringAvailable, k, None)
  }

  lemma EntriesDiffer()
    ensures AccessEntry != RefreshEntry
  {
    assert AccessEntry[0] != RefreshEntry[0];
  }

  /** On the keyring, a saved `None` comes back as "". */
  lemma KeyringRoundTrip(s: Stores, t: TokenBundle)
    requires s.keyringAvailable
    ensures LoadFrom(SaveTo(s, t)) == TokenBundle(Some(OrEmpty(t.access)), Some(OrEmpty(t.refresh)))
    ensures t.access.Some? && t.refresh.Some? ==> LoadFrom(SaveTo(s, t)) == t
    ensures t.access.None? ==> LoadFrom(SaveTo(s, t)).access == Some("")
  {
    EntriesDiffer();
  }

  /** On the file, what is saved is loaded back unchanged. */
  lemma FileRoundTrip(s: Stores, t: TokenBundle)
    requires !s.keyringAvailable
    ensures LoadFrom(SaveTo(s, t)) == t
  {
    EntriesDiffer();
  }

  /** After a clear, loading gives the empty bundle on either backend, and
      clearing again changes nothing. */
  lemma ClearEmpties(s: Stores)
    ensures LoadFrom(ClearFrom(s)) == EmptyBundle
    ensures ClearFrom(ClearFrom(s)) == ClearFrom(s)
  {
  }

  /** The file is removed by a clear even while the keyring is in use, so
      a later load without the keyring does not find stale tokens. */
  lemma ClearRemovesFallback(s: Stores)
    requires s.keyringAvailable
    ensures LoadFrom(ClearFrom(s).(keyringAvailable := false)) == EmptyBundle
  {
  }

  /** A save on one backend leaves the other backend's store untouched. */
  lemma SaveTouchesOneBackend(s: Stores, t: TokenBundle)
    ensures s.keyringAvailable ==> SaveTo(s, t).file == s.file
    ensures !s.keyringAvailable ==> SaveTo(s, t).keyring == s.keyring
  {
  }

  /** The two stores in place, with the availability of `keyring` as seen
      by the next call. */
  class TokenStore {
    var keyringAvailable: bool
    var keyring: map<string, string>
    var file: Option<FileRecord>

    function Contents(): Stores
      reads this
    {
      Stores(keyringAvailable, keyring, file)
    }

    constructor (available: bool, keyring: map<string, string>, file: Option<FileRecord>)
      ensures Contents() == Stores(available, keyring, file)
    {
      this.keyringAvailable := available;
      this.keyring := keyring;
      this.file := file;
    }

    /** Each call looks again for the package, so availability can change
        between calls. */
    method SetKeyringAvailable(available: bool)
      modifies this
      ensures Contents() == old(Contents()).(keyringAvailable := available)
    {
      keyringAvailable := available;
    }

    method Save(t: TokenBundle)
      modifies this
      ensures Contents() == SaveTo(old(Contents()), t)
    {
      if keyringAvailable {
        keyring := keyring[AccessEntry := OrEmpty(t.access)];
        keyring := keyring[RefreshEntry := OrEmpty(t.refresh)];
      } else {
        file := Some(map[AccessEntry := t.access, RefreshEntry := t.refresh]);
      }
    }

    method Load() returns (t: TokenBundle)
      ensures t == LoadFrom(Contents())
    {
      if keyringAvailable {
        t := TokenBundle(Password(keyring, AccessEntry), Password(keyring, RefreshEntry));
      } else if file.None? {
        t := EmptyBundle;
      } else {
        t := TokenBundle(Field(file.value, AccessEntry), Field(file.value, RefreshEntry));
      }
    }

    method Clear()
      modifies this
      ensures Contents() == ClearFrom(old(Contents()))
    {
      if keyringAvailable {
        var entries := [AccessEntry, RefreshEntry];
        for i := 0 to |entries|
          invariant keyring == old(keyring) - set j | 0 <= j < i :: entries[j]
          invariant keyringAvailable == old(keyringAvailable) && file == old(file)
        {
          keyring := keyring - {entries[i]};
        }
        ghost var removed := set j | 0 <= j < 2 :: entries[j];
        assert entries[0] in removed && entries[1] in removed;
        assert removed == {AccessEntry, RefreshEntry};
      }
      if file.Some? {
        file := None;
      }
    }
  }
}
