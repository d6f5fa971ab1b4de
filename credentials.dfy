/**
 * The credential store: one Bankr API key per Telegram user id, kept in a
 * JSON file that is read whole on every lookup and rewritten whole on every
 * save. The file's content is the `keys` field of `Store`.
 */
module Credentials {
  import opened Wrappers

  /** `keys.get(user_id)` on a loaded mapping. */
  function Lookup(keys: map<int, string>, userId: int): Option<string> {
    if userId in keys then Some(keys[userId]) else None
  }

  /** The key lookup is truthy (`if existing_key:` / `if not key:`): stored and not "". */
  predicate HasUsableKey(keys: map<int, string>, userId: int) {
    userId in keys && keys[userId] != ""
  }

  /** One `save_key` call. */
  datatype Write = Write(userId: int, apiKey: string)

  /** The mapping after applying the saves in order, the last one last. */
  function ApplyWrites(keys: map<int, string>, ws: seq<Write>): map<int, string> {
    if ws == [] then keys
    else
      var last := ws[|ws| - 1];
      ApplyWrites(keys, ws[..|ws| - 1])[last.userId := last.apiKey]
  }

  /** The key of the latest save for `userId`, if any. */
  function LastWrite(ws: seq<Write>, userId: int): Option<string> {
    if ws == [] then None
    else if ws[|ws| - 1].userId == userId then Some(ws[|ws| - 1].apiKey)
    else LastWrite(ws[..|ws| - 1], userId)
  }

  /**
   * Last write wins, per user: after any sequence of saves a user's lookup
   * gives that user's latest saved key, or what was stored before when the
   * user never saved; saves for other users never disturb it.
   */
  lemma {:induction false} LastWriteWins(keys: map<int, string>, ws: seq<Write>, userId: int)
    ensures Lookup(ApplyWrites(keys, ws), userId)
         == if LastWrite(ws, userId).Some? then LastWrite(ws, userId) else Lookup(keys, userId)
  {
    if ws != [] {
      LastWriteWins(keys, ws[..|ws| - 1], userId);
    }
  }

  class Store {
    /** The content of the keys file. */
    var keys: map<int, string>
    /** What the file held when the store was opened (`{}` when it did not exist). */
    ghost const initial: map<int, string>
    /** Every save since then, in order. */
    ghost var writes: seq<Write>

    ghost predicate Valid()
      reads this
    {
      keys == ApplyWrites(initial, writes)
    }

    constructor (existing: map<int, string>)
      ensures Valid()
      ensures keys == existing && initial == existing && writes == []
    {
      keys := existing;
      initial := existing;
      writes := [];
    }

    /** `load_keys`: the whole mapping as stored. */
    method LoadKeys() returns (loaded: map<int, string>)
      ensures loaded == keys
    {
      loaded := keys;
    }

    /** `save_key`: load, upsert, write the whole mapping back. */
    method SaveKey(userId: int, apiKey: string)
      requires Valid()
      modifies this
      ensures Valid()
      ensures keys == old(keys)[userId := apiKey]
      ensures writes == old(writes) + [Write(userId, apiKey)]
    {
      var loaded := LoadKeys();
      loaded := loaded[userId := apiKey];
      keys := loaded;
      writes := writes + [Write(userId, apiKey)];
      assert writes[..|writes| - 1] == old(writes);
    }

    /** `get_key`: the user's latest saved key, else what the file held at the start. */
    function GetKey(userId: int): (r: Option<string>)
      reads this
      requires Valid()
      ensures r == if LastWrite(writes, userId).Some? then LastWrite(writes, userId)
                   else Lookup(initial, userId)
    {
      LastWriteWins(initial, writes, userId);
      Lookup(keys, userId)
    }
  }
}
