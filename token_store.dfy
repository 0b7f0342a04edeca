/** The per-user credential store behind `getTokens` and `saveTokens`: a map
    from a chat user id to that user's stored OAuth token bundle. Reading or
    writing fails when the user id is empty or the backing store cannot be
    reached, and every failure surfaces with one fixed message. */
module TokenStore {
  import opened Wrappers

  /** An opaque OAuth token bundle. */
  datatype Tokens = Tokens(blob: string)

  /** The stored documents, and whether the backing store answers at all. */
  datatype Store = Store(saved: map<string, Tokens>, reachable: bool)

  const READ_FAILED := "トークンの取得に失敗しました"
  const WRITE_FAILED := "トークンの保存に失敗しました"

  /** `getTokens(userId)`: the user's tokens, `None` when nothing is stored;
      an empty id or an unreachable store throws. */
  function GetTokens(store: Store, userId: string): (r: Result<Option<Tokens>, string>)
    ensures r.Err? <==> userId == "" || !store.reachable
    ensures r.Err? ==> r.error == READ_FAILED
    ensures r.Ok? ==> (r.value.Some? <==> userId in store.saved)
    ensures r.Ok? && r.value.Some? ==> r.value.value == store.saved[userId]
  {
    if userId == "" || !store.reachable then Err(READ_FAILED)
    else if userId in store.saved then Ok(Some(store.saved[userId]))
    else Ok(None)
  }

  /** `saveTokens(userId, tokens)`: overwrites the user's document. */
  function SaveTokens(store: Store, userId: string, tokens: Tokens): (r: Result<Store, string>)
    ensures r.Err? <==> userId == "" || !store.reachable
    ensures r.Err? ==> r.error == WRITE_FAILED
    ensures r.Ok? ==> r.value.reachable && r.value.saved.Keys == store.saved.Keys + {userId}
  {
    if userId == "" || !store.reachable then Err(WRITE_FAILED)
    else Ok(Store(store.saved[userId := tokens], true))
  }

  /** A successful save is seen by the next read of the same user, and by no
      other user. */
  lemma SaveThenGet(store: Store, userId: string, tokens: Tokens, other: string)
    requires SaveTokens(store, userId, tokens).Ok?
    ensures GetTokens(SaveTokens(store, userId, tokens).value, userId) == Ok(Some(tokens))
    ensures other != userId ==>
      GetTokens(SaveTokens(store, userId, tokens).value, other) == GetTokens(store, other)
  {
  }
}
