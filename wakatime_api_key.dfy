/**
 * The Wakatime key screen: Save submits the trimmed field text to a
 * validation call, and the key is written to the credential store only when
 * that call resolves. A rejected call leaves the store alone and offers a
 * Retry that submits the same token again.
 */
module WakatimeApiKey {
  import opened Opt
  import opened JsText
  import opened ApiKeys
  import opened ApiKeysSettings

  /**
   * How the validation call (`checkIfTokenIsValid`) settles. The value it
   * resolves with is never inspected: resolving is what counts as valid.
   */
  datatype Settlement = Resolved | Rejected

  datatype SnackbarAction = Undo | Retry(token: string)

  datatype Snackbar = Snackbar(message: string, durationMs: nat, action: SnackbarAction)

  const SavedMessage := "Wakatime API key saved"
  const ErrorMessage := "Error saving Wakatime API key"
  const SnackbarDurationMs := 5000

  /** The token `handleSaveWakatime` submits: the field text trimmed, never null. */
  function SubmittedToken(text: string): (token: string)
    ensures NoOuterWhitespace(token)
    ensures token == "" <==> AllWhitespace(text)
    ensures exists i :: InfixAmidSpace(text, i, token)
  {
    Trim(text)
  }

  /** The stored keys once the validation of `token` settles (`onSuccess` / `onError`). */
  function AfterSettle(keys: Keys, token: string, outcome: Settlement): (k: Keys)
    ensures outcome == Rejected ==> k == keys
    ensures outcome == Resolved ==> k.Get(Wakatime) == Some(token)
    ensures forall s :: s != Wakatime ==> k.Get(s) == keys.Get(s)
  {
    match outcome
    case Resolved => keys.Set(Wakatime, Some(token))
    case Rejected => keys
  }

  /** The snackbar shown once the validation of `token` settles. */
  function SettleSnackbar(token: string, outcome: Settlement): (b: Snackbar)
    ensures b.durationMs == SnackbarDurationMs
    ensures b.action.Retry? <==> outcome == Rejected
    ensures b.action.Retry? ==> b.action.token == token
  {
    match outcome
    case Resolved => Snackbar(SavedMessage, SnackbarDurationMs, Undo)
    case Rejected => Snackbar(ErrorMessage, SnackbarDurationMs, Retry(token))
  }

  /** The stored keys after a first attempt and its retries, all with `token`, settle in order. */
  function AfterAttempts(keys: Keys, token: string, outcomes: seq<Settlement>): Keys {
    if outcomes == [] then keys
    else AfterSettle(AfterAttempts(keys, token, outcomes[..|outcomes| - 1]), token, outcomes[|outcomes| - 1])
  }

  /**
   * However many retries a failed save takes, the Wakatime key ends up as the
   * submitted token if some attempt resolved, and untouched otherwise; no
   * other key ever changes.
   */
  lemma {:induction false} AttemptsWriteOnlyOnResolve(keys: Keys, token: string, outcomes: seq<Settlement>)
    ensures Resolved in outcomes ==> AfterAttempts(keys, token, outcomes) == keys.Set(Wakatime, Some(token))
    ensures Resolved !in outcomes ==> AfterAttempts(keys, token, outcomes) == keys
  {
    if outcomes != [] {
      var init, last := outcomes[..|outcomes| - 1], outcomes[|outcomes| - 1];
      assert outcomes == init + [last];
      AttemptsWriteOnlyOnResolve(keys, token, init);
      if last == Resolved {
        SetGetRoundTrip(keys, Wakatime, Some(token), Some(token));
        if Resolved !in init {
          assert AfterAttempts(keys, token, outcomes) == keys.Set(Wakatime, Some(token));
        }
      }
    }
  }

  /** The screen's local state, the in-flight validations and the last snackbar. */
  class WakatimeApiKeyScreen {
    const store: ApiKeysStore
    var wakatimeKey: string
    /** Tokens whose validation has been submitted and has not settled, oldest first. */
    var pending: seq<string>
    var snackbar: Option<Snackbar>

    /** `isPending`: the button reads "Saving..." while a validation is in flight. */
    predicate IsPending()
      reads this
    {
      pending != []
    }

    /** Mounting the screen seeds the field from the store. */
    constructor (store: ApiKeysStore)
      ensures this.store == store
      ensures wakatimeKey == InitialFieldText(store.Get(Wakatime))
      ensures pending == [] && snackbar == None
    {
      this.store := store;
      wakatimeKey := InitialFieldText(store.Get(Wakatime));
      pending := [];
      snackbar := None;
    }

    /** `onChangeText` of the field. */
    method EditKey(text: string)
      modifies this`wakatimeKey
      ensures wakatimeKey == text
    {
      wakatimeKey := text;
    }

    /** `handleSaveWakatime`: submits the trimmed text for validation; the store is not touched. */
    method HandleSave()
      modifies this`pending
      ensures pending == old(pending) + [SubmittedToken(wakatimeKey)]
      ensures IsPending()
    {
      pending := pending + [SubmittedToken(wakatimeKey)];
    }

    /**
     * The validation of the `k`-th pending token settles: on success the
     * token is written to the store, on failure the store is left as it was;
     * either way the matching snackbar is shown.
     */
    method Settle(k: nat, outcome: Settlement)
      requires k < |pending|
      modifies store, this`pending, this`snackbar
      ensures pending == old(pending[..k] + pending[k + 1..])
      ensures store.keys == AfterSettle(old(store.keys), old(pending[k]), outcome)
      ensures snackbar == Some(SettleSnackbar(old(pending[k]), outcome))
    {
      var token := pending[k];
      pending := pending[..k] + pending[k + 1..];
      if outcome == Resolved {
        store.Set(Wakatime, Some(token));
      }
      snackbar := Some(SettleSnackbar(token, outcome));
    }

    /** The snackbar's Retry action: submits again the token that failed. */
    method PressRetry()
      requires snackbar.Some? && snackbar.value.action.Retry?
      modifies this`pending
      ensures pending == old(pending) + [snackbar.value.action.token]
      ensures IsPending()
    {
      pending := pending + [snackbar.value.action.token];
    }
  }
}
