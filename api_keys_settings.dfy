/**
 * The API-keys settings screen: one text field per service (GitHub and
 * Wakatime), seeded from the credential store, and a Save button per field
 * that writes the trimmed text, or clears the key when nothing but
 * whitespace was typed.
 */
module ApiKeysSettings {
  import opened Opt
  import opened JsText
  import opened ApiKeys

  /** The text a field starts with: the stored key, or `""` when there is none. */
  function InitialFieldText(stored: Option<string>): (text: string)
    ensures stored.Some? ==> text == stored.value
    ensures stored.None? ==> text == ""
  {
    OrEmpty(stored)
  }

  /** `text.trim() || null`: the value a Save writes to the store. */
  function SavedKey(text: string): (k: Option<string>)
    ensures k.None? <==> AllWhitespace(text)
    ensures k.Some? ==> k.value == Trim(text) && k.value != "" && NoOuterWhitespace(k.value)
  {
    EmptyToNull(Trim(text))
  }

  /** What can be stored by a Save: null, or a non-empty key with no whitespace at its ends. */
  predicate IsSavedForm(k: Option<string>) {
    k.None? || (k.value != "" && NoOuterWhitespace(k.value))
  }

  /**
   * Opening the screen and saving the untouched field writes back exactly the
   * stored key, provided that key is in the form a Save produces.
   */
  lemma SaveUneditedIsNoOp(stored: Option<string>)
    requires IsSavedForm(stored)
    ensures SavedKey(InitialFieldText(stored)) == stored
  {
    if stored.Some? {
      TrimKeepsUntrimmed(stored.value);
    }
  }

  /** Every Save produces a value in that form, so saving twice is saving once. */
  lemma SaveIsIdempotent(text: string)
    ensures IsSavedForm(SavedKey(text))
    ensures SavedKey(InitialFieldText(SavedKey(text))) == SavedKey(text)
  {
    SaveUneditedIsNoOp(SavedKey(text));
  }

  /** The confirmation shown after a Save. */
  const GithubSavedMessage := "GitHub API key saved"
  const WakatimeSavedMessage := "Wakatime API key saved"

  /** The screen's local state: the two fields and the snackbar. */
  class ApiKeysSettingsScreen {
    const store: ApiKeysStore
    var githubKey: string
    var wakatimeKey: string
    var snackbarVisible: bool
    var snackbarMessage: string

    /** Mounting the screen seeds both fields from the store. */
    constructor (store: ApiKeysStore)
      ensures this.store == store
      ensures githubKey == InitialFieldText(store.Get(GitHub))
      ensures wakatimeKey == InitialFieldText(store.Get(Wakatime))
      ensures !snackbarVisible && snackbarMessage == ""
    {
      this.store := store;
      githubKey := InitialFieldText(store.Get(GitHub));
      wakatimeKey := InitialFieldText(store.Get(Wakatime));
      snackbarVisible := false;
      snackbarMessage := "";
    }

    /** `onChangeText` of the GitHub field. */
    method EditGithubKey(text: string)
      modifies this`githubKey
      ensures githubKey == text
    {
      githubKey := text;
    }

    /** `onChangeText` of the Wakatime field. */
    method EditWakatimeKey(text: string)
      modifies this`wakatimeKey
      ensures wakatimeKey == text
    {
      wakatimeKey := text;
    }

    /** `handleSaveGithub`: writes the GitHub key only, and confirms. */
    method HandleSaveGithub()
      modifies store, this`snackbarVisible, this`snackbarMessage
      ensures store.keys == old(store.keys).Set(GitHub, SavedKey(githubKey))
      ensures store.Get(Wakatime) == old(store.Get(Wakatime))
      ensures store.Get(Spotify) == old(store.Get(Spotify))
      ensures snackbarVisible && snackbarMessage == GithubSavedMessage
    {
      store.Set(GitHub, SavedKey(githubKey));
      snackbarMessage := GithubSavedMessage;
      snackbarVisible := true;
    }

    /** `handleSaveWakatime`: writes the Wakatime key only, and confirms. */
    method HandleSaveWakatime()
      modifies store, this`snackbarVisible, this`snackbarMessage
      ensures store.keys == old(store.keys).Set(Wakatime, SavedKey(wakatimeKey))
      ensures store.Get(GitHub) == old(store.Get(GitHub))
      ensures store.Get(Spotify) == old(store.Get(Spotify))
      ensures snackbarVisible && snackbarMessage == WakatimeSavedMessage
    {
      store.Set(Wakatime, SavedKey(wakatimeKey));
      snackbarMessage := WakatimeSavedMessage;
      snackbarVisible := true;
    }

    /** The snackbar's `onDismiss` and its Close action. */
    method DismissSnackbar()
      modifies this`snackbarVisible
      ensures !snackbarVisible
    {
      snackbarVisible := false;
    }
  }
}
