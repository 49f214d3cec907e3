/** The state logic of components/Sidebar.tsx: the API-key drafts kept
    apart from the saved settings until "Save", the saved flags, the
    settings panel toggle, and the pure display rules (title truncation,
    when the save buttons are disabled, when "Clear" is shown). */
module Sidebar {
  import Settings
  import Auth

  const TitleLimit: nat := 30

  /** The title shown for a project: unchanged up to 30 characters,
      otherwise its first 30 characters and '...'. */
  function DisplayTitle(title: string): (r: string)
    ensures |title| <= TitleLimit ==> r == title
    ensures |title| > TitleLimit ==> |r| == TitleLimit + 3 && r[..TitleLimit] == title[..TitleLimit] && r[TitleLimit..] == "..."
  {
    if |title| > TitleLimit then title[..TitleLimit] + "..." else title
  }

  /** A displayed title is never longer than 33 characters, and displaying
      it again changes nothing. */
  lemma DisplayTitleStable(title: string)
    ensures |DisplayTitle(title)| <= TitleLimit + 3
    ensures DisplayTitle(DisplayTitle(title)) == DisplayTitle(title)
  {
    if |title| > TitleLimit {
      var shown := DisplayTitle(title);
      assert shown[..TitleLimit] == title[..TitleLimit];
    }
  }

  /** The "Clear" button of the project list is shown. */
  predicate ClearVisible(isCollapsed: bool, historyLength: nat, isLoading: bool) {
    !isCollapsed && historyLength > 0 && !isLoading
  }

  class SidebarState {
    const settings: Settings.SettingsStore
    const auth: Auth.AuthSession
    var localGeminiKey: string
    var localOpenRouterKey: string
    var geminiSaved: bool
    var openRouterSaved: bool
    var isSettingsExpanded: bool
    /** The `isCollapsed` prop, owned by the page and flipped by `onToggleCollapse`. */
    var isCollapsed: bool

    constructor (settings: Settings.SettingsStore, auth: Auth.AuthSession, isCollapsed: bool)
      ensures this.settings == settings && this.auth == auth && this.isCollapsed == isCollapsed
      ensures localGeminiKey == settings.geminiKey && localOpenRouterKey == settings.openRouterKey
      ensures !geminiSaved && !openRouterSaved && !isSettingsExpanded
    {
      this.settings := settings;
      this.auth := auth;
      this.isCollapsed := isCollapsed;
      localGeminiKey := settings.geminiKey;
      localOpenRouterKey := settings.openRouterKey;
      geminiSaved, openRouterSaved, isSettingsExpanded := false, false, false;
    }

    /** The Gemini "Save" button is disabled. */
    predicate GeminiSaveDisabled()
      reads this, settings
    {
      !settings.useCustomGemini || localGeminiKey == settings.geminiKey
    }

    /** The OpenRouter "Save" button is disabled. */
    predicate OpenRouterSaveDisabled()
      reads this, settings
    {
      localOpenRouterKey == settings.openRouterKey
    }

    /** Typing in the Gemini key field. */
    method EditGeminiDraft(text: string)
      modifies this
      ensures localGeminiKey == text
      ensures localOpenRouterKey == old(localOpenRouterKey) && geminiSaved == old(geminiSaved)
      ensures openRouterSaved == old(openRouterSaved) && isSettingsExpanded == old(isSettingsExpanded)
      ensures isCollapsed == old(isCollapsed)
    {
      localGeminiKey := text;
    }

    method EditOpenRouterDraft(text: string)
      modifies this
      ensures localOpenRouterKey == text
      ensures localGeminiKey == old(localGeminiKey) && geminiSaved == old(geminiSaved)
      ensures openRouterSaved == old(openRouterSaved) && isSettingsExpanded == old(isSettingsExpanded)
      ensures isCollapsed == old(isCollapsed)
    {
      localOpenRouterKey := text;
    }

    /** `handleSaveGeminiKey`: the draft becomes the saved key, only the
        Gemini flag is raised, and the button is then disabled. */
    method SaveGeminiKey()
      modifies this, settings
      ensures settings.State() == old(settings.State()).(geminiKey := old(localGeminiKey))
      ensures settings.storage == old(settings.storage)[Settings.GeminiKeyName := old(localGeminiKey)]
      ensures geminiSaved && openRouterSaved == old(openRouterSaved)
      ensures localGeminiKey == old(localGeminiKey) && localOpenRouterKey == old(localOpenRouterKey)
      ensures isSettingsExpanded == old(isSettingsExpanded) && isCollapsed == old(isCollapsed)
      ensures GeminiSaveDisabled()
    {
      settings.UpdateGeminiKey(localGeminiKey);
      geminiSaved := true;
    }

    /** `handleSaveOpenRouterKey`. */
    method SaveOpenRouterKey()
      modifies this, settings
      ensures settings.State() == old(settings.State()).(openRouterKey := old(localOpenRouterKey))
      ensures settings.storage == old(settings.storage)[Settings.OpenRouterKeyName := old(localOpenRouterKey)]
      ensures openRouterSaved && geminiSaved == old(geminiSaved)
      ensures localGeminiKey == old(localGeminiKey) && localOpenRouterKey == old(localOpenRouterKey)
      ensures isSettingsExpanded == old(isSettingsExpanded) && isCollapsed == old(isCollapsed)
      ensures OpenRouterSaveDisabled()
    {
      settings.UpdateOpenRouterKey(localOpenRouterKey);
      openRouterSaved := true;
    }

    /** The two-second timers that lower the saved flags. */
    method GeminiSavedExpired()
      modifies this
      ensures !geminiSaved && openRouterSaved == old(openRouterSaved)
      ensures localGeminiKey == old(localGeminiKey) && localOpenRouterKey == old(localOpenRouterKey)
      ensures isSettingsExpanded == old(isSettingsExpanded) && isCollapsed == old(isCollapsed)
    {
      geminiSaved := false;
    }

    method OpenRouterSavedExpired()
      modifies this
      ensures !openRouterSaved && geminiSaved == old(geminiSaved)
      ensures localGeminiKey == old(localGeminiKey) && localOpenRouterKey == old(localOpenRouterKey)
      ensures isSettingsExpanded == old(isSettingsExpanded) && isCollapsed == old(isCollapsed)
    {
      openRouterSaved := false;
    }

    /** The effect run when the saved Gemini key changes: the draft is reset to it. */
    method SyncGeminiDraft()
      modifies this
      ensures localGeminiKey == settings.geminiKey
      ensures localOpenRouterKey == old(localOpenRouterKey)
      ensures geminiSaved == old(geminiSaved) && openRouterSaved == old(openRouterSaved)
      ensures isSettingsExpanded == old(isSettingsExpanded) && isCollapsed == old(isCollapsed)
    {
      localGeminiKey := settings.geminiKey;
    }

    method SyncOpenRouterDraft()
      modifies this
      ensures localOpenRouterKey == settings.openRouterKey
      ensures localGeminiKey == old(localGeminiKey)
      ensures geminiSaved == old(geminiSaved) && openRouterSaved == old(openRouterSaved)
      ensures isSettingsExpanded == old(isSettingsExpanded) && isCollapsed == old(isCollapsed)
    {
      localOpenRouterKey := settings.openRouterKey;
    }

    /** The settings header: a collapsed sidebar is expanded first, then the
        panel flag flips. */
    method ToggleSettings()
      modifies this
      ensures isSettingsExpanded == !old(isSettingsExpanded)
      ensures !isCollapsed
      ensures localGeminiKey == old(localGeminiKey) && localOpenRouterKey == old(localOpenRouterKey)
      ensures geminiSaved == old(geminiSaved) && openRouterSaved == old(openRouterSaved)
    {
      if isCollapsed {
        isCollapsed := false;
      }
      isSettingsExpanded := !isSettingsExpanded;
    }

    /** "Sign Out": the session is logged out and the panel closes. */
    method SignOut()
      modifies this, auth
      ensures !auth.IsAuthenticated() && auth.storedUser.None?
      ensures !isSettingsExpanded && isCollapsed == old(isCollapsed)
      ensures localGeminiKey == old(localGeminiKey) && localOpenRouterKey == old(localOpenRouterKey)
      ensures geminiSaved == old(geminiSaved) && openRouterSaved == old(openRouterSaved)
      ensures auth.isLoading == old(auth.isLoading)
    {
      auth.Logout();
      isSettingsExpanded := false;
    }
  }
}
