/** src/store/useAppStore.ts: UI preferences. Persistence to localStorage is not modelled;
    neither `privacyMode` nor `selectedModel` is sent with any request. */
module AppStore {

  /** `ModelType`: one of the two declared identifiers. */
  datatype ModelType = GeminiFlashLatest | Gemini25Pro

  function ModelId(m: ModelType): (id: string)
    ensures id == "models/gemini-flash-latest" || id == "models/gemini-2.5-pro"
  {
    match m
    case GeminiFlashLatest => "models/gemini-flash-latest"
    case Gemini25Pro => "models/gemini-2.5-pro"
  }

  /** The identifiers are distinct, so the stored choice is recoverable from its string. */
  lemma ModelIdInjective(a: ModelType, b: ModelType)
    ensures ModelId(a) == ModelId(b) <==> a == b
  {
    if a != b {
      assert ModelId(a)[14] != ModelId(b)[14];
    }
  }

  class AppState {
    var isSidebarCollapsed: bool
    var privacyMode: bool
    var selectedModel: ModelType

    /** Sidebar expanded, privacy off, the flash model. */
    constructor ()
      ensures !isSidebarCollapsed && !privacyMode && selectedModel == GeminiFlashLatest
    {
      isSidebarCollapsed := false;
      privacyMode := false;
      selectedModel := GeminiFlashLatest;
    }

    /** Negates the flag; two toggles restore it. */
    method ToggleSidebar()
      modifies this
      ensures isSidebarCollapsed == !old(isSidebarCollapsed)
      ensures privacyMode == old(privacyMode) && selectedModel == old(selectedModel)
    {
      isSidebarCollapsed := !isSidebarCollapsed;
    }

    method SetPrivacyMode(enabled: bool)
      modifies this
      ensures privacyMode == enabled
      ensures isSidebarCollapsed == old(isSidebarCollapsed) && selectedModel == old(selectedModel)
    {
      privacyMode := enabled;
    }

    method SetSelectedModel(model: ModelType)
      modifies this
      ensures selectedModel == model
      ensures isSidebarCollapsed == old(isSidebarCollapsed) && privacyMode == old(privacyMode)
    {
      selectedModel := model;
    }
  }
}
