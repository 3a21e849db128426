/** The UI slice of the Redux store (src/store/slices/uiSlice.ts). */
module UiSlice {

  datatype Theme = Light | Dark

  datatype UiState = UiState(isRefreshing: bool, theme: Theme)

  const InitialUiState := UiState(false, Light)

  class UiStore {
    var isRefreshing: bool
    var theme: Theme

    function State(): (s: UiState)
      reads this
    {
      UiState(isRefreshing, theme)
    }

    constructor ()
      ensures State() == InitialUiState
      ensures !isRefreshing && theme == Light
    {
      isRefreshing := false;
      theme := Light;
    }

    method SetRefreshing(b: bool)
      modifies this
      ensures isRefreshing == b
      ensures theme == old(theme)
    {
      isRefreshing := b;
    }

    method SetTheme(t: Theme)
      modifies this
      ensures theme == t
      ensures isRefreshing == old(isRefreshing)
    {
      theme := t;
    }
  }
}
