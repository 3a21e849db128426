/**
 * The navigation collaborator, reduced to the root route it was last told to show.
 * `None` means no reset has been requested yet.
 */
module Navigation {
  import opened Wrappers

  datatype Route = Auth | MainApp

  class Navigator {
    var route: Option<Route>

    constructor ()
      ensures route == None
    {
      route := None;
    }

    /** navigateToAuth: reset the stack to the authentication area. */
    method NavigateToAuth()
      modifies this
      ensures route == Some(Auth)
    {
      route := Some(Auth);
    }

    /** navigateToMainApp: reset the stack to the authenticated area. */
    method NavigateToMainApp()
      modifies this
      ensures route == Some(MainApp)
    {
      route := Some(MainApp);
    }
  }
}
