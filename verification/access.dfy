/** The client-side login gate and the login/profile navbar link. `userStored`
    stands for "the `loggedInUser` entry of browser storage, parsed as JSON, is
    truthy": a stored `null`, `false`, `0` or `""` counts as no user. */
module Access {

  const RestrictedPages: seq<string> := ["/items.html"]
  const LoginPage: string := "login.html"
  const ProfilePage: string := "profile.html"

  /** Whether the "Login Required" overlay is attached to the page */
  function ShowsLoginGate(path: string, userStored: bool): (shown: bool)
    ensures shown <==> path == "/items.html" && !userStored
  {
    path in RestrictedPages && !userStored
  }

  /** The gate decision seen as the page body's overlay count: the handler
      attaches one overlay element when it decides to show the gate, none otherwise */
  function OverlayCount(path: string, userStored: bool): (n: nat)
    ensures n <= 1
    ensures n == 1 <==> path == "/items.html" && !userStored
  {
    if ShowsLoginGate(path, userStored) then 1 else 0
  }

  /** Where the navbar login link points */
  function NavHref(userStored: bool): (href: string)
    ensures href == ProfilePage <==> userStored
    ensures href == LoginPage <==> !userStored
  {
    if userStored then ProfilePage else LoginPage
  }

  /** The gate and the navbar link read the same flag: whenever the overlay is
      shown, the link leads to the login page as well. */
  lemma GateAgreesWithNav(path: string, userStored: bool)
    ensures ShowsLoginGate(path, userStored) ==> NavHref(userStored) == LoginPage
    ensures NavHref(userStored) == ProfilePage ==> !ShowsLoginGate(path, userStored)
  {
  }
}
