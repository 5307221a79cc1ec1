/** Values shared by the page models: an optional value and the router destinations
    that the pages hand to the router (the router itself is outside the model). */
module Navigation {

  datatype Option<T> = None | Some(value: T)

  /** The two destinations the modelled handlers navigate to. */
  datatype Route = OnboardingRoute | DashboardRoute

  /** The path string handed to the router for each destination. */
  function Path(r: Route): (p: string)
    ensures p == "/dashboard" <==> r == DashboardRoute
    ensures p == "/onboarding" <==> r == OnboardingRoute
  {
    match r
    case OnboardingRoute => "/onboarding"
    case DashboardRoute => "/dashboard"
  }
}
