/**
 The command-line overrides of the global configuration at the start of
 `main()`. Only the truthiness of each argument decides whether it replaces
 the configured value: a missing route or an empty string keeps the
 configured route, and a missing velocity or a velocity of `0.0` keeps the
 configured velocity.
 */
module Config {

  datatype Option<T> = None | Some(value: T)

  /** The parsed command line: `-r/--route` and `-v/--velocity`, both optional. */
  datatype Args = Args(route: Option<string>, velocity: Option<real>)

  /** The two configuration fields that `main()` may override. */
  datatype Settings = Settings(routeConfig: string, v: real)

  /** Python truthiness of an optional string: `None` and `""` are false. */
  predicate RouteGiven(route: Option<string>)
  {
    route.Some? && route.value != ""
  }

  /** Python truthiness of an optional float: `None` and `0.0` are false. */
  predicate VelocityGiven(velocity: Option<real>)
  {
    velocity.Some? && velocity.value != 0.0
  }

  /** The settings after the overrides of main.py lines 50-54. */
  function Overridden(s: Settings, a: Args): (r: Settings)
    ensures RouteGiven(a.route) ==> r.routeConfig == a.route.value
    ensures !RouteGiven(a.route) ==> r.routeConfig == s.routeConfig
    ensures VelocityGiven(a.velocity) ==> r.v == a.velocity.value
    ensures !VelocityGiven(a.velocity) ==> r.v == s.v
    // a field changes only to the value given for it on the command line
    ensures r.routeConfig != s.routeConfig ==> a.route == Some(r.routeConfig)
    ensures r.v != s.v ==> a.velocity == Some(r.v)
  {
    Settings(if RouteGiven(a.route) then a.route.value else s.routeConfig,
             if VelocityGiven(a.velocity) then a.velocity.value else s.v)
  }

  /** A velocity of zero on the command line is the same as no velocity. */
  lemma ZeroVelocityIsNoOverride(s: Settings, route: Option<string>)
    ensures Overridden(s, Args(route, Some(0.0))) == Overridden(s, Args(route, None))
    ensures Overridden(s, Args(route, Some(0.0))).v == s.v
  {
  }

  /** An empty route on the command line is the same as no route. */
  lemma EmptyRouteIsNoOverride(s: Settings, velocity: Option<real>)
    ensures Overridden(s, Args(Some(""), velocity)) == Overridden(s, Args(None, velocity))
  {
  }
}
