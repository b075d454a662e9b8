/**
 * The root layout's navigation guard: whether the signed-in user has a goal,
 * and where to send the user given the first route segment.
 */
module RootLayout {
  import opened Common
  import GoalStore

  /** The `router.replace` target chosen by one evaluation of the guard, if any. */
  datatype Redirect = NoRedirect | ToLogin | ToTabs | ToOnboarding

  const AuthGroup: string := "(auth)"
  const AuthCallbackSegment: string := "auth"
  const OnboardingSegment: string := "onboarding"

  /**
   * The redirect effect: nothing while loading or on the OAuth callback route;
   * otherwise the first matching rule of the if/else chain.  `segment` is
   * `segments[0]`, absent at the root.
   */
  function RedirectFor(authLoading: bool, checkingGoal: bool, hasUser: bool,
                       hasGoal: Option<bool>, segment: Option<string>): (r: Redirect)
    ensures authLoading || checkingGoal ==> r == NoRedirect
    ensures segment == Some(AuthCallbackSegment) ==> r == NoRedirect
    ensures r == ToLogin <==>
      && !authLoading && !checkingGoal && segment != Some(AuthCallbackSegment)
      && !hasUser && segment != Some(AuthGroup)
    ensures r == ToTabs <==>
      && !authLoading && !checkingGoal && segment != Some(AuthCallbackSegment)
      && hasUser && hasGoal == Some(true)
      && (segment == Some(AuthGroup) || segment == Some(OnboardingSegment))
    ensures r == ToOnboarding <==>
      && !authLoading && !checkingGoal && segment != Some(AuthCallbackSegment) && hasUser
      && (|| (segment == Some(AuthGroup) && hasGoal != Some(true))
          || (segment != Some(AuthGroup) && hasGoal == Some(false) && segment != Some(OnboardingSegment)))
  {
    var inAuthGroup := segment == Some(AuthGroup);
    var inAuthCallback := segment == Some(AuthCallbackSegment);
    var inOnboarding := segment == Some(OnboardingSegment);
    if authLoading || checkingGoal then NoRedirect
    else if inAuthCallback then NoRedirect
    else if !hasUser && !inAuthGroup then ToLogin
    else if hasUser && inAuthGroup then (if hasGoal == Some(true) then ToTabs else ToOnboarding)
    else if hasUser && hasGoal == Some(false) && !inOnboarding then ToOnboarding
    else if hasUser && hasGoal == Some(true) && inOnboarding then ToTabs
    else NoRedirect
  }

  /** A signed-in user with a goal, outside the auth group and onboarding, stays where they are. */
  lemma SettledUserStays(segment: Option<string>)
    requires segment != Some(AuthGroup) && segment != Some(OnboardingSegment)
    ensures RedirectFor(false, false, true, Some(true), segment) == NoRedirect
  {
  }

  /** In the auth group, an unknown goal state (`null`) counts as no goal. */
  lemma UnknownGoalGoesToOnboarding()
    ensures RedirectFor(false, false, true, None, Some(AuthGroup)) == ToOnboarding
    ensures RedirectFor(false, false, true, Some(false), Some(AuthGroup)) == ToOnboarding
    ensures RedirectFor(false, false, true, Some(true), Some(AuthGroup)) == ToTabs
  {
  }

  /** The guard's local state: `hasGoal` (`null` until known) and `checkingGoal`. */
  class RootLayoutNav {
    var hasGoal: Option<bool>
    var checkingGoal: bool

    constructor ()
      ensures hasGoal == None && checkingGoal
    {
      hasGoal := None;
      checkingGoal := true;
    }

    /** `checkGoal`: null without a user, otherwise whether the goal store holds a goal. */
    method CheckGoal(hasUser: bool, goals: GoalStore.GoalStorage)
      modifies this
      ensures !checkingGoal
      ensures hasGoal == (if hasUser then Some(goals.stored.Some?) else None)
    {
      if !hasUser {
        hasGoal := None;
        checkingGoal := false;
        return;
      }
      var goalExists := goals.HasGoal();
      hasGoal := Some(goalExists);
      checkingGoal := false;
    }

    /** The first effect: re-check the goal whenever auth has finished loading. */
    method OnDependenciesChanged(authLoading: bool, hasUser: bool, goals: GoalStore.GoalStorage)
      modifies this
      ensures authLoading ==> hasGoal == old(hasGoal) && checkingGoal == old(checkingGoal)
      ensures !authLoading ==> !checkingGoal && hasGoal == (if hasUser then Some(goals.stored.Some?) else None)
    {
      if !authLoading {
        CheckGoal(hasUser, goals);
      }
    }

    /** The second effect: the redirect for the current state and route. */
    method ChooseRedirect(authLoading: bool, hasUser: bool, segment: Option<string>) returns (r: Redirect)
      ensures r == RedirectFor(authLoading, checkingGoal, hasUser, hasGoal, segment)
    {
      r := RedirectFor(authLoading, checkingGoal, hasUser, hasGoal, segment);
    }
  }
}
