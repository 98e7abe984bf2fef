/**
 * The Angular `Router` as far as the components use it: a log of the paths passed to
 * `navigate`, plus the application's route paths.
 */
module Navigation {
  const Home := "/"
  const LoginPath := "/login"
  const SignupPath := "/signup"
  const EvaluationPath := "/skillset-evaluation"
  const StatisticsPath := "/skillset-statistics"

  class Router {
    /** Every navigation requested so far, oldest first. */
    var navigations: seq<string>

    constructor()
      ensures navigations == []
    {
      navigations := [];
    }

    method Navigate(path: string)
      modifies this
      ensures navigations == old(navigations) + [path]
    {
      navigations := navigations + [path];
    }
  }
}
