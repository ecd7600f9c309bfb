/** The application's routes the screens navigate to. */
module Routes {
  const DashboardRoute: string := "/dashboard"
  const SignInRoute: string := "/signin"
  const VerifyEmailRoute: string := "/verify-email"
}
