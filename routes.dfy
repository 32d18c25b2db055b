/** The in-app routes the pages navigate to. */
module Routes {
  const LoginRoute := "/login"
  const DashboardRoute := "/dashboard"
}
