/** The navigation targets that the modelled decisions can choose. */
module Screens {
  datatype Screen =
    | WelcomeScreen
    | RestoreWalletScreen
    | StartLdkScreen
    | DrawerNavigator
    | Disclaimer
    | SetPinScreen
    | EnableBiometryScreen
}
