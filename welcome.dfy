/**
 * The welcome screen's onboarding step: where "next" leads, and the two
 * buttons that record the create/restore choice before going there.
 */
module Welcome {
  import opened Wrappers
  import opened Types
  import Screens

  /**
   * What the screen reads: the disclaimer flag and biometry support from the
   * store, and three values from key-value storage, each of which may be absent.
   */
  datatype WelcomeInputs = WelcomeInputs(
    acknowledgedDisclaimer: bool,
    pinType: Option<PinType>,
    supportedBiometryType: Option<string>,
    enabledBiometrics: Option<bool>,
    skippedBiometrics: Option<bool>)

  /** Biometry is offered only when supported and both stored flags are present and false. */
  predicate OffersBiometry(inputs: WelcomeInputs)
  {
    inputs.supportedBiometryType.Some?
    && inputs.enabledBiometrics == Some(false)
    && inputs.skippedBiometrics == Some(false)
  }

  /** The destination of `navigateNext`. */
  function NextScreen(inputs: WelcomeInputs): (r: Screens.Screen)
    ensures !inputs.acknowledgedDisclaimer ==> r == Screens.Disclaimer
    ensures inputs.acknowledgedDisclaimer && inputs.pinType == Some(Unset) ==> r == Screens.SetPinScreen
    ensures r == Screens.EnableBiometryScreen <==>
      inputs.acknowledgedDisclaimer && inputs.pinType != Some(Unset) && OffersBiometry(inputs)
    ensures r == Screens.DrawerNavigator <==>
      inputs.acknowledgedDisclaimer && inputs.pinType != Some(Unset) && !OffersBiometry(inputs)
  {
    if !inputs.acknowledgedDisclaimer then Screens.Disclaimer
    else if inputs.pinType == Some(Unset) then Screens.SetPinScreen
    else if OffersBiometry(inputs) then Screens.EnableBiometryScreen
    else Screens.DrawerNavigator
  }

  /** A biometric flag missing from storage is not `false`, so the user goes straight to the wallet. */
  lemma AbsentBiometricFlagSkipsBiometry(inputs: WelcomeInputs)
    requires inputs.acknowledgedDisclaimer && inputs.pinType != Some(Unset)
    requires inputs.enabledBiometrics.None? || inputs.skippedBiometrics.None?
    ensures NextScreen(inputs) == Screens.DrawerNavigator
  {
    assert !OffersBiometry(inputs);
  }

  /** The side effects the screen issues, in order. */
  datatype Effect = SetChoseRestoreWallet(value: bool) | Navigate(to: Screens.Screen)

  class WelcomeScreen {
    /** The store's create/restore choice. */
    var choseRestoreWallet: bool
    /** Every effect issued so far. */
    var effects: seq<Effect>

    constructor (choseRestoreWallet: bool)
      ensures this.choseRestoreWallet == choseRestoreWallet && effects == []
    {
      this.choseRestoreWallet := choseRestoreWallet;
      effects := [];
    }

    method NavigateNext(inputs: WelcomeInputs)
      modifies this
      ensures effects == old(effects) + [Navigate(NextScreen(inputs))]
      ensures choseRestoreWallet == old(choseRestoreWallet)
    {
      effects := effects + [Navigate(NextScreen(inputs))];
    }

    method SetChoseRestore(value: bool)
      modifies this
      ensures choseRestoreWallet == value
      ensures effects == old(effects) + [SetChoseRestoreWallet(value)]
    {
      choseRestoreWallet := value;
      effects := effects + [SetChoseRestoreWallet(value)];
    }

    /** Records "create", then navigates. */
    method CreateWalletHandler(inputs: WelcomeInputs)
      modifies this
      ensures !choseRestoreWallet
      ensures effects == old(effects) + [SetChoseRestoreWallet(false), Navigate(NextScreen(inputs))]
    {
      SetChoseRestore(false);
      NavigateNext(inputs);
    }

    /** Records "restore", then navigates to the same place "create" would. */
    method RestoreWalletHandler(inputs: WelcomeInputs)
      modifies this
      ensures choseRestoreWallet
      ensures effects == old(effects) + [SetChoseRestoreWallet(true), Navigate(NextScreen(inputs))]
    {
      SetChoseRestore(true);
      NavigateNext(inputs);
    }
  }
}
