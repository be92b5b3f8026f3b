/**
 * The dialog that asks before data roaming is turned on, or warns that turning off
 * C-IWLAN (calling over Wi-Fi while roaming) may drop a call: how its arguments travel
 * through the argument bundle into its fields, which title and message it shows, and
 * which roaming change a button press makes.
 */
module RoamingDialog {
  import opened Wrappers

  /** Keys of the argument bundle. */
  const PrefTitleKey: string := "pref_title"
  const SubIdKey: string := "sub_id_key"
  const DialogTypeKey: string := "dialog_type"
  const CiwlanModeSupportedKey: string := "ciwlan_mode_supported"

  /** The two kinds of dialog. */
  const TypeEnableDialog: int := 0
  const TypeDisableCiwlanDialog: int := 1

  /** The platform's button identifiers, as passed to the click listener. */
  const ButtonPositive: int := -1
  const ButtonNegative: int := -2

  /** A value stored in a bundle; a string entry may hold null. */
  datatype BundleValue = StringValue(str: Option<string>) | IntValue(number: int) | BooleanValue(flag: bool)

  type Bundle = map<string, BundleValue>

  /** A string entry, or null when the key is missing or holds another kind of value. */
  function GetString(b: Bundle, key: string): Option<string> {
    if key in b && b[key].StringValue? then b[key].str else None
  }

  /** An int entry, or 0 when the key is missing or holds another kind of value. */
  function GetInt(b: Bundle, key: string): int {
    if key in b && b[key].IntValue? then b[key].number else 0
  }

  /** A boolean entry, or false when the key is missing or holds another kind of value. */
  function GetBoolean(b: Bundle, key: string): bool {
    if key in b && b[key].BooleanValue? then b[key].flag else false
  }

  /** The bundle `newInstance` fills: each argument under its own key, read back unchanged. */
  function NewInstanceArguments(prefTitle: Option<string>, dialogType: int, subId: int, ciwlanModeSupported: bool): (args: Bundle)
    ensures GetString(args, PrefTitleKey) == prefTitle
    ensures GetInt(args, DialogTypeKey) == dialogType
    ensures GetInt(args, SubIdKey) == subId
    ensures GetBoolean(args, CiwlanModeSupportedKey) == ciwlanModeSupported
  {
    map[PrefTitleKey := StringValue(prefTitle), DialogTypeKey := IntValue(dialogType),
        SubIdKey := IntValue(subId), CiwlanModeSupportedKey := BooleanValue(ciwlanModeSupported)]
  }

  predicate IsUpper(c: char) {
    'A' <= c <= 'Z'
  }

  /** Lower-cases one letter of the basic Latin alphabet and leaves every other character alone. */
  function LowerChar(c: char): char {
    if IsUpper(c) then (c as int - 'A' as int + 'a' as int) as char else c
  }

  /**
   * `String.toLowerCase` on the basic Latin alphabet: no capital letter is left, each capital
   * becomes its small letter in place, and every other character is kept.
   */
  function ToLowerCase(s: string): (r: string)
    ensures |r| == |s|
    ensures forall i :: 0 <= i < |r| ==> !IsUpper(r[i])
    ensures forall i :: 0 <= i < |s| && IsUpper(s[i]) ==> 'a' <= r[i] <= 'z' && r[i] as int == s[i] as int + 32
    ensures forall i :: 0 <= i < |s| && !IsUpper(s[i]) ==> r[i] == s[i]
  {
    seq(|s|, i requires 0 <= i < |s| => LowerChar(s[i]))
  }

  /** Lower-casing an already lower-cased title changes nothing. */
  lemma ToLowerCaseIdempotent(s: string)
    ensures ToLowerCase(ToLowerCase(s)) == ToLowerCase(s)
  {
    var r := ToLowerCase(s);
    assert forall i :: 0 <= i < |r| ==> ToLowerCase(r)[i] == r[i];
  }

  /** The strings the dialog can show, the three C-IWLAN ones formatted with the preference title. */
  datatype Text =
    | RoamingWarning
    | RoamingCheckPriceWarning
    | RoamingAlertTitle
    | CiwlanCallWillDropBody(title: string)
    | CiwlanCallMightDropBody(title: string)
    | CiwlanCallDialogTitle(title: string)

  /** The parts of the built dialog that depend on the arguments; both buttons are always present. */
  datatype AlertDialog = AlertDialog(title: Option<Text>, message: Option<Text>)

  /** A carrier's configuration; a missing check-pricing entry reads as false. */
  datatype CarrierConfig = CarrierConfig(checkPricingWithCarrierForDataRoaming: bool)

  /** The carrier configurations the platform knows, by subscription. */
  datatype CarrierConfigManager = CarrierConfigManager(configs: map<int, CarrierConfig>)

  /** The configuration for one subscription, or null when there is none. */
  function GetConfigForSubId(m: CarrierConfigManager, subId: int): Option<CarrierConfig> {
    if subId in m.configs then Some(m.configs[subId]) else None
  }

  /**
   * The title and message for a dialog type. The roaming dialog asks the user to check prices
   * with the carrier exactly when a configuration exists and sets that flag; the C-IWLAN dialog
   * says the call will drop exactly when C-IWLAN mode is supported. Other types set neither.
   */
  function DialogFor(dialogType: int, config: Option<CarrierConfig>, ciwlanModeSupported: bool, prefTitle: string): (d: AlertDialog)
    ensures dialogType == TypeEnableDialog ==>
      d.title == Some(RoamingAlertTitle)
      && (d.message == Some(RoamingCheckPriceWarning) <==> config.Some? && config.value.checkPricingWithCarrierForDataRoaming)
      && (d.message == Some(RoamingWarning) <==> !(config.Some? && config.value.checkPricingWithCarrierForDataRoaming))
    ensures dialogType == TypeDisableCiwlanDialog ==>
      d.title == Some(CiwlanCallDialogTitle(prefTitle))
      && (d.message == Some(CiwlanCallWillDropBody(prefTitle)) <==> ciwlanModeSupported)
      && (d.message == Some(CiwlanCallMightDropBody(prefTitle)) <==> !ciwlanModeSupported)
    ensures dialogType != TypeEnableDialog && dialogType != TypeDisableCiwlanDialog ==>
      d.title == None && d.message == None
  {
    if dialogType == TypeEnableDialog then
      var checkPrice := config.Some? && config.value.checkPricingWithCarrierForDataRoaming;
      AlertDialog(Some(RoamingAlertTitle), Some(if checkPrice then RoamingCheckPriceWarning else RoamingWarning))
    else if dialogType == TypeDisableCiwlanDialog then
      var body := if ciwlanModeSupported then CiwlanCallWillDropBody(prefTitle) else CiwlanCallMightDropBody(prefTitle);
      AlertDialog(Some(CiwlanCallDialogTitle(prefTitle)), Some(body))
    else
      AlertDialog(None, None)
  }

  /** What a button press does to the subscription's data-roaming setting. */
  datatype RoamingChange = NoChange | SetDataRoamingEnabled(subId: int, enabled: bool)

  /**
   * A button press changes data roaming only when the subscription's telephony manager exists,
   * the positive button was pressed, and the dialog is of one of the two known types; the
   * roaming dialog then enables roaming and the C-IWLAN dialog disables it, for that subscription.
   */
  function ClickAction(dialogType: int, which: int, subId: int, hasTelephonyManager: bool): (c: RoamingChange)
    ensures c != NoChange <==>
      hasTelephonyManager && which == ButtonPositive
      && (dialogType == TypeEnableDialog || dialogType == TypeDisableCiwlanDialog)
    ensures c.SetDataRoamingEnabled? ==> c.subId == subId && (c.enabled <==> dialogType == TypeEnableDialog)
  {
    if !hasTelephonyManager then NoChange
    else if dialogType == TypeEnableDialog && which == ButtonPositive then SetDataRoamingEnabled(subId, true)
    else if dialogType == TypeDisableCiwlanDialog && which == ButtonPositive then SetDataRoamingEnabled(subId, false)
    else NoChange
  }

  /**
   * The dialog and its buttons agree: pressing OK (with a telephony manager) changes roaming
   * exactly when the dialog shows a message, and the change it makes matches the title shown.
   */
  lemma PositiveButtonActsIffDialogHasMessage(dialogType: int, config: Option<CarrierConfig>, ciwlanModeSupported: bool, prefTitle: string, subId: int)
    ensures ClickAction(dialogType, ButtonPositive, subId, true) != NoChange
      <==> DialogFor(dialogType, config, ciwlanModeSupported, prefTitle).message.Some?
    ensures ClickAction(dialogType, ButtonPositive, subId, true) == SetDataRoamingEnabled(subId, true)
      <==> DialogFor(dialogType, config, ciwlanModeSupported, prefTitle).title == Some(RoamingAlertTitle)
  {
  }

  class RoamingDialogFragment {
    var arguments: Option<Bundle>
    var carrierConfigManager: Option<CarrierConfigManager>
    var prefTitle: Option<string>
    var dialogType: int
    var subId: int
    var ciwlanModeSupported: bool

    /** A fragment before it is given arguments: every field at its default. */
    constructor()
      ensures arguments == None && carrierConfigManager == None && prefTitle == None
      ensures dialogType == 0 && subId == 0 && !ciwlanModeSupported
    {
      arguments := None;
      carrierConfigManager := None;
      prefTitle := None;
      dialogType := 0;
      subId := 0;
      ciwlanModeSupported := false;
    }

    /** A new fragment whose arguments hold the four values under their keys. */
    static method NewInstance(prefTitle: Option<string>, dialogType: int, subId: int, ciwlanModeSupported: bool)
      returns (f: RoamingDialogFragment)
      ensures fresh(f)
      ensures f.arguments == Some(NewInstanceArguments(prefTitle, dialogType, subId, ciwlanModeSupported))
      ensures f.carrierConfigManager == None && f.prefTitle == None
      ensures f.dialogType == 0 && f.subId == 0 && !f.ciwlanModeSupported
    {
      f := new RoamingDialogFragment();
      var args: Bundle := map[];
      args := args[PrefTitleKey := StringValue(prefTitle)];
      args := args[DialogTypeKey := IntValue(dialogType)];
      args := args[SubIdKey := IntValue(subId)];
      args := args[CiwlanModeSupportedKey := BooleanValue(ciwlanModeSupported)];
      f.arguments := Some(args);
    }

    /**
     * Reads the subscription from the arguments and keeps the platform's carrier configuration
     * service (which may be missing). The arguments must have been set.
     */
    method OnAttach(systemCarrierConfigManager: Option<CarrierConfigManager>)
      requires arguments.Some?
      modifies this`subId, this`carrierConfigManager
      ensures subId == GetInt(arguments.value, SubIdKey)
      ensures carrierConfigManager == systemCarrierConfigManager
    {
      var args := arguments.value;
      subId := GetInt(args, SubIdKey);
      carrierConfigManager := systemCarrierConfigManager;
    }

    /**
     * Reads the title (lower-cased), the type and the C-IWLAN flag from the arguments and builds
     * the dialog. The title must be present, and the roaming dialog needs the carrier
     * configuration service; otherwise the platform fails on a null reference.
     */
    method OnCreateDialog() returns (dialog: AlertDialog)
      requires arguments.Some? && GetString(arguments.value, PrefTitleKey).Some?
      requires GetInt(arguments.value, DialogTypeKey) == TypeEnableDialog ==> carrierConfigManager.Some?
      modifies this`prefTitle, this`dialogType, this`ciwlanModeSupported
      ensures prefTitle == Some(ToLowerCase(GetString(arguments.value, PrefTitleKey).value))
      ensures dialogType == GetInt(arguments.value, DialogTypeKey)
      ensures ciwlanModeSupported == GetBoolean(arguments.value, CiwlanModeSupportedKey)
      ensures dialogType == TypeEnableDialog ==>
        dialog == DialogFor(dialogType, GetConfigForSubId(carrierConfigManager.value, subId), ciwlanModeSupported, prefTitle.value)
      ensures dialogType != TypeEnableDialog ==>
        dialog == DialogFor(dialogType, None, ciwlanModeSupported, prefTitle.value)
    {
      var bundle := arguments.value;
      prefTitle := Some(ToLowerCase(GetString(bundle, PrefTitleKey).value));
      dialogType := GetInt(bundle, DialogTypeKey);
      ciwlanModeSupported := GetBoolean(bundle, CiwlanModeSupportedKey);
      var title: Option<Text> := None;
      var message: Option<Text> := None;
      if dialogType == TypeEnableDialog {
        message := Some(RoamingWarning);
        var carrierConfig := GetConfigForSubId(carrierConfigManager.value, subId);
        if carrierConfig.Some? && carrierConfig.value.checkPricingWithCarrierForDataRoaming {
          message := Some(RoamingCheckPriceWarning);
        }
        title := Some(RoamingAlertTitle);
      } else if dialogType == TypeDisableCiwlanDialog {
        var msg := if ciwlanModeSupported then CiwlanCallWillDropBody(prefTitle.value)
                   else CiwlanCallMightDropBody(prefTitle.value);
        title := Some(CiwlanCallDialogTitle(prefTitle.value));
        message := Some(msg);
      }
      dialog := AlertDialog(title, message);
    }

    /**
     * A press on one of the dialog's buttons. `hasTelephonyManager` says whether the platform
     * returned a telephony manager for the fragment's subscription.
     */
    method OnClick(which: int, hasTelephonyManager: bool) returns (change: RoamingChange)
      ensures change == ClickAction(dialogType, which, subId, hasTelephonyManager)
    {
      change := NoChange;
      if !hasTelephonyManager {
        return;
      }
      if dialogType == TypeEnableDialog {
        if which == ButtonPositive {
          change := SetDataRoamingEnabled(subId, true);
        }
      } else if dialogType == TypeDisableCiwlanDialog {
        if which == ButtonPositive {
          change := SetDataRoamingEnabled(subId, false);
        }
      }
    }
  }

  /**
   * A fragment's whole life: created with its arguments, attached, its dialog shown, one button
   * pressed. What it shows and does depends only on the arguments it was created with, the title
   * appearing lower-cased.
   */
  method ShowAndPress(prefTitle: string, dialogType: int, subId: int, ciwlanModeSupported: bool,
                      systemCarrierConfigManager: CarrierConfigManager, which: int, hasTelephonyManager: bool)
    returns (dialog: AlertDialog, change: RoamingChange)
    ensures dialog == DialogFor(dialogType, GetConfigForSubId(systemCarrierConfigManager, subId),
                                ciwlanModeSupported, ToLowerCase(prefTitle))
    ensures change == ClickAction(dialogType, which, subId, hasTelephonyManager)
  {
    var f := RoamingDialogFragment.NewInstance(Some(prefTitle), dialogType, subId, ciwlanModeSupported);
    f.OnAttach(Some(systemCarrierConfigManager));
    dialog := f.OnCreateDialog();
    change := f.OnClick(which, hasTelephonyManager);
  }
}
