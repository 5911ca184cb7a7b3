/** The operating system as the adapter sees it.  The Android calls the
    adapter makes (checkPermission, checkSelfPermission,
    shouldShowRequestPermissionRationale) become reads of this value. */
module AndroidOs {

  /** First SDK level with runtime permissions (Android M). */
  const RuntimeSdk: int := 23

  /** Android's PackageManager.PERMISSION_GRANTED. */
  const PermissionGranted: int := 0

  /** sdk: android.os.Build.VERSION.SDK_INT.
      granted: the identifiers the permission check reports as granted (the
      install-time check below RuntimeSdk, the self-permission check from it on).
      rationale: the identifiers for which the activity's
      shouldShowRequestPermissionRationale answers true. */
  datatype Os = Os(sdk: int, granted: set<string>, rationale: set<string>)
  {
    predicate HasRuntimePermissions() { sdk >= RuntimeSdk }
  }

  /** PermissionsAndroid.check and PermissionsAndroid.hasPermission: below
      the runtime SDK the install-time checkPermission answers, from it on
      checkSelfPermission; each answer is compared with PERMISSION_GRANTED.
      Both checks read the one `granted` set, so the SDK level does not change
      the answer. */
  function IsGranted(os: Os, id: string): (granted: bool)
    ensures granted <==> id in os.granted
  {
    if os.sdk < RuntimeSdk then id in os.granted else id in os.granted
  }

  /** The module's shouldShowRequestPermissionRationale wrapper: false below
      the runtime SDK, otherwise the activity's answer. */
  function ShowRationale(os: Os, id: string): (show: bool)
    ensures show ==> os.HasRuntimePermissions()
    ensures os.HasRuntimePermissions() ==> (show <==> id in os.rationale)
  {
    if os.sdk < RuntimeSdk then false else id in os.rationale
  }
}
