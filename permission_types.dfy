/** The table from logical permission names to Android manifest permission
    identifiers, and the lookup-or-passthrough rule every facade call uses. */
module PermissionTypes {
  import opened Wrappers

  /** The keys of the table. */
  const TableNames: seq<string> :=
    ["location", "camera", "microphone", "contacts", "event",
     "storage", "photo", "callPhone", "readSms", "receiveSms"]

  /** The getter of the table for `name`, if the table has one.  Each getter
      returns the string value of an android.Manifest.permission constant. */
  function ManifestConstant(name: string): (constant: Option<string>)
    ensures constant.Some? <==> name in TableNames
    ensures constant.Some? ==> "android.permission." <= constant.value
  {
    match name
    case "location" => Some("android.permission.ACCESS_FINE_LOCATION")
    case "camera" => Some("android.permission.CAMERA")
    case "microphone" => Some("android.permission.RECORD_AUDIO")
    case "contacts" => Some("android.permission.READ_CONTACTS")
    case "event" => Some("android.permission.READ_CALENDAR")
    case "storage" => Some("android.permission.READ_EXTERNAL_STORAGE")
    case "photo" => Some("android.permission.WRITE_EXTERNAL_STORAGE")
    case "callPhone" => Some("android.permission.CALL_PHONE")
    case "readSms" => Some("android.permission.READ_SMS")
    case "receiveSms" => Some("android.permission.RECEIVE_SMS")
    case _ => None
  }

  /** The platform identifier of a logical name: the table's value when the
      table has the name, otherwise the name itself. */
  function PlatformId(name: string): (id: string)
    ensures ManifestConstant(name).Some? ==> id == ManifestConstant(name).value
    ensures ManifestConstant(name).None? ==> id == name
  {
    match ManifestConstant(name)
    case Some(constant) => constant
    case None => name
  }

  /** getTypes: the names the table knows. */
  function GetTypes(): (names: seq<string>)
    ensures |names| == 10
    ensures forall i, j :: 0 <= i < j < |names| ==> names[i] != names[j]
    ensures forall n :: n in names <==> ManifestConstant(n).Some?
  {
    TableNames
  }

  /** No manifest identifier is itself a key of the table. */
  lemma ConstantsAreNotNames(name: string)
    requires ManifestConstant(name).Some?
    ensures ManifestConstant(ManifestConstant(name).value).None?
  {
  }

  /** Mapping an identifier again changes nothing: a caller may pass either the
      logical name or the manifest identifier it stands for. */
  lemma PlatformIdIdempotent(name: string)
    ensures PlatformId(PlatformId(name)) == PlatformId(name)
  {
  }

  /** Two different names of the table never share an identifier. */
  lemma TableIsInjective(a: string, b: string)
    requires ManifestConstant(a).Some? && ManifestConstant(b).Some?
    requires a != b
    ensures PlatformId(a) != PlatformId(b)
  {
  }
}
