/** The two result vocabularies of the adapter and the decisions that produce
    them: the three-valued outcome of a request and the four-valued status the
    facade's `check` reports. */
module PermissionStatus {
  import opened AndroidOs

  /** The PermissionStatus enum: the outcome of one requested permission. */
  datatype GrantState = Granted | Denied | NeverAskAgain

  /** The public Status union of the type declarations. */
  datatype Status = Authorized | Restricted | Undetermined | StatusDenied

  /** The string value each PermissionStatus member carries. */
  function GrantName(g: GrantState): string
  {
    match g
    case Granted => "authorized"
    case Denied => "denied"
    case NeverAskAgain => "never_ask_again"
  }

  /** The string each Status stands for. */
  function StatusName(s: Status): string
  {
    match s
    case Authorized => "authorized"
    case StatusDenied => "denied"
    case Restricted => "restricted"
    case Undetermined => "undetermined"
  }

  /** The outcome of a one-permission dialog: GRANTED exactly when the result
      array is non-empty and its first entry is PERMISSION_GRANTED; otherwise
      DENIED when a rationale can be shown, else NEVER_ASK_AGAIN. */
  function SingleOutcome(grantResults: seq<int>, showRationale: bool): (g: GrantState)
    ensures g == Granted <==> |grantResults| > 0 && grantResults[0] == PermissionGranted
    ensures g == Denied <==> g != Granted && showRationale
    ensures g == NeverAskAgain <==> g != Granted && !showRationale
  {
    if |grantResults| > 0 && grantResults[0] == PermissionGranted then Granted
    else if showRationale then Denied
    else NeverAskAgain
  }

  /** The status decision of `check`: authorized when granted; otherwise
      undetermined when never asked; otherwise denied when a rationale can be
      shown and restricted when not. */
  function CheckDecision(granted: bool, didAsk: bool, showRationale: bool): (s: Status)
    ensures s == Authorized <==> granted
    ensures s == Undetermined <==> !granted && !didAsk
    ensures s == StatusDenied <==> !granted && didAsk && showRationale
    ensures s == Restricted <==> !granted && didAsk && !showRationale
  {
    if granted then Authorized
    else if !didAsk then Undetermined
    else if showRationale then StatusDenied
    else Restricted
  }

  /** The Status a later `check` reports for a request outcome. */
  function CheckedAs(g: GrantState): Status
  {
    match g
    case Granted => Authorized
    case Denied => StatusDenied
    case NeverAskAgain => Restricted
  }

  /** `request` resolves with the PermissionStatus string cast to Status; the
      cast hides that 'never_ask_again' is none of the four Status strings,
      while the other two outcomes are. */
  lemma RequestNameOutsideStatus(g: GrantState)
    ensures (exists s :: StatusName(s) == GrantName(g)) <==> g != NeverAskAgain
  {
    if g == Granted {
      assert StatusName(Authorized) == GrantName(g);
    } else if g == Denied {
      assert StatusName(StatusDenied) == GrantName(g);
    } else {
      forall s ensures StatusName(s) != GrantName(g) {
        assert StatusName(s)[0] != 'n';
      }
    }
  }

  /** After a dialog whose answer the OS has recorded (the first result is
      PERMISSION_GRANTED exactly when the OS now reports the permission
      granted), and once the ask flag is set, `check` reports the Status that
      corresponds to the dialog's outcome. */
  lemma CheckAgreesWithDialog(os: Os, id: string, grantResults: seq<int>)
    requires os.HasRuntimePermissions()
    requires (|grantResults| > 0 && grantResults[0] == PermissionGranted) <==> IsGranted(os, id)
    ensures CheckDecision(IsGranted(os, id), true, ShowRationale(os, id))
            == CheckedAs(SingleOutcome(grantResults, id in os.rationale))
  {
  }

  /** Below the runtime SDK a rationale is never showable, so once asked a
      permission that is not granted checks as restricted, never denied, while
      a request for it resolves DENIED. */
  lemma LegacyCheckNeverDenied(os: Os, id: string, didAsk: bool)
    requires !os.HasRuntimePermissions()
    ensures CheckDecision(IsGranted(os, id), didAsk, ShowRationale(os, id)) != StatusDenied
    ensures !IsGranted(os, id) && didAsk ==>
              CheckDecision(IsGranted(os, id), didAsk, ShowRationale(os, id)) == Restricted
  {
  }
}
