/** The Android adapter's mutable state and the operations that change it:
    the request-code counter, the ask-history store, the permission-result
    listeners (registered, never removed), the settlement of each request's
    promise, and the exported facade built on them. */
module Adapter {
  import opened Wrappers
  import opened PermissionTypes
  import opened AndroidOs
  import opened PermissionStatus
  import opened BatchFlow
  import opened Facade

  /** Prefix of every ask-history key in the application settings. */
  const StorageKey: string := "@NSPermissions:didAskPermission:"

  /** The settings key under which the ask flag of `id` is stored. */
  function AskKey(id: string): (key: string)
    ensures StorageKey <= key
    ensures key[|StorageKey|..] == id
  {
    StorageKey + id
  }

  /** Different identifiers have different ask-history keys. */
  lemma AskKeyInjective(a: string, b: string)
    requires AskKey(a) == AskKey(b)
    ensures a == b
  {
    assert a == AskKey(a)[|StorageKey|..];
    assert b == AskKey(b)[|StorageKey|..];
  }

  /** Ask-history only ever gains `true` entries. */
  ghost predicate AskHistoryGrows(before: map<string, bool>, after: map<string, bool>)
  {
    forall k :: k in before && before[k] ==> k in after && after[k]
  }

  /** A permission-result handler registered with the application: the
      request code it filters on, and what it was registered for. */
  datatype Listener =
    | SingleListener(code: nat, permission: string)
    | BatchListener(code: nat, toCheck: seq<string>)

  /** How a request's promise was first resolved.  A batch promise resolves
      with its dictionary, which stays in `batchDicts`. */
  datatype Settlement = SingleSettled(permission: string, state: GrantState) | BatchSettled

  /** What requestPermission's promise does when the call returns. */
  datatype SingleStart = Immediate(state: GrantState) | AwaitingSingle(code: nat) | SingleRejected(error: string)

  /** What requestMultiplePermissions' promise does when the call returns. */
  datatype BatchStart =
    | ImmediateBatch(results: map<string, GrantState>)
    | AwaitingBatch(code: nat)
    | BatchRejected(error: string)

  /** What the facade's request promise does when the call returns. */
  datatype RequestReply = Answered(status: string, flag: bool) | AwaitingDialog(code: nat) | RequestFailed(error: string)

  /** The effect of one listener's handler on a permission-result event. */
  function Handle(l: Listener, code: nat, grantResults: seq<int>, os: Os,
                  settled: map<nat, Settlement>, dicts: map<nat, map<string, GrantState>>)
    : (after: (map<nat, Settlement>, map<nat, map<string, GrantState>>))
    ensures l.code != code ==> after == (settled, dicts)
    ensures forall c :: c in settled ==> c in after.0 && after.0[c] == settled[c]
    ensures after.0.Keys <= settled.Keys + {code}
    ensures after.1.Keys == dicts.Keys
    ensures forall c :: c in dicts && c != code ==> after.1[c] == dicts[c]
    ensures l.code == code && l.SingleListener? ==>
              && after.1 == dicts
              && code in after.0
              && (code !in settled ==> after.0[code] == SingleSettled(l.permission, SingleOutcome(grantResults, l.permission in os.rationale)))
    ensures l.code == code && l.BatchListener? && code in dicts ==>
              && code in after.0
              && after.1[code] == Filled(dicts[code], l.toCheck, grantResults, os.rationale, |l.toCheck|)
  {
    if l.code != code then (settled, dicts)
    else match l
      case SingleListener(_, permission) =>
        var state := SingleOutcome(grantResults, permission in os.rationale);
        (if code in settled then settled else settled[code := SingleSettled(permission, state)], dicts)
      case BatchListener(_, toCheck) =>
        if code !in dicts then (settled, dicts)
        else
          (if code in settled then settled else settled[code := BatchSettled],
           dicts[code := Filled(dicts[code], toCheck, grantResults, os.rationale, |toCheck|)])
  }

  class PermissionAdapter {
    /** mRequestCode: the next request code to hand out. */
    var nextCode: nat
    /** The application settings store (only its boolean entries). */
    var settings: map<string, bool>
    /** Every handler registered for permission-result events, in order. */
    var listeners: seq<Listener>
    /** The first resolution of each request promise, by request code. */
    var settled: map<nat, Settlement>
    /** The grantedPermissions dictionary of each batch that showed a dialog. */
    var batchDicts: map<nat, map<string, GrantState>>

    /** Codes are handed out in increasing order, so no two listeners share
        one; every batch listener has its dictionary. */
    ghost predicate Valid()
      reads this
    {
      && (forall i :: 0 <= i < |listeners| ==> listeners[i].code < nextCode)
      && (forall i, j :: 0 <= i < j < |listeners| ==> listeners[i].code < listeners[j].code)
      && (forall i :: 0 <= i < |listeners| && listeners[i].BatchListener? ==> listeners[i].code in batchDicts)
      && (forall c :: c in batchDicts ==> c < nextCode)
      && (forall c :: c in settled ==> c < nextCode)
    }

    /** The module as loaded: counter at zero, settings as persisted. */
    constructor (stored: map<string, bool>)
      ensures Valid()
      ensures nextCode == 0 && settings == stored
      ensures listeners == [] && settled == map[] && batchDicts == map[]
    {
      nextCode := 0;
      settings := stored;
      listeners := [];
      settled := map[];
      batchDicts := map[];
    }

    /** getDidAskOnce: the stored flag, false when unset. */
    function DidAskOnce(id: string): (asked: bool)
      reads this
      ensures AskKey(id) !in settings ==> !asked
      ensures AskKey(id) in settings ==> asked == settings[AskKey(id)]
    {
      AskKey(id) in settings && settings[AskKey(id)]
    }

    /** setDidAskOnce: store true under the identifier's key. */
    method SetDidAskOnce(id: string)
      modifies this`settings
      ensures settings == old(settings)[AskKey(id) := true]
      ensures DidAskOnce(id)
      ensures forall other :: other != id ==> (DidAskOnce(other) <==> old(DidAskOnce(other)))
      ensures AskHistoryGrows(old(settings), settings)
    {
      settings := settings[AskKey(id) := true];
      forall other | other != id
        ensures DidAskOnce(other) <==> old(DidAskOnce(other))
      {
        if AskKey(other) == AskKey(id) {
          AskKeyInjective(other, id);
        }
      }
    }

    /** requestPermission: answer at once below the runtime SDK or when
        granted; otherwise take the next code, show the dialog and register a
        handler for that code.  A dialog that throws rejects the promise after
        the code was taken and before any handler is registered. */
    method RequestPermission(permission: string, os: Os, dialogError: Option<string>) returns (s: SingleStart)
      requires Valid()
      modifies this`nextCode, this`listeners
      ensures Valid()
      ensures s.Immediate? <==> SkipsDialog(os, permission)
      ensures !os.HasRuntimePermissions() ==> s == Immediate(if IsGranted(os, permission) then Granted else Denied)
      ensures os.HasRuntimePermissions() && IsGranted(os, permission) ==> s == Immediate(Granted)
      ensures s.Immediate? ==> nextCode == old(nextCode) && listeners == old(listeners)
      ensures !s.Immediate? ==> nextCode == old(nextCode) + 1
      ensures s.AwaitingSingle? <==> !SkipsDialog(os, permission) && dialogError.None?
      ensures s.AwaitingSingle? ==>
                s.code == old(nextCode) && listeners == old(listeners) + [SingleListener(s.code, permission)]
      ensures s.SingleRejected? ==> listeners == old(listeners) && dialogError == Some(s.error)
    {
      if os.sdk < RuntimeSdk {
        return Immediate(if permission in os.granted then Granted else Denied);
      }
      if permission in os.granted {
        return Immediate(Granted);
      }
      var requestCode := nextCode;
      nextCode := nextCode + 1;
      if dialogError.Some? {
        return SingleRejected(dialogError.value);
      }
      listeners := listeners + [SingleListener(requestCode, permission)];
      s := AwaitingSingle(requestCode);
    }

    /** requestMultiplePermissions: pre-check every input; resolve at once
        when none is left to ask; otherwise take one code, show one dialog for
        the queue and register one handler that fills in the dictionary. */
    method RequestMultiplePermissions(permissions: seq<string>, os: Os, dialogError: Option<string>) returns (s: BatchStart)
      requires Valid()
      modifies this`nextCode, this`listeners, this`batchDicts
      ensures Valid()
      ensures s.ImmediateBatch? <==> ToAsk(os, permissions) == []
      ensures s.ImmediateBatch? ==>
                s.results == PrecheckMap(os, permissions) &&
                nextCode == old(nextCode) && listeners == old(listeners) && batchDicts == old(batchDicts)
      ensures !s.ImmediateBatch? ==> nextCode == old(nextCode) + 1
      ensures s.AwaitingBatch? <==> ToAsk(os, permissions) != [] && dialogError.None?
      ensures s.AwaitingBatch? ==>
                && s.code == old(nextCode)
                && listeners == old(listeners) + [BatchListener(s.code, ToAsk(os, permissions))]
                && batchDicts == old(batchDicts)[s.code := PrecheckMap(os, permissions)]
      ensures s.BatchRejected? ==>
                listeners == old(listeners) && batchDicts == old(batchDicts) && dialogError == Some(s.error)
    {
      var grantedPermissions, permissionsToCheck, checkedPermissionsCount := Precheck(os, permissions);
      if |permissions| == checkedPermissionsCount {
        return ImmediateBatch(grantedPermissions);
      }
      var requestCode := nextCode;
      nextCode := nextCode + 1;
      if dialogError.Some? {
        return BatchRejected(dialogError.value);
      }
      listeners := listeners + [BatchListener(requestCode, permissionsToCheck)];
      batchDicts := batchDicts[requestCode := grantedPermissions];
      s := AwaitingBatch(requestCode);
    }

    /** A permission-result event reaches every registered handler in turn;
        each acts only when the event's code is its own. */
    method Deliver(requestCode: nat, grantResults: seq<int>, os: Os)
      requires Valid()
      modifies this`settled, this`batchDicts
      ensures Valid()
      ensures forall k :: 0 <= k < |listeners| && listeners[k].code == requestCode ==>
                (settled, batchDicts) == Handle(listeners[k], requestCode, grantResults, os, old(settled), old(batchDicts))
      ensures (forall k :: 0 <= k < |listeners| ==> listeners[k].code != requestCode) ==>
                settled == old(settled) && batchDicts == old(batchDicts)
    {
      ghost var hit: int := -1;
      var i := 0;
      while i < |listeners|
        invariant 0 <= i <= |listeners|
        invariant -1 <= hit < i
        invariant batchDicts.Keys == old(batchDicts).Keys
        invariant settled.Keys <= old(settled).Keys + {requestCode}
        invariant hit == -1 ==>
                    && (forall k :: 0 <= k < i ==> listeners[k].code != requestCode)
                    && settled == old(settled) && batchDicts == old(batchDicts)
        invariant hit >= 0 ==>
                    && listeners[hit].code == requestCode
                    && (settled, batchDicts) == Handle(listeners[hit], requestCode, grantResults, os, old(settled), old(batchDicts))
      {
        var l := listeners[i];
        if l.code == requestCode {
          assert hit == -1;
          hit := i;
          RunHandler(l, requestCode, grantResults, os);
        }
        i := i + 1;
      }
    }

    /** The handler registered by requestPermission (first branch) or by
        requestMultiplePermissions (second), run on an event with its code. */
    method RunHandler(l: Listener, requestCode: nat, grantResults: seq<int>, os: Os)
      requires l.code == requestCode
      requires l.BatchListener? ==> requestCode in batchDicts
      modifies this`settled, this`batchDicts
      ensures (settled, batchDicts) == Handle(l, requestCode, grantResults, os, old(settled), old(batchDicts))
    {
      match l
      case SingleListener(_, permission) =>
        var state := SingleOutcome(grantResults, permission in os.rationale);
        if requestCode !in settled {
          settled := settled[requestCode := SingleSettled(permission, state)];
        }
      case BatchListener(_, toCheck) =>
        var filled := FillResults(batchDicts[requestCode], toCheck, grantResults, os.rationale);
        batchDicts := batchDicts[requestCode := filled];
        if requestCode !in settled {
          settled := settled[requestCode := BatchSettled];
        }
    }

    /** check: authorized when granted; otherwise undetermined when never
        asked; otherwise denied or restricted as the rationale wrapper says. */
    function Check(os: Os, name: string): (r: (Status, bool))
      reads this
      ensures r.1
      ensures r.0 == Authorized <==> HasPermission(os, name)
      ensures r.0 == Undetermined <==> !HasPermission(os, name) && !DidAskOnce(PlatformId(name))
      ensures r.0 == StatusDenied ==> os.HasRuntimePermissions()
      ensures r.0 == StatusDenied <==>
                !HasPermission(os, name) && DidAskOnce(PlatformId(name)) && ShowRationale(os, PlatformId(name))
      ensures r.0 == Restricted <==>
                !HasPermission(os, name) && DidAskOnce(PlatformId(name)) && !ShowRationale(os, PlatformId(name))
    {
      var id := PlatformId(name);
      (CheckDecision(IsGranted(os, id), DidAskOnce(id), ShowRationale(os, id)), true)
    }

    /** checkPermissions: one check per name, keyed by the name as given. */
    function CheckPermissions(os: Os, names: seq<string>): (r: map<string, (Status, bool)>)
      reads this
      ensures forall n :: n in r <==> n in names
      ensures forall n :: n in r ==> r[n] == Check(os, n)
      decreases |names|
    {
      if names == [] then map[]
      else
        var name := names[|names| - 1];
        CheckPermissions(os, names[..|names| - 1])[name := Check(os, name)]
    }

    /** request: map the name, run requestPermission, and once it resolves
        record the ask flag and resolve with its status.  The answer of a
        dialog arrives later, through FinishRequest. */
    method Request(name: string, os: Os, dialogError: Option<string>) returns (r: RequestReply)
      requires Valid()
      modifies this`nextCode, this`listeners, this`settings
      ensures Valid()
      ensures r.Answered? <==> SkipsDialog(os, PlatformId(name))
      ensures r.Answered? ==>
                && r == Answered(GrantName(PrecheckState(os, PlatformId(name))), true)
                && settings == old(settings)[AskKey(PlatformId(name)) := true]
                && nextCode == old(nextCode) && listeners == old(listeners)
      ensures !r.Answered? ==> settings == old(settings) && nextCode == old(nextCode) + 1
      ensures r.AwaitingDialog? <==> !SkipsDialog(os, PlatformId(name)) && dialogError.None?
      ensures r.AwaitingDialog? ==>
                r.code == old(nextCode) && listeners == old(listeners) + [SingleListener(r.code, PlatformId(name))]
      ensures r.RequestFailed? ==> listeners == old(listeners) && dialogError == Some(r.error)
      ensures AskHistoryGrows(old(settings), settings)
    {
      var permission := PlatformId(name);
      var s := RequestPermission(permission, os, dialogError);
      match s
      case Immediate(state) =>
        SetDidAskOnce(permission);
        r := Answered(GrantName(state), true);
      case AwaitingSingle(code) =>
        r := AwaitingDialog(code);
      case SingleRejected(error) =>
        r := RequestFailed(error);
    }

    /** The continuation of a request whose dialog has been answered: record
        the ask flag and resolve with the status; nothing while the promise of
        that code is still pending. */
    method FinishRequest(requestCode: nat) returns (r: Option<(string, bool)>)
      modifies this`settings
      ensures requestCode in settled && settled[requestCode].SingleSettled? ==>
                && r == Some((GrantName(settled[requestCode].state), true))
                && settings == old(settings)[AskKey(settled[requestCode].permission) := true]
      ensures !(requestCode in settled && settled[requestCode].SingleSettled?) ==>
                r == None && settings == old(settings)
      ensures AskHistoryGrows(old(settings), settings)
    {
      if requestCode in settled && settled[requestCode].SingleSettled? {
        var settlement := settled[requestCode];
        SetDidAskOnce(settlement.permission);
        r := Some((GrantName(settlement.state), true));
      } else {
        r := None;
      }
    }

    /** requestPermissions: map the names, drop repeated identifiers, and run
        the batch flow on what is left; results are keyed by identifier. */
    method RequestPermissions(names: seq<string>, os: Os, dialogError: Option<string>) returns (s: BatchStart)
      requires Valid()
      modifies this`nextCode, this`listeners, this`batchDicts
      ensures Valid()
      ensures var ids := Dedup(PlatformIds(names));
              && (s.ImmediateBatch? <==> ToAsk(os, ids) == [])
              && (s.AwaitingBatch? <==> ToAsk(os, ids) != [] && dialogError.None?)
              && (s.ImmediateBatch? ==>
                    && s.results == PrecheckMap(os, ids)
                    && nextCode == old(nextCode) && listeners == old(listeners) && batchDicts == old(batchDicts))
              && (!s.ImmediateBatch? ==> nextCode == old(nextCode) + 1)
              && (s.AwaitingBatch? ==>
                    && s.code == old(nextCode)
                    && listeners == old(listeners) + [BatchListener(s.code, ToAsk(os, ids))]
                    && batchDicts == old(batchDicts)[s.code := PrecheckMap(os, ids)])
              && (s.BatchRejected? ==>
                    listeners == old(listeners) && batchDicts == old(batchDicts) && dialogError == Some(s.error))
      ensures s.AwaitingBatch? ==>
                var toCheck := listeners[|listeners| - 1].toCheck;
                && (forall i, j :: 0 <= i < j < |toCheck| ==> toCheck[i] != toCheck[j])
                && (forall id :: id in toCheck <==> id in PlatformIds(names) && !IsGranted(os, id))
    {
      var ids := Dedup(PlatformIds(names));
      s := RequestMultiplePermissions(ids, os, dialogError);
      if s.AwaitingBatch? {
        var toCheck := ToAsk(os, ids);
        assert listeners[|listeners| - 1].toCheck == toCheck;
        ToAskDistinct(os, ids);
        ToAskMembers(os, ids);
        assert toCheck[0] in toCheck;
        assert os.HasRuntimePermissions();
        forall id ensures id in toCheck <==> id in PlatformIds(names) && !IsGranted(os, id) {
          assert id in ids <==> id in PlatformIds(names);
        }
      }
    }
  }

  /** No two registered handlers filter on the same request code, and every
      code handed out so far is below the counter. */
  lemma ListenerCodesDistinct(a: PermissionAdapter, i: nat, j: nat)
    requires a.Valid()
    requires i < |a.listeners| && j < |a.listeners| && i != j
    ensures a.listeners[i].code != a.listeners[j].code
    ensures a.listeners[i].code < a.nextCode
  {
  }

  /** `check` reports authorized exactly when hasPermission is true. */
  lemma CheckMatchesHasPermission(a: PermissionAdapter, os: Os, name: string)
    ensures a.Check(os, name).0 == Authorized <==> HasPermission(os, name)
  {
  }
}
