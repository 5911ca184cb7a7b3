/** Client scenarios proved from the adapter's contracts alone. */
module Scenarios {
  import opened Wrappers
  import opened PermissionTypes
  import opened AndroidOs
  import opened PermissionStatus
  import opened BatchFlow
  import opened Adapter
  import Facade

  const Camera: string := "android.permission.CAMERA"
  const Microphone: string := "android.permission.RECORD_AUDIO"
  const Contacts: string := "android.permission.READ_CONTACTS"

  /** Two dialogs open at once get different codes; their answers, delivered
      in the opposite order, each settle only their own request. */
  method ConcurrentRequestsResolveIndependently()
    returns (cameraReply: Option<(string, bool)>, microphoneReply: Option<(string, bool)>, afterwards: Status)
    ensures cameraReply == Some(("authorized", true))
    ensures microphoneReply == Some(("never_ask_again", true))
    ensures afterwards == Restricted
  {
    var a := new PermissionAdapter(map[]);
    var os := Os(30, {}, {});
    var r1 := a.Request("camera", os, None);
    var r2 := a.Request("microphone", os, None);
    assert r1 == AwaitingDialog(0) && r2 == AwaitingDialog(1);
    assert a.listeners == [SingleListener(0, Camera), SingleListener(1, Microphone)];
    assert a.listeners[1].code == 1 && a.listeners[0].code == 0;
    a.Deliver(1, [-1], os);
    assert a.listeners[1].code == 1;
    assert a.settled == map[1 := SingleSettled(Microphone, NeverAskAgain)];
    var answered := Os(30, {Camera}, {});
    a.Deliver(0, [PermissionGranted], answered);
    assert a.listeners[0].code == 0;
    assert a.settled == map[1 := SingleSettled(Microphone, NeverAskAgain), 0 := SingleSettled(Camera, Granted)];
    cameraReply := a.FinishRequest(0);
    microphoneReply := a.FinishRequest(1);
    afterwards := a.Check(answered, "microphone").0;
  }

  /** An already granted permission is answered without a dialog and without
      a code, and the ask flag is written all the same. */
  method GrantedRequestStillRecordsAsking() returns (reply: RequestReply, asked: bool, codeAfter: nat)
    ensures reply == Answered("authorized", true)
    ensures asked
    ensures codeAfter == 0
  {
    var a := new PermissionAdapter(map[]);
    reply := a.Request("camera", Os(30, {Camera}, {}), None);
    asked := a.DidAskOnce(Camera);
    codeAfter := a.nextCode;
  }

  /** Below the runtime SDK an ungranted permission is DENIED at once. */
  method LegacyRequestIsDenied() returns (reply: RequestReply, status: Status)
    ensures reply == Answered("denied", true)
    ensures status == Restricted
  {
    var a := new PermissionAdapter(map[]);
    var os := Os(22, {}, {Camera});
    reply := a.Request("camera", os, None);
    status := a.Check(os, "camera").0;
  }

  /** A dialog that throws rejects the request and still uses up a code. */
  method ThrowingDialogUsesACode() returns (reply: RequestReply, codeAfter: nat, handlers: nat)
    ensures reply == RequestFailed("no activity")
    ensures codeAfter == 1 && handlers == 0
  {
    var a := new PermissionAdapter(map[]);
    reply := a.Request("camera", Os(30, {}, {}), Some("no activity"));
    codeAfter := a.nextCode;
    handlers := |a.listeners|;
  }

  /** Camera granted, microphone never asked, contacts asked before with a
      rationale showable: one dialog for microphone and contacts, and the
      answer fills the dictionary that already holds camera. */
  method MixedBatch() returns (dialog: seq<string>, results: map<string, GrantState>)
    ensures dialog == [Microphone, Contacts]
    ensures results == map[Camera := Granted, Microphone := NeverAskAgain, Contacts := Denied]
  {
    var a := new PermissionAdapter(map[AskKey(Contacts) := true]);
    var os := Os(30, {Camera}, {Contacts});
    var ids := [Camera, Microphone, Contacts];
    assert ids[..2] == [Camera, Microphone] && ids[..2][..1] == [Camera] && [Camera][..0] == [];
    assert ToAsk(os, [Camera]) == [];
    assert ToAsk(os, [Camera, Microphone]) == [Microphone];
    assert ToAsk(os, ids) == [Microphone, Contacts];
    assert PrecheckMap(os, [Camera]) == map[Camera := Granted];
    assert PrecheckMap(os, [Camera, Microphone]) == map[Camera := Granted];
    assert PrecheckMap(os, ids) == map[Camera := Granted];
    var s := a.RequestMultiplePermissions(ids, os, None);
    dialog := a.listeners[0].toCheck;
    a.Deliver(0, [-1, -1], os);
    assert a.listeners[0] == BatchListener(0, [Microphone, Contacts]);
    results := a.batchDicts[0];
    assert results == Filled(map[Camera := Granted], dialog, [-1, -1], {Contacts}, 2);
    assert Filled(map[Camera := Granted], dialog, [-1, -1], {Contacts}, 1) == map[Camera := Granted, Microphone := NeverAskAgain];
  }

  /** A result array shorter than the dialog counts the missing positions as
      not granted. */
  method ShortResultArray() returns (results: map<string, GrantState>)
    ensures results == map[Microphone := Denied, Contacts := NeverAskAgain]
  {
    var a := new PermissionAdapter(map[]);
    var os := Os(30, {}, {Microphone});
    var ids := [Microphone, Contacts];
    assert ids[..1] == [Microphone] && [Microphone][..0] == [];
    assert ToAsk(os, [Microphone]) == [Microphone];
    assert ToAsk(os, ids) == ids;
    assert PrecheckMap(os, [Microphone]) == map[];
    assert PrecheckMap(os, ids) == map[];
    var s := a.RequestMultiplePermissions(ids, os, None);
    a.Deliver(0, [], os);
    assert a.listeners[0] == BatchListener(0, ids);
    results := a.batchDicts[0];
    assert results == Filled(map[], ids, [], {Microphone}, 2);
    assert Filled(map[], ids, [], {Microphone}, 1) == map[Microphone := Denied];
  }

  /** Asking for the same name twice, or for a name and its identifier, puts
      the identifier in the dialog once. */
  method DuplicatesAskedOnce() returns (dialog: seq<string>)
    ensures dialog == [Camera]
  {
    var a := new PermissionAdapter(map[]);
    var os := Os(30, {}, {});
    var names := ["camera", "camera", Camera];
    var mapped := Facade.PlatformIds(names);
    assert mapped[0] == Camera && mapped[1] == Camera && mapped[2] == Camera;
    assert forall id :: id in mapped <==> id == Camera;
    var ids := Facade.Dedup(mapped);
    ToAskMembers(os, ids);
    assert Camera in ToAsk(os, ids);
    var s := a.RequestPermissions(names, os, None);
    dialog := a.listeners[0].toCheck;
    assert Camera in dialog;
  }
}
