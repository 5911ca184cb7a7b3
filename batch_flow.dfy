/** The two loops of requestMultiplePermissions: the pre-check that splits the
    inputs into those answered without a dialog and those to ask, and the
    callback loop that fills in the dialog's answers by position. */
module BatchFlow {
  import opened AndroidOs
  import opened PermissionStatus

  /** An input is answered without a dialog below the runtime SDK, or when it
      is already granted. */
  predicate SkipsDialog(os: Os, p: string)
  {
    !os.HasRuntimePermissions() || IsGranted(os, p)
  }

  /** The entry the pre-check records for an input it answers itself. */
  function PrecheckState(os: Os, p: string): GrantState
  {
    if IsGranted(os, p) then Granted else Denied
  }

  /** grantedPermissions after the pre-check has seen `perms`. */
  function PrecheckMap(os: Os, perms: seq<string>): map<string, GrantState>
    decreases |perms|
  {
    if perms == [] then map[]
    else
      var d := PrecheckMap(os, perms[..|perms| - 1]);
      var p := perms[|perms| - 1];
      if SkipsDialog(os, p) then d[p := PrecheckState(os, p)] else d
  }

  /** permissionsToCheck after the pre-check has seen `perms`. */
  function ToAsk(os: Os, perms: seq<string>): seq<string>
    decreases |perms|
  {
    if perms == [] then []
    else
      var p := perms[|perms| - 1];
      ToAsk(os, perms[..|perms| - 1]) + (if SkipsDialog(os, p) then [] else [p])
  }

  /** The pre-check loop: every input either gets its entry now or is queued
      for the dialog, and the counter counts the entries made. */
  method Precheck(os: Os, permissions: seq<string>)
    returns (grantedPermissions: map<string, GrantState>, permissionsToCheck: seq<string>, checkedPermissionsCount: nat)
    ensures grantedPermissions == PrecheckMap(os, permissions)
    ensures permissionsToCheck == ToAsk(os, permissions)
    ensures checkedPermissionsCount + |permissionsToCheck| == |permissions|
  {
    grantedPermissions, permissionsToCheck, checkedPermissionsCount := map[], [], 0;
    for i := 0 to |permissions|
      invariant grantedPermissions == PrecheckMap(os, permissions[..i])
      invariant permissionsToCheck == ToAsk(os, permissions[..i])
      invariant checkedPermissionsCount + |permissionsToCheck| == i
    {
      var perm := permissions[i];
      assert permissions[..i + 1][..i] == permissions[..i];
      if os.sdk < RuntimeSdk {
        grantedPermissions := grantedPermissions[perm := if perm in os.granted then Granted else Denied];
        checkedPermissionsCount := checkedPermissionsCount + 1;
      } else if perm in os.granted {
        grantedPermissions := grantedPermissions[perm := Granted];
        checkedPermissionsCount := checkedPermissionsCount + 1;
      } else {
        permissionsToCheck := permissionsToCheck + [perm];
      }
    }
    assert permissions[..|permissions|] == permissions;
  }

  /** The pre-check answers exactly the inputs that skip the dialog, each with
      GRANTED when granted and DENIED otherwise. */
  lemma {:induction false} PrecheckMapEntries(os: Os, perms: seq<string>)
    ensures forall p :: p in PrecheckMap(os, perms) <==> p in perms && SkipsDialog(os, p)
    ensures forall p :: p in PrecheckMap(os, perms) ==> PrecheckMap(os, perms)[p] == PrecheckState(os, p)
    decreases |perms|
  {
    if perms != [] {
      var init := perms[..|perms| - 1];
      PrecheckMapEntries(os, init);
      assert perms == init + [perms[|perms| - 1]];
    }
  }

  /** The inputs queued for the dialog are exactly those that do not skip it. */
  lemma {:induction false} ToAskMembers(os: Os, perms: seq<string>)
    ensures forall p :: p in ToAsk(os, perms) <==> p in perms && !SkipsDialog(os, p)
    decreases |perms|
  {
    if perms != [] {
      var init := perms[..|perms| - 1];
      ToAskMembers(os, init);
      assert perms == init + [perms[|perms| - 1]];
    }
  }

  /** The queue keeps the inputs' order: queuing a concatenation is
      concatenating the queues. */
  lemma {:induction false} ToAskAppend(os: Os, a: seq<string>, b: seq<string>)
    ensures ToAsk(os, a + b) == ToAsk(os, a) + ToAsk(os, b)
    decreases |b|
  {
    if b == [] {
      assert a + b == a;
    } else {
      var init := b[..|b| - 1];
      ToAskAppend(os, a, init);
      assert (a + b)[..|a + b| - 1] == a + init;
    }
  }

  /** Distinct inputs give a queue without repeats. */
  lemma {:induction false} ToAskDistinct(os: Os, perms: seq<string>)
    requires forall i, j :: 0 <= i < j < |perms| ==> perms[i] != perms[j]
    ensures forall i, j :: 0 <= i < j < |ToAsk(os, perms)| ==> ToAsk(os, perms)[i] != ToAsk(os, perms)[j]
    decreases |perms|
  {
    if perms != [] {
      var init := perms[..|perms| - 1];
      var p := perms[|perms| - 1];
      ToAskDistinct(os, init);
      ToAskMembers(os, init);
      assert p !in init;
    }
  }

  /** Below the runtime SDK nothing is queued, and every input is answered
      GRANTED or DENIED (never NEVER_ASK_AGAIN). */
  lemma LegacyNeedsNoDialog(os: Os, perms: seq<string>)
    requires !os.HasRuntimePermissions()
    ensures ToAsk(os, perms) == []
    ensures forall p :: p in PrecheckMap(os, perms) <==> p in perms
    ensures forall p :: p in PrecheckMap(os, perms) ==> PrecheckMap(os, perms)[p] != NeverAskAgain
  {
    ToAskMembers(os, perms);
    PrecheckMapEntries(os, perms);
  }

  /** The entry the callback writes for position j of the queue: GRANTED only
      when the result array reaches j and holds PERMISSION_GRANTED there;
      otherwise the rationale decides between DENIED and NEVER_ASK_AGAIN. */
  function BatchEntry(toCheck: seq<string>, results: seq<int>, rationale: set<string>, j: nat): GrantState
    requires j < |toCheck|
  {
    if |results| > j && results[j] == PermissionGranted then Granted
    else if toCheck[j] in rationale then Denied
    else NeverAskAgain
  }

  /** Each position is decided as a one-permission dialog would decide it,
      given the results from that position on (none past the array's end). */
  lemma BatchEntryIsSingleOutcome(toCheck: seq<string>, results: seq<int>, rationale: set<string>, j: nat)
    requires j < |toCheck|
    ensures BatchEntry(toCheck, results, rationale, j)
            == SingleOutcome(if |results| > j then results[j..] else [], toCheck[j] in rationale)
  {
  }

  /** The dictionary after the callback loop has handled the first n
      positions of the queue. */
  function Filled(dict: map<string, GrantState>, toCheck: seq<string>, results: seq<int>, rationale: set<string>, n: nat)
    : map<string, GrantState>
    requires n <= |toCheck|
    decreases n
  {
    if n == 0 then dict
    else Filled(dict, toCheck, results, rationale, n - 1)[toCheck[n - 1] := BatchEntry(toCheck, results, rationale, n - 1)]
  }

  /** The callback loop: walk the queue in order and write each position's
      entry into the dictionary. */
  method FillResults(grantedPermissions: map<string, GrantState>, permissionsToCheck: seq<string>, results: seq<int>, rationale: set<string>)
    returns (filled: map<string, GrantState>)
    ensures filled == Filled(grantedPermissions, permissionsToCheck, results, rationale, |permissionsToCheck|)
  {
    filled := grantedPermissions;
    for j := 0 to |permissionsToCheck|
      invariant filled == Filled(grantedPermissions, permissionsToCheck, results, rationale, j)
    {
      var permission := permissionsToCheck[j];
      if |results| > j && results[j] == PermissionGranted {
        filled := filled[permission := Granted];
      } else if permission in rationale {
        filled := filled[permission := Denied];
      } else {
        filled := filled[permission := NeverAskAgain];
      }
    }
  }

  /** The callback adds exactly the queued permissions to the dictionary and
      leaves every other entry as it was. */
  lemma {:induction false} FilledEntries(dict: map<string, GrantState>, toCheck: seq<string>, results: seq<int>, rationale: set<string>, n: nat)
    requires n <= |toCheck|
    ensures forall p :: p in Filled(dict, toCheck, results, rationale, n) <==> p in dict || p in toCheck[..n]
    ensures forall p :: p in dict && p !in toCheck[..n] ==> Filled(dict, toCheck, results, rationale, n)[p] == dict[p]
    decreases n
  {
    if n > 0 {
      FilledEntries(dict, toCheck, results, rationale, n - 1);
      assert toCheck[..n] == toCheck[..n - 1] + [toCheck[n - 1]];
    }
  }

  /** Position j's permission ends with position j's entry when it does not
      come back later in the handled part of the queue: a repeated
      permission keeps the entry of its last position. */
  lemma {:induction false} FilledAt(dict: map<string, GrantState>, toCheck: seq<string>, results: seq<int>, rationale: set<string>, n: nat, j: nat)
    requires n <= |toCheck| && j < n
    requires forall k :: j < k < n ==> toCheck[k] != toCheck[j]
    ensures toCheck[j] in Filled(dict, toCheck, results, rationale, n)
    ensures Filled(dict, toCheck, results, rationale, n)[toCheck[j]] == BatchEntry(toCheck, results, rationale, j)
    decreases n
  {
    if j < n - 1 {
      FilledAt(dict, toCheck, results, rationale, n - 1, j);
    }
  }

  /** The whole batch flow once its dialog is answered, for any list of
      inputs, repeats included: every input has an entry; an input granted at
      call time is GRANTED; the last queue position of each permission
      decides its entry. */
  lemma BatchCoversInputs(before: Os, perms: seq<string>, results: seq<int>, rationale: set<string>)
    ensures var toCheck := ToAsk(before, perms);
            var d := Filled(PrecheckMap(before, perms), toCheck, results, rationale, |toCheck|);
            && (forall p :: p in d <==> p in perms)
            && (forall p :: p in perms && IsGranted(before, p) ==> d[p] == Granted)
            && (forall j :: 0 <= j < |toCheck| && (forall k :: j < k < |toCheck| ==> toCheck[k] != toCheck[j]) ==>
                  toCheck[j] in d && d[toCheck[j]] == BatchEntry(toCheck, results, rationale, j))
  {
    var toCheck := ToAsk(before, perms);
    var pre := PrecheckMap(before, perms);
    PrecheckMapEntries(before, perms);
    ToAskMembers(before, perms);
    FilledEntries(pre, toCheck, results, rationale, |toCheck|);
    assert toCheck[..|toCheck|] == toCheck;
    forall j | 0 <= j < |toCheck| && (forall k :: j < k < |toCheck| ==> toCheck[k] != toCheck[j])
      ensures toCheck[j] in Filled(pre, toCheck, results, rationale, |toCheck|)
      ensures Filled(pre, toCheck, results, rationale, |toCheck|)[toCheck[j]] == BatchEntry(toCheck, results, rationale, j)
    {
      FilledAt(pre, toCheck, results, rationale, |toCheck|, j);
    }
  }

  /** With inputs without repeats, every queued position decides its own
      permission's entry. */
  lemma BatchPositionsOfDistinctInputs(before: Os, perms: seq<string>, results: seq<int>, rationale: set<string>)
    requires forall i, j :: 0 <= i < j < |perms| ==> perms[i] != perms[j]
    ensures var toCheck := ToAsk(before, perms);
            var d := Filled(PrecheckMap(before, perms), toCheck, results, rationale, |toCheck|);
            forall j :: 0 <= j < |toCheck| ==> toCheck[j] in d && d[toCheck[j]] == BatchEntry(toCheck, results, rationale, j)
  {
    BatchCoversInputs(before, perms, results, rationale);
    ToAskDistinct(before, perms);
  }
}
