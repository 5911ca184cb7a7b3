/** The stateless parts of the exported facade: name mapping of a list with
    de-duplication, hasPermission, and the two settings helpers. */
module Facade {
  import opened PermissionTypes
  import opened AndroidOs

  /** A rejected promise and the message of its error. */
  datatype Rejection = Rejection(message: string)

  /** The identifier of each name, position by position. */
  function PlatformIds(names: seq<string>): (ids: seq<string>)
    ensures |ids| == |names|
    ensures forall i :: 0 <= i < |names| ==> ids[i] == PlatformId(names[i])
  {
    seq(|names|, i requires 0 <= i < |names| => PlatformId(names[i]))
  }

  /** Array.from(new Set(ids)): every identifier once, in the order of its
      first occurrence. */
  function Dedup(ids: seq<string>): (unique: seq<string>)
    ensures forall i, j :: 0 <= i < j < |unique| ==> unique[i] != unique[j]
    ensures forall x :: x in unique <==> x in ids
    decreases |ids|
  {
    if ids == [] then []
    else
      var seen := Dedup(ids[..|ids| - 1]);
      var x := ids[|ids| - 1];
      if x in seen then seen else seen + [x]
  }

  /** Insertion order: what is de-duplicated from a prefix is a prefix of what
      is de-duplicated from the whole. */
  lemma {:induction false} DedupKeepsOrder(a: seq<string>, b: seq<string>)
    ensures Dedup(a) <= Dedup(a + b)
    decreases |b|
  {
    if b == [] {
      assert a + b == a;
    } else {
      var init := b[..|b| - 1];
      DedupKeepsOrder(a, init);
      assert (a + b)[..|a + b| - 1] == a + init;
    }
  }

  /** A list that has no repeats is its own de-duplication. */
  lemma {:induction false} DedupOfDistinct(ids: seq<string>)
    requires forall i, j :: 0 <= i < j < |ids| ==> ids[i] != ids[j]
    ensures Dedup(ids) == ids
    decreases |ids|
  {
    if ids != [] {
      var init := ids[..|ids| - 1];
      DedupOfDistinct(init);
      assert ids[|ids| - 1] !in init;
      assert ids == init + [ids[|ids| - 1]];
    }
  }

  /** hasPermission: whether the OS reports the name's identifier granted; a
      table name is checked under its manifest identifier, any other name as
      given. */
  function HasPermission(os: Os, name: string): (granted: bool)
    ensures ManifestConstant(name).Some? ==> (granted <==> ManifestConstant(name).value in os.granted)
    ensures ManifestConstant(name).None? ==> (granted <==> name in os.granted)
  {
    IsGranted(os, PlatformId(name))
  }

  /** canOpenSettings always resolves false on Android. */
  function CanOpenSettings(): (canOpen: bool)
    ensures !canOpen
  {
    false
  }

  /** openSettings always rejects on Android. */
  function OpenSettings(): (r: Rejection)
    ensures r.message == "'openSettings' is deprecated on android"
  {
    Rejection("'openSettings' is deprecated on android")
  }
}
