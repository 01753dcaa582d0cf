/** Readiness of the data slots the workflow inspects: output slots made of
    lanes (each with a ready() flag and a shape), and the input ImageGroup,
    which holds one group of role slots per dataset. */
module Slots {

  /** One lane of an output slot: whether it is ready and its meta.shape. */
  datatype Lane = Lane(ready: bool, shape: seq<nat>)

  /** A multi-lane output slot. */
  type Slot = seq<Lane>

  /** Number of elements of an array of the given shape (np.prod); the empty
      shape, a scalar, has one element. */
  function Product(shape: seq<nat>): nat
  {
    if |shape| == 0 then 1 else shape[0] * Product(shape[1..])
  }

  /** An array holds at least one element exactly when no extent is zero. */
  lemma {:induction false} ProductPositiveIffNoZeroExtent(shape: seq<nat>)
    ensures Product(shape) > 0 <==> forall i :: 0 <= i < |shape| ==> shape[i] > 0
  {
    if |shape| > 0 {
      ProductPositiveIffNoZeroExtent(shape[1..]);
      assert forall i :: 1 <= i < |shape| ==> shape[i] == shape[1..][i - 1];
      if shape[0] > 0 && Product(shape[1..]) > 0 {
        assert Product(shape) > 0;
      }
    }
  }

  /** The nested reallyReady check of the pixel-classification workflow: the
      slot has a lane, lane 0 is ready and lane 0 is not degenerate. Only
      lane 0 is examined. */
  function ReallyReady(s: Slot): (r: bool)
    ensures r <==> |s| > 0 && s[0].ready && forall i :: 0 <= i < |s[0].shape| ==> s[0].shape[i] > 0
  {
    if |s| == 0 then false
    else
      ProductPositiveIffNoZeroExtent(s[0].shape);
      s[0].ready && Product(s[0].shape) > 0
  }

  /** Every lane of the slot is ready and there is at least one lane. */
  predicate LanesReady(lanes: seq<bool>)
  {
    |lanes| > 0 && forall i :: 0 <= i < |lanes| ==> lanes[i]
  }

  /** Every group of the ImageGroup slot has at least nRoles role slots. */
  predicate HasRoles(groups: seq<seq<bool>>, nRoles: nat)
  {
    forall g :: 0 <= g < |groups| ==> nRoles <= |groups[g]|
  }

  /** The first nRoles role slots of one group are all ready. */
  predicate RolesReady(group: seq<bool>, nRoles: nat)
    requires nRoles <= |group|
  {
    forall i :: 0 <= i < nRoles ==> group[i]
  }

  /** Readiness of the input data: there is at least one group, and in every
      group the first nRoles role slots are ready. */
  predicate GroupsReady(groups: seq<seq<bool>>, nRoles: nat)
    requires HasRoles(groups, nRoles)
  {
    |groups| > 0 && forall g :: 0 <= g < |groups| ==> RolesReady(groups[g], nRoles)
  }

  /** The root-readiness loop of both workflow variants: false when there is
      no group, otherwise the conjunction over every group. */
  method RootReady(groups: seq<seq<bool>>, nRoles: nat) returns (ready: bool)
    requires HasRoles(groups, nRoles)
    ensures ready == GroupsReady(groups, nRoles)
  {
    if |groups| > 0 {
      ready := true;
      for g := 0 to |groups|
        invariant ready <==> forall k :: 0 <= k < g ==> RolesReady(groups[k], nRoles)
      {
        ready := ready && RolesReady(groups[g], nRoles);
      }
    } else {
      ready := false;
    }
  }
}
