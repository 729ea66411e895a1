/**
 How the application's sub-slot finds its place in the cyclic data: the first data object
 for it among the consumer connections of the AR that owns the sub-slot.
 */
module CpmDescriptors {
  import opened CpmConsumer
  import opened Wrappers

  datatype IocrType = Input | Output | McProvider | McConsumer
  datatype DataObject = DataObject(inUse: bool, api: nat, slot: nat, subslot: nat)
  datatype Iocr = Iocr(kind: IocrType, objects: seq<DataObject>)

  predicate Wanted(iocrs: seq<Iocr>, i: nat, j: nat, api: nat, slot: nat, subslot: nat)
    requires i < |iocrs| && j < |iocrs[i].objects|
  {
    var d := iocrs[i].objects[j];
    && (iocrs[i].kind == Output || iocrs[i].kind == McConsumer)
    && d.inUse && d.api == api && d.slot == slot && d.subslot == subslot
  }

  /** Nothing is found before object `j` of connection `i`. */
  ghost predicate NoneBefore(iocrs: seq<Iocr>, i: nat, j: nat, api: nat, slot: nat, subslot: nat) {
    forall a, b :: 0 <= a < |iocrs| && 0 <= b < |iocrs[a].objects| && (a < i || (a == i && b < j)) ==>
                     !Wanted(iocrs, a, b, api, slot, subslot)
  }

  /** pf_cpm_get_ar_iocr_desc; `owner` are the connections of the AR that owns the sub-slot. */
  method Find(owner: Option<seq<Iocr>>, api: nat, slot: nat, subslot: nat) returns (place: Option<(nat, nat)>)
    ensures owner.None? ==> place.None?
    ensures place.Some? ==>
              var (i, j) := place.value;
              && owner.Some? && i < |owner.value| && j < |owner.value[i].objects|
              && Wanted(owner.value, i, j, api, slot, subslot)
              && NoneBefore(owner.value, i, j, api, slot, subslot)
    ensures owner.Some? && place.None? ==> NoneBefore(owner.value, |owner.value|, 0, api, slot, subslot)
  {
    place := None;
    if owner.Some? {
      var iocrs := owner.value;
      var found, crep := false, 0;
      while !found && crep < |iocrs|
        invariant crep <= |iocrs|
        invariant !found ==> place.None? && NoneBefore(iocrs, crep, 0, api, slot, subslot)
        invariant found ==> place.Some?
        invariant place.Some? ==>
                    var (i, j) := place.value;
                    && i < |iocrs| && j < |iocrs[i].objects|
                    && Wanted(iocrs, i, j, api, slot, subslot) && NoneBefore(iocrs, i, j, api, slot, subslot)
        decreases |iocrs| - crep
      {
        if iocrs[crep].kind == Output || iocrs[crep].kind == McConsumer {
          var ix := 0;
          while !found && ix < |iocrs[crep].objects|
            invariant ix <= |iocrs[crep].objects|
            invariant !found ==> place.None? && NoneBefore(iocrs, crep, ix, api, slot, subslot)
            invariant found ==> place.Some?
            invariant place.Some? ==>
                        var (i, j) := place.value;
                        && i < |iocrs| && j < |iocrs[i].objects|
                        && Wanted(iocrs, i, j, api, slot, subslot) && NoneBefore(iocrs, i, j, api, slot, subslot)
            decreases |iocrs[crep].objects| - ix
          {
            var d := iocrs[crep].objects[ix];
            if d.inUse && d.api == api && d.slot == slot && d.subslot == subslot {
              place := Some((crep, ix));
              found := true;
            }
            ix := ix + 1;
          }
        }
        crep := crep + 1;
      }
    }
  }
}
