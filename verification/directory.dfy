// The encoder's directory of tables met: a 32-slot array that moves into two
// Lua tables when the 33rd table arrives.
module Directory {
  import opened Wire
  import opened Graph

  const MAX_REFERENCE := 32

  datatype Reference<A> = Reference(object_: nat, address: Option<A>)

  // objs and addrs are what either representation means: the tables in creation
  // order, and the tag address of each until change_mark consumes it.
  class Directory<A> {
    var objectid: nat
    const r: array<Reference<A>>
    var ids: map<nat, nat>
    var addresses: map<nat, A>

    ghost var objs: seq<nat>
    ghost var addrs: seq<Option<A>>

    ghost predicate InArray()
      reads this, r
      requires r.Length == MAX_REFERENCE && |objs| == |addrs| <= MAX_REFERENCE
    {
      forall i :: 0 <= i < |objs| ==> r[i] == Reference(objs[i], addrs[i])
    }

    ghost predicate InTables()
      reads this
      requires |objs| == |addrs|
    {
      && (forall o :: o in ids <==> o in objs)
      && (forall i :: 0 <= i < |objs| ==> objs[i] in ids && ids[objs[i]] == i + 1)
      && (forall i :: 0 <= i < |objs| ==> (i + 1 in addresses <==> addrs[i].Some?))
      && (forall i :: 0 <= i < |objs| && addrs[i].Some? ==> addresses[i + 1] == addrs[i].value)
    }

    ghost predicate Valid()
      reads this, r
      ensures Valid() ==> |objs| == |addrs|
    {
      && r.Length == MAX_REFERENCE
      && Distinct(objs)
      && |objs| == |addrs| == objectid
      && (if objectid <= MAX_REFERENCE then InArray() else InTables())
    }

    constructor ()
      ensures Valid() && fresh(r) && objs == [] && addrs == []
    {
      r := new Reference<A>[MAX_REFERENCE](_ => Reference(0, None));
      objectid, ids, addresses := 0, map[], map[];
      objs, addrs := [], [];
    }

    // mark_table's migration at the 33rd table
    method Migrate()
      requires Valid() && objectid == MAX_REFERENCE
      modifies this`ids, this`addresses
      ensures InTables()
      ensures forall k :: k in addresses ==> 0 < k <= MAX_REFERENCE
    {
      ids, addresses := map[], map[];
      for i := 0 to MAX_REFERENCE
        invariant forall o :: o in ids ==> o in objs
        invariant forall j :: 0 <= j < i ==> objs[j] in ids && ids[objs[j]] == j + 1
        invariant forall j :: 0 <= j < i ==> (j + 1 in addresses <==> addrs[j].Some?)
        invariant forall j :: 0 <= j < i && addrs[j].Some? ==> addresses[j + 1] == addrs[j].value
        invariant forall k :: k in addresses ==> 0 < k <= i
      {
        ids := ids[r[i].object_ := i + 1];
        if r[i].address.Some? {
          addresses := addresses[i + 1 := r[i].address.value];
        }
      }
    }

    // mark_table
    method MarkTable(obj: nat, addr: A)
      requires Valid() && obj !in objs
      modifies this, r
      ensures Valid() && objs == old(objs) + [obj] && addrs == old(addrs) + [Some(addr)]
    {
      var id := objectid;
      if id == MAX_REFERENCE {
        Migrate();
      }
      objectid := id + 1;
      if id < MAX_REFERENCE {
        r[id] := Reference(obj, Some(addr));
      } else {
        ids := ids[obj := id + 1];
        addresses := addresses[id + 1 := addr];
      }
      objs, addrs := objs + [obj], addrs + [Some(addr)];
    }

    // lookup_ref: the id of a recorded table, 0 if there is none, and the tag
    // address to mark, given out only the first time.
    method Lookup(obj: nat) returns (id: nat, mark: Option<A>)
      requires Valid()
      modifies this, r
      ensures Valid() && objs == old(objs)
      ensures id == 0 <==> obj !in objs
      ensures id == 0 ==> mark == None && addrs == old(addrs)
      ensures id != 0 ==> id <= |objs| && objs[id - 1] == obj
      ensures id != 0 ==> mark == old(addrs)[id - 1] && addrs == old(addrs)[id - 1 := None]
    {
      mark := None;
      if objectid <= MAX_REFERENCE {
        var i := 0;
        while i < objectid
          invariant 0 <= i <= objectid
          invariant obj !in objs[..i]
        {
          if obj == r[i].object_ {
            mark := r[i].address;
            r[i] := r[i].(address := None);
            addrs := addrs[i := None];
            return i + 1, mark;
          }
          assert objs[..i + 1] == objs[..i] + [objs[i]];
          i := i + 1;
        }
        assert objs[..i] == objs;
        return 0, None;
      }
      if obj !in ids {
        return 0, None;
      }
      id := ids[obj];
      if id in addresses {
        mark := Some(addresses[id]);
        addresses := addresses - {id};
      }
      addrs := addrs[id - 1 := None];
    }
  }
}
