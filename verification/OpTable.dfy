/** The table of operation names: an operation node carries an index into it. */
module OpTable {
  import opened Basics

  type Name = seq<Byte>

  /** An operation's effect and its own name. */
  datatype OpKey = OpKey(effect: Name, op: Name)

  const MAX_OPS: nat := 256

  const UNKNOWN := OpKey([63], [63])

  function OpAt(ops: seq<OpKey>, i: nat): OpKey {
    if i < |ops| then ops[i] else UNKNOWN
  }

  function IndexOf(ops: seq<OpKey>, key: OpKey): (r: Option<nat>)
    ensures r.Some? ==> r.value < |ops| && ops[r.value] == key
    ensures r.None? <==> key !in ops
  {
    if ops == [] then None
    else if ops[0] == key then Some(0)
    else match IndexOf(ops[1..], key) case None => None case Some(i) => Some(i + 1)
  }

  /** The table after interning a name: unchanged if present, longer if there is room, and none (the
      process stops) if the table is frozen or full. */
  function Intern(ops: seq<OpKey>, frozen: bool, key: OpKey): (r: Option<seq<OpKey>>)
    ensures r.Some? ==> ops <= r.value && key in r.value
  {
    if key in ops then Some(ops)
    else if frozen || |ops| >= MAX_OPS then None
    else Some(ops + [key])
  }

  function InternAll(ops: seq<OpKey>, frozen: bool, keys: seq<OpKey>): (r: Option<seq<OpKey>>)
    ensures r.Some? ==> ops <= r.value
    decreases keys
  {
    if keys == [] then Some(ops)
    else
      match Intern(ops, frozen, keys[0])
      case None => None
      case Some(more) => InternAll(more, frozen, keys[1..])
  }

  // ---- interning ----

  lemma {:induction false} InternAppend(ops: seq<OpKey>, frozen: bool, a: seq<OpKey>, b: seq<OpKey>)
    decreases a
    ensures InternAll(ops, frozen, a + b)
         == match InternAll(ops, frozen, a) case None => None case Some(mid) => InternAll(mid, frozen, b)
  {
    hide Intern;
    if a == [] {
      assert a + b == b;
    } else {
      assert (a + b)[0] == a[0] && (a + b)[1..] == a[1..] + b;
      var first := Intern(ops, frozen, a[0]);
      if first.Some? { InternAppend(first.value, frozen, a[1..], b); }
    }
  }

  /** With room for every name, or with every name known, nothing stops the reader. */
  lemma {:induction false} InternSucceeds(ops: seq<OpKey>, frozen: bool, keys: seq<OpKey>)
    requires (!frozen && |ops| + |keys| <= 256) || forall k :: k in keys ==> k in ops
    ensures InternAll(ops, frozen, keys).Some?
    ensures (forall k :: k in keys ==> k in ops) ==> InternAll(ops, frozen, keys) == Some(ops)
    decreases |keys|
  {
    if keys != [] {
      var first := Intern(ops, frozen, keys[0]).value;
      InternSucceeds(first, frozen, keys[1..]);
    }
  }

  lemma OneThen(ops: seq<OpKey>, frozen: bool, key: OpKey, keys: seq<OpKey>)
    ensures InternAll(ops, frozen, [key] + keys)
         == match Intern(ops, frozen, key) case None => None case Some(more) => InternAll(more, frozen, keys)
  {
    assert ([key] + keys)[1..] == keys;
  }

  /** An interned name keeps its index while the table grows. */
  lemma OpIndexKept(ops: seq<OpKey>, frozen: bool, key: OpKey, keys: seq<OpKey>)
    requires key in ops
    ensures IndexOf(ops, key).Some?
    ensures var later := InternAll(ops, frozen, keys); later.Some? ==>
      IndexOf(ops, key).value < |later.value| && later.value[IndexOf(ops, key).value] == key
  {}

  lemma InternNothing(ops: seq<OpKey>, frozen: bool)
    ensures InternAll(ops, frozen, []) == Some(ops)
  {}

  // ---- the table itself ----

  class Table {
    const slots: array<OpKey>
    var used: nat
    var frozen: bool

    ghost predicate Valid()
      reads this
    {
      used <= slots.Length == MAX_OPS
    }

    function Names(): seq<OpKey>
      requires Valid()
      reads this, slots
    {
      slots[..used]
    }

    constructor ()
      ensures Valid() && Names() == [] && !frozen && fresh(slots)
    {
      slots := new OpKey[MAX_OPS](_ => UNKNOWN);
      used := 0;
      frozen := false;
    }

    /** No name is added any more. */
    method Freeze()
      requires Valid()
      modifies `frozen
      ensures frozen && Names() == old(Names())
    {
      frozen := true;
    }

    /** The index of a name, added if it is new; none, and the process stops, when the table is frozen
        or full. */
    method Find(key: OpKey) returns (r: Option<nat>)
      requires Valid()
      modifies `used, slots
      ensures Valid()
      ensures match Intern(old(Names()), frozen, key)
              case None => r.None? && Names() == old(Names())
              case Some(more) => Names() == more && r == IndexOf(more, key)
      ensures r.None? <==> key !in old(Names()) && (frozen || |old(Names())| >= 256)
      ensures r.Some? ==> r.value < |Names()| && Names()[r.value] == key && key !in Names()[..r.value]
    {
      for i := 0 to used
        invariant key !in slots[..i]
      {
        if slots[i] == key {
          IndexOfFirst(Names(), key, i);
          return Some(i);
        }
      }
      if frozen || used >= MAX_OPS {
        return None;
      }
      slots[used] := key;
      used := used + 1;
      IndexOfFirst(Names(), key, used - 1);
      r := Some(used - 1);
    }

    method NameOf(i: nat) returns (key: OpKey)
      requires Valid()
      ensures key == OpAt(Names(), i)
      ensures key == if i < |Names()| then Names()[i] else OpKey([63], [63])
    {
      key := if i < used then slots[i] else UNKNOWN;
    }
  }

  lemma {:induction false} IndexOfFirst(ops: seq<OpKey>, key: OpKey, i: nat)
    requires i < |ops| && ops[i] == key && key !in ops[..i]
    ensures IndexOf(ops, key) == Some(i)
  {
    if i > 0 {
      assert ops[0] in ops[..i];
      assert ops[1..][..i - 1] == ops[..i][1..];
      IndexOfFirst(ops[1..], key, i - 1);
    }
  }
}
